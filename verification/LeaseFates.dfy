/** What becomes of a request that had to queue: it is never lost, and it ends in one of three ways. */
module LeaseFates {
  import opened Options
  import opened LeaseModel
  import opened LeaseInvariant
  import opened LeaseHandoff
  import opened LeaseRuns

  predicate Pending(s: State, t: nat) {
    t < |s.asked| && Queued(Queue(s, s.asked[t].resource), t)
  }

  /** A request that was made is settled or still in the queue of its resource. */
  predicate Accounted(s: State, t: nat) {
    t < |s.asked| ==> t in s.outcomes || Pending(s, t)
  }

  predicate Cancels(a: Action, t: nat) { a.DoCancel? && a.ticket == t }

  /** The asker's session is ended by the action. */
  predicate EndsSession(a: Action, session: string) { a.DoReleaseAll? && a.session == session }

  /** Requests stay on record; t stays accounted for, and if it is settled between s and s', it is granted. */
  predicate Carried(s: State, s': State, t: nat) {
    && s.asked <= s'.asked && s.outcomes.Keys <= s'.outcomes.Keys
    && (Accounted(s, t) ==> Accounted(s', t))
    && (t in s'.outcomes && t !in s.outcomes ==> s'.outcomes[t].Granted?)
  }

  // One step

  lemma TailKeepsOthers(q: seq<Waiter>, t: nat)
    requires Queued(q, t) && q[0].ticket != t
    ensures Queued(q[1..], t)
  {
    var i :| 0 <= i < |q| && q[i].ticket == t;
    assert q[1..][i - 1].ticket == t;
  }

  lemma HandOffCarries(s: State, id: string, to: LeaseState, stamp: Time, now: Time, newId: string, s': State, t: nat)
    requires id in s.leases && HandsOff(s, id, to, stamp, now, newId, s')
    ensures Carried(s, s', t)
  {
    var r := s.leases[id].resource;
    var q := Queue(s, r);
    if Pending(s, t) && s.asked[t].resource == r && q[0].ticket != t { TailKeepsOthers(q, t); }
  }

  lemma EndCarries(s: State, id: string, to: LeaseState, stamp: Time, now: Time, t: nat)
    requires Inv(s) && IsActive(s, id) && to != Active
    ensures Carried(s, EndAndHandOff(s, id, to, stamp, now), t)
  {
    HandOffEffect(s, id, to, stamp, now);
    HandOffCarries(s, id, to, stamp, now, NewId(s), EndAndHandOff(s, id, to, stamp, now), t);
  }

  lemma CarriedTrans(s: State, v: State, s': State, t: nat)
    requires Carried(s, v, t) && Carried(v, s', t)
    requires forall u | u in v.outcomes :: u in s'.outcomes && s'.outcomes[u] == v.outcomes[u]
    ensures Carried(s, s', t)
  {
  }

  lemma {:induction false} VisitsCarry(s: State, c: Criterion, order: seq<string>, stamp: Time, now: Time, t: nat)
    requires Inv(s)
    ensures Carried(s, Visits(s, c, order, stamp, now), t)
  {
    if order != [] {
      var p, id := order[..|order| - 1], order[|order| - 1];
      var v := Visits(s, c, p, stamp, now);
      VisitsCarry(s, c, p, stamp, now, t);
      VisitsKeepInv(s, c, p, stamp, now);
      if Doomed(v, c, id) {
        EndCarries(v, id, EndState(c), stamp, now, t);
        EndAndHandOffEvolves(v, id, EndState(c), stamp, now);
        CarriedTrans(s, v, EndAndHandOff(v, id, EndState(c), stamp, now), t);
      }
    }
  }

  lemma AcquireCarries(s: State, r: string, session: string, ttl: int, now: Time, t: nat)
    ensures Carried(s, Acquire(s, r, session, ttl, now), t)
  {
    var s' := Acquire(s, r, session, ttl, now);
    if AcquireAnswer(s, r).MustWait? {
      var q := Queue(s, r);
      assert Queue(s', r)[|q|].ticket == |s.asked|;
      if Pending(s, t) && s.asked[t].resource == r {
        var i :| 0 <= i < |q| && q[i].ticket == t;
        assert Queue(s', r)[i].ticket == t;
      }
    }
  }

  lemma OthersStayQueued(q: seq<Waiter>, ticket: nat, t: nat)
    requires Increasing(q) && ticket != t && Queued(q, ticket) && Queued(q, t)
    ensures Queued(WithoutTicket(q, ticket), t)
  {
    var k :| 0 <= k < |q| && q[k].ticket == ticket;
    var i :| 0 <= i < |q| && q[i].ticket == t;
    WithoutTicketIs(q, ticket, k);
    var q' := q[..k] + q[k + 1..];
    assert q'[if i < k then i else i - 1] == q[i];
  }

  lemma CancelCarries(s: State, r: string, ticket: nat, t: nat)
    requires QueuesOk(s.queues, s.asked, s.outcomes) && ticket != t
    ensures Carried(s, Cancel(s, r, ticket), t)
  {
    var q := Queue(s, r);
    if Queued(q, ticket) && Queued(q, t) {
      assert Increasing(QueueOf(s.queues, r));
      OthersStayQueued(q, ticket, t);
    }
  }

  lemma UntouchedCarries(s: State, s': State, t: nat)
    requires s'.queues == s.queues && s'.asked == s.asked && s'.outcomes == s.outcomes
    ensures Carried(s, s', t)
  {
  }

  /** Dropping one session's waiters leaves everybody else's in their queues. */
  lemma DropCarries(s: State, session: string, t: nat)
    requires Inv(s) && (t < |s.asked| ==> s.asked[t].session != session)
    ensures Carried(s, DropWaiters(s, session), t)
  {
    DropEffect(s, session);
    if Pending(s, t) {
      var r := s.asked[t].resource;
      var i :| 0 <= i < |Queue(s, r)| && Queue(s, r)[i].ticket == t;
      var w := Queue(s, r)[i];
      assert w in QueueOf(s.queues, r);
      assert Open(s.asked, s.outcomes, r, w);
      WithoutSessionThins(s.queues, session);
      DropQueue(s, session, r);
      assert w in Survivors(Queue(s, r), session);
    }
  }

  /** And settles those it removes: nobody is lost even when its own session ends. */
  lemma DropAccounts(s: State, session: string, t: nat)
    requires Inv(s) && Accounted(s, t)
    ensures Accounted(DropWaiters(s, session), t)
  {
    var s' := DropWaiters(s, session);
    if Pending(s, t) {
      var r := s.asked[t].resource;
      var i :| 0 <= i < |Queue(s, r)| && Queue(s, r)[i].ticket == t;
      var w := Queue(s, r)[i];
      WithoutSessionThins(s.queues, session);
      if w.session == session {
        assert t in TicketsOf(s, session);
      } else {
        DropQueue(s, session, r);
        assert w in Survivors(Queue(s, r), session);
      }
    }
  }

  lemma ReleaseAllCarries(s: State, session: string, order: seq<string>, now: Time, t: nat)
    requires Inv(s) && (t < |s.asked| ==> s.asked[t].session != session)
    ensures Carried(s, ReleaseAll(s, session, order, now), t)
  {
    var v := Visits(s, OwnedBy(session), order, now, now);
    VisitsCarry(s, OwnedBy(session), order, now, now, t);
    VisitsKeepInv(s, OwnedBy(session), order, now, now);
    VisitsAsk(s, OwnedBy(session), order, now, now);
    DropCarries(v, session, t);
    DropEffect(v, session);
    CarriedTrans(s, v, DropWaiters(v, session), t);
  }

  lemma VisitAsks(s: State, c: Criterion, id: string, stamp: Time, now: Time)
    ensures Visit(s, c, id, stamp, now).asked == s.asked
  {
  }

  lemma {:induction false} VisitsAsk(s: State, c: Criterion, order: seq<string>, stamp: Time, now: Time)
    ensures Visits(s, c, order, stamp, now).asked == s.asked
  {
    if order != [] {
      var p, id := order[..|order| - 1], order[|order| - 1];
      VisitsAsk(s, c, p, stamp, now);
      VisitAsks(Visits(s, c, p, stamp, now), c, id, stamp, now);
    }
  }

  lemma ReleaseAllAccounts(s: State, session: string, order: seq<string>, now: Time, t: nat)
    requires Inv(s) && Accounted(s, t)
    ensures Accounted(ReleaseAll(s, session, order, now), t)
  {
    VisitsCarry(s, OwnedBy(session), order, now, now, t);
    VisitsKeepInv(s, OwnedBy(session), order, now, now);
    DropAccounts(Visits(s, OwnedBy(session), order, now, now), session, t);
  }

  lemma OneCarries(s: State, id: string, now: Time, t: nat)
    requires Inv(s)
    ensures Carried(s, Release(s, id, now), t) && Carried(s, ExpireNow(s, id, now), t)
  {
    if IsActive(s, id) {
      EndCarries(s, id, Released, now, now, t);
      EndCarries(s, id, Expired, now, now, t);
    }
  }

  lemma LoopCarries(s: State, a: Action, t: nat)
    requires Inv(s) && OverTheTable(a) && (t < |s.asked| ==> !EndsSession(a, s.asked[t].session))
    ensures Carried(s, Step(s, a), t)
  {
    if a.DoReleaseAll? {
      ReleaseAllCarries(s, a.session, a.order, a.now, t);
    } else if a.DoSweep? {
      VisitsCarry(s, Overdue(a.cutoff), a.order, a.cutoff, a.now, t);
    } else {
      VisitsCarry(s, Unowned(a.live), a.order, a.now, a.now, t);
    }
  }

  lemma StepCarries(s: State, a: Action, t: nat)
    requires Inv(s) && !Cancels(a, t) && (t < |s.asked| ==> !EndsSession(a, s.asked[t].session))
    ensures Carried(s, Step(s, a), t)
  {
    if OverTheTable(a) {
      LoopCarries(s, a, t);
    } else {
      match a
      case DoAcquire(r, session, ttl, now) => AcquireCarries(s, r, session, ttl, now, t);
      case DoCancel(r, ticket) => CancelCarries(s, r, ticket, t);
      case DoRelease(id, now) => OneCarries(s, id, now, t);
      case DoExpireNow(id, now) => OneCarries(s, id, now, t);
      case DoRenew(_, _, _) => UntouchedCarries(s, Step(s, a), t);
      case DoEnsure(_, _) => UntouchedCarries(s, Step(s, a), t);
    }
  }

  lemma StepAccounts(s: State, a: Action, t: nat)
    requires Inv(s) && Accounted(s, t) && !Cancels(a, t)
    ensures Accounted(Step(s, a), t)
  {
    if a.DoReleaseAll? {
      ReleaseAllAccounts(s, a.session, a.order, a.now, t);
    } else {
      StepCarries(s, a, t);
    }
  }

  // Whole runs

  /** No request is ever lost: at every moment of every run it is settled or still in its queue, unless
      its caller cancelled it. */
  lemma {:induction false} NeverLost(s: State, actions: seq<Action>, t: nat)
    requires Inv(s) && Accounted(s, t) && forall a | a in actions :: !Cancels(a, t)
    ensures Accounted(Run(s, actions), t)
  {
    if actions != [] {
      var p := actions[..|actions| - 1];
      NeverLost(s, p, t);
      RunKeepsInv(s, p);
      StepAccounts(Run(s, p), actions[|actions| - 1], t);
    }
  }

  /** A request settled during a run is granted, unless its own session is ended in that run. */
  lemma {:induction false} SettledMeansGranted(s: State, actions: seq<Action>, t: nat)
    requires Inv(s)
    requires var s' := Run(s, actions);
             t < |s'.asked| && forall a | a in actions :: !EndsSession(a, s'.asked[t].session)
    ensures t in Run(s, actions).outcomes && t !in s.outcomes ==> WasGranted(Run(s, actions).outcomes, t)
  {
    if actions != [] {
      var p, a := actions[..|actions| - 1], actions[|actions| - 1];
      var v := Run(s, p);
      RunKeepsInv(s, p);
      StepEvolves(v, a);
      assert t in v.outcomes ==> t < |v.asked|;
      if t < |v.asked| { SettledMeansGranted(s, p, t); }
      if !Cancels(a, t) { StepCarries(v, a, t); }
    }
  }

  /** Every waiter is served unless it leaves on its own: once more leases of its resource have ended than
      stood before it, the waiter at place i holds its grant, or its caller cancelled it, or its session was
      ended. */
  lemma BoundedWaiting(s: State, actions: seq<Action>, r: string, i: nat)
    requires Inv(s) && i < |Queue(s, r)|
    requires |Ended(Run(s, actions), r)| > i + |Ended(s, r)|
    ensures var w, s' := Queue(s, r)[i], Run(s, actions);
            || (WasGranted(s'.outcomes, w.ticket)
                && GrantFits(s'.leases, Request(r, w.session), s'.outcomes[w.ticket].lease))
            || (exists a :: a in actions && Cancels(a, w.ticket))
            || (exists a :: a in actions && EndsSession(a, w.session))
  {
    var w, s' := Queue(s, r)[i], Run(s, actions);
    assert w in QueueOf(s.queues, r);
    assert Open(s.asked, s.outcomes, r, w);
    RunEvolves(s, actions);
    RunKeepsInv(s, actions);
    OutOfTheQueue(s, actions, r, i);
    assert s'.asked[w.ticket] == s.asked[w.ticket];
    if (forall a | a in actions :: !Cancels(a, w.ticket)) && (forall a | a in actions :: !EndsSession(a, w.session)) {
      NeverLost(s, actions, w.ticket);
      SettledMeansGranted(s, actions, w.ticket);
      assert GrantFits(s'.leases, s'.asked[w.ticket], s'.outcomes[w.ticket].lease);
    }
  }

  // Deadlines of leases granted from the queue

  /** If t has been granted, its lease has no deadline. */
  predicate Undated(s: State, t: nat) {
    WasGranted(s.outcomes, t) && s.outcomes[t].lease in s.leases ==> s.leases[s.outcomes[t].lease].expires.None?
  }

  /** Whatever is granted from the queue between s and s' has no deadline. */
  predicate GrantsUndated(s: State, s': State, t: nat) {
    t !in s.outcomes ==> Undated(s', t)
  }

  lemma EndGrantsUndated(s: State, id: string, to: LeaseState, stamp: Time, now: Time, t: nat)
    requires Inv(s) && IsActive(s, id) && to != Active
    ensures GrantsUndated(s, EndAndHandOff(s, id, to, stamp, now), t)
  {
    HandOffEffect(s, id, to, stamp, now);
  }

  /** An undated granted lease stays undated while its deadline stays. */
  lemma StaysUndated(s: State, s': State, t: nat)
    requires WasGranted(s.outcomes, t) && s.outcomes[t].lease in s.leases && Undated(s, t)
    requires t in s'.outcomes && s'.outcomes[t] == s.outcomes[t] && SameDeadline(s, s', s.outcomes[t].lease)
    ensures Undated(s', t)
  {
  }

  lemma {:induction false} VisitsGrantUndated(s: State, c: Criterion, order: seq<string>, stamp: Time, now: Time,
                                              t: nat)
    requires Inv(s)
    ensures GrantsUndated(s, Visits(s, c, order, stamp, now), t)
  {
    if order != [] && t !in s.outcomes {
      var p, id := order[..|order| - 1], order[|order| - 1];
      var v := Visits(s, c, p, stamp, now);
      VisitsGrantUndated(s, c, p, stamp, now, t);
      VisitsKeepInv(s, c, p, stamp, now);
      if Doomed(v, c, id) {
        var v' := EndAndHandOff(v, id, EndState(c), stamp, now);
        EndGrantsUndated(v, id, EndState(c), stamp, now, t);
        EndAndHandOffEvolves(v, id, EndState(c), stamp, now);
        if WasGranted(v.outcomes, t) {
          assert GrantFits(v.leases, v.asked[t], v.outcomes[t].lease);
          HandOffKeepsDeadline(v, id, EndState(c), stamp, now, v.outcomes[t].lease);
          StaysUndated(v, v', t);
        }
      }
    }
  }

  lemma DropGrantsNothing(s: State, v: State, session: string, t: nat)
    requires QueuesOk(v.queues, v.asked, v.outcomes) && GrantsUndated(s, v, t)
    ensures GrantsUndated(s, DropWaiters(v, session), t)
  {
    DropEffect(v, session);
  }

  lemma ReleaseAllGrantsUndated(s: State, session: string, order: seq<string>, now: Time, t: nat)
    requires Inv(s)
    ensures GrantsUndated(s, ReleaseAll(s, session, order, now), t)
  {
    VisitsGrantUndated(s, OwnedBy(session), order, now, now, t);
    VisitsKeepInv(s, OwnedBy(session), order, now, now);
    DropGrantsNothing(s, Visits(s, OwnedBy(session), order, now, now), session, t);
  }

  lemma LoopGrantsUndated(s: State, a: Action, t: nat)
    requires Inv(s) && OverTheTable(a)
    ensures GrantsUndated(s, Step(s, a), t)
  {
    if a.DoReleaseAll? {
      ReleaseAllGrantsUndated(s, a.session, a.order, a.now, t);
    } else if a.DoSweep? {
      VisitsGrantUndated(s, Overdue(a.cutoff), a.order, a.cutoff, a.now, t);
    } else {
      VisitsGrantUndated(s, Unowned(a.live), a.order, a.now, a.now, t);
    }
  }

  lemma StepGrantsUndated(s: State, a: Action, t: nat)
    requires Inv(s)
    ensures GrantsUndated(s, Step(s, a), t)
  {
    if OverTheTable(a) {
      LoopGrantsUndated(s, a, t);
    } else {
      match a
      case DoRelease(id, now) => if IsActive(s, id) { EndGrantsUndated(s, id, Released, now, now, t); }
      case DoExpireNow(id, now) => if IsActive(s, id) { EndGrantsUndated(s, id, Expired, now, now, t); }
      case DoAcquire(_, _, _, _) =>
      case DoCancel(_, _) =>
      case DoRenew(_, _, _) =>
      case DoEnsure(_, _) =>
    }
  }

  /** The action renews the lease that t has been granted. */
  predicate RenewsGrant(outcomes: Outcomes, a: Action, t: nat) {
    WasGranted(outcomes, t) && Renews(a, outcomes[t].lease)
  }

  lemma StepKeepsUndated(s: State, a: Action, t: nat)
    requires Inv(s) && Undated(s, t) && !RenewsGrant(s.outcomes, a, t)
    ensures Undated(Step(s, a), t)
  {
    if t !in s.outcomes {
      StepGrantsUndated(s, a, t);
    } else {
      StepEvolves(s, a);
      if WasGranted(s.outcomes, t) {
        assert GrantFits(s.leases, s.asked[t], s.outcomes[t].lease);
        StepKeepsDeadline(s, a, s.outcomes[t].lease);
        StaysUndated(s, Step(s, a), t);
      }
    }
  }

  /** The lease of a request that had to queue has no deadline, whatever TTL was asked for, until somebody
      renews it. */
  lemma {:induction false} QueueGrantsUndated(s: State, actions: seq<Action>, t: nat)
    requires Inv(s) && Undated(s, t)
    requires forall a | a in actions :: !RenewsGrant(Run(s, actions).outcomes, a, t)
    ensures Undated(Run(s, actions), t)
  {
    if actions != [] {
      var p, a := actions[..|actions| - 1], actions[|actions| - 1];
      var v, outcomes' := Run(s, p), Run(s, actions).outcomes;
      assert forall b | b in p :: b in actions;
      RunKeepsInv(s, p);
      OutcomesStay(v, a, t);
      forall b | b in actions ensures !RenewsGrant(v.outcomes, b, t) {
        assert !RenewsGrant(outcomes', b, t);
      }
      QueueGrantsUndated(s, p, t);
      StepKeepsUndated(v, a, t);
    }
  }

  lemma OutcomesStay(s: State, a: Action, t: nat)
    requires Inv(s)
    ensures t in s.outcomes ==> t in Step(s, a).outcomes && Step(s, a).outcomes[t] == s.outcomes[t]
  {
    StepEvolves(s, a);
  }

  /** So no sweep, however late, ever touches a lease that was granted from the queue, unless it was renewed:
      from any state in which t is not granted yet, and from the start in particular. */
  lemma QueueGrantsNeverSwept(s: State, actions: seq<Action>, t: nat, cutoff: Time, order: seq<string>, now: Time)
    requires Inv(s) && Undated(s, t)
    requires var s' := Run(s, actions);
             && WasGranted(s'.outcomes, t) && (forall a | a in actions :: !RenewsGrant(s'.outcomes, a, t))
             && LegalOrder(s', Overdue(cutoff), order, cutoff, now)
    ensures var s' := Run(s, actions); var id := s'.outcomes[t].lease;
            && id in s'.leases && s'.leases[id].expires.None?
            && id in Sweep(s', cutoff, order, now).leases
            && Sweep(s', cutoff, order, now).leases[id] == s'.leases[id]
  {
    var s' := Run(s, actions);
    RunKeepsInv(s, actions);
    assert GrantFits(s'.leases, s'.asked[t], s'.outcomes[t].lease);
    QueueGrantsUndated(s, actions, t);
    SweepSpares(s', cutoff, order, now, s'.outcomes[t].lease);
  }

  /** And a renewal is all it takes to bring it under the sweeps again. */
  lemma RenewedIsSwept(s: State, t: nat, ttl: int, now: Time, cutoff: Time, order: seq<string>, later: Time)
    requires Inv(s) && WasGranted(s.outcomes, t) && IsActive(s, s.outcomes[t].lease) && ttl > 0 && now + ttl < cutoff
    requires LegalOrder(Renew(s, s.outcomes[t].lease, ttl, now), Overdue(cutoff), order, cutoff, later)
    ensures var s' := Sweep(Renew(s, s.outcomes[t].lease, ttl, now), cutoff, order, later);
            s.outcomes[t].lease in s'.leases && s'.leases[s.outcomes[t].lease].state == Expired
  {
    var id := s.outcomes[t].lease;
    var v := Renew(s, id, ttl, now);
    RenewKeepsInv(s, id, ttl, now);
    SweepExact(v, cutoff, order, later);
    assert Doomed(v, Overdue(cutoff), id);
  }
}
