/** Sessions that neither hold nor wait, and the table loops of a manager on which nobody waits. */
module LeaseIdle {
  import opened LeaseModel
  import opened LeaseInvariant
  import opened LeaseHandoff

  /** The session has no active lease and stands in no queue. */
  ghost predicate Idle(s: State, session: string) {
    HoldsNothing(s, session) && WaitsForNothing(s, session)
  }

  lemma SameQueuesIdle(s: State, s': State, x: string)
    requires Idle(s, x) && s'.queues == s.queues && HoldsNothing(s', x)
    ensures Idle(s', x)
  {
    forall o, w | w in Queue(s', o) ensures w.session != x {
      assert w in Queue(s, o);
    }
  }

  lemma TrySatisfyKeepsIdle(s: State, r: string, now: Time, x: string)
    requires Idle(s, x)
    ensures Idle(TrySatisfy(s, r, now), x)
  {
    var q := Queue(s, r);
    if q != [] && r in s.res && HasRoom(s, r) {
      var s' := TrySatisfy(s, r, now);
      assert q[0] in Queue(s, r);
      assert s'.queues == s.queues[r := q[1..]];
      forall o, w | w in Queue(s', o) ensures w.session != x {
        assert w in Queue(s, o);
      }
    } else {
      SameQueuesIdle(s, TrySatisfy(s, r, now), x);
    }
  }

  lemma HandOffKeepsIdle(s: State, id: string, to: LeaseState, stamp: Time, now: Time, x: string)
    requires Idle(s, x) && id in s.leases && to != Active
    ensures Idle(EndAndHandOff(s, id, to, stamp, now), x)
  {
    var e := End(s, id, to, stamp);
    forall o, w | w in Queue(e, o) ensures w.session != x {
      assert w in Queue(s, o);
    }
    TrySatisfyKeepsIdle(e, s.leases[id].resource, now, x);
  }

  lemma {:induction false} VisitsKeepIdle(s: State, c: Criterion, order: seq<string>, stamp: Time, now: Time, x: string)
    requires Idle(s, x)
    ensures Idle(Visits(s, c, order, stamp, now), x)
  {
    if order != [] {
      var p, id := order[..|order| - 1], order[|order| - 1];
      var v := Visits(s, c, p, stamp, now);
      VisitsKeepIdle(s, c, p, stamp, now, x);
      if Doomed(v, c, id) { HandOffKeepsIdle(v, id, EndState(c), stamp, now, x); }
    }
  }

  lemma {:induction false} SurvivorsSubset(q: seq<Waiter>, session: string)
    ensures forall w | w in Survivors(q, session) :: w in q
  {
    if q != [] { SurvivorsSubset(q[..|q| - 1], session); }
  }

  lemma DropKeepsIdle(s: State, session: string, x: string)
    requires Idle(s, x)
    ensures Idle(DropWaiters(s, session), x)
  {
    forall o, w | w in Queue(DropWaiters(s, session), o) ensures w.session != x {
      SurvivorsSubset(Queue(s, o), session);
      assert w in Queue(s, o);
    }
  }

  lemma AcquireKeepsIdle(s: State, r: string, session: string, ttl: int, now: Time, x: string)
    requires Idle(s, x) && session != x
    ensures Idle(Acquire(s, r, session, ttl, now), x)
  {
    forall o, w | w in Queue(Acquire(s, r, session, ttl, now), o) ensures w.session != x {
      if w !in Queue(s, o) { assert w.session == session; }
    }
  }

  lemma {:induction false} WithoutTicketSubset(q: seq<Waiter>, ticket: nat)
    ensures forall w | w in WithoutTicket(q, ticket) :: w in q
  {
    if q != [] { WithoutTicketSubset(q[1..], ticket); }
  }

  lemma CancelKeepsIdle(s: State, r: string, ticket: nat, x: string)
    requires Idle(s, x)
    ensures Idle(Cancel(s, r, ticket), x)
  {
    forall o, w | w in Queue(Cancel(s, r, ticket), o) ensures w.session != x {
      WithoutTicketSubset(Queue(s, r), ticket);
      assert w in Queue(s, o);
    }
  }

  lemma StepKeepsIdle(s: State, a: Action, x: string)
    requires Idle(s, x) && !(a.DoAcquire? && a.session == x)
    ensures Idle(Step(s, a), x)
  {
    match a
    case DoAcquire(r, session, ttl, now) => AcquireKeepsIdle(s, r, session, ttl, now, x);
    case DoCancel(r, ticket) => CancelKeepsIdle(s, r, ticket, x);
    case DoRelease(id, now) => if IsActive(s, id) { HandOffKeepsIdle(s, id, Released, now, now, x); }
    case DoExpireNow(id, now) => if IsActive(s, id) { HandOffKeepsIdle(s, id, Expired, now, now, x); }
    case DoReleaseAll(session, order, now) =>
      VisitsKeepIdle(s, OwnedBy(session), order, now, now, x);
      DropKeepsIdle(Visits(s, OwnedBy(session), order, now, now), session, x);
    case DoSweep(cutoff, order, now) => VisitsKeepIdle(s, Overdue(cutoff), order, cutoff, now, x);
    case DoReapOrphans(live, order, now) => VisitsKeepIdle(s, Unowned(live), order, now, now, x);
    case DoRenew(id, ttl, now) => SameQueuesIdle(s, Renew(s, id, ttl, now), x);
    case DoEnsure(r, mode) => SameQueuesIdle(s, EnsureResource(s, r, mode), x);
  }

  /** A session without leases and requests stays so over any run in which it does not ask again:
      no hand-off ever revives it. */
  lemma {:induction false} StaysIdle(s: State, actions: seq<Action>, x: string)
    requires Idle(s, x) && forall a | a in actions :: !(a.DoAcquire? && a.session == x)
    ensures Idle(Run(s, actions), x)
  {
    if actions != [] {
      var p := actions[..|actions| - 1];
      StaysIdle(s, p, x);
      StepKeepsIdle(Run(s, p), actions[|actions| - 1], x);
    }
  }

  // A manager without waiters, as after a restart

  /** The table after the loop has visited `seen` and had nobody to hand a slot to. */
  function EndedTable(leases: Leases, c: Criterion, seen: set<string>, stamp: Time): Leases {
    map id | id in leases ::
      if id in seen && leases[id].state == Active && Matches(c, leases[id].session, leases[id].expires)
      then EndedLease(leases[id], EndState(c), stamp) else leases[id]
  }

  lemma EndedTableSkip(leases: Leases, c: Criterion, seen: set<string>, stamp: Time, s: State, id: string)
    requires s.leases == EndedTable(leases, c, seen, stamp) && !Doomed(s, c, id)
    ensures s.leases == EndedTable(leases, c, seen + {id}, stamp)
  {
  }

  lemma EndedTableStep(leases: Leases, c: Criterion, seen: set<string>, stamp: Time, s: State, id: string)
    requires s.leases == EndedTable(leases, c, seen, stamp) && Doomed(s, c, id)
    ensures s.leases[id := EndedLease(s.leases[id], EndState(c), stamp)] == EndedTable(leases, c, seen + {id}, stamp)
  {
  }

  lemma {:induction false} LoopWithoutWaiters(s: State, c: Criterion, order: seq<string>, stamp: Time, now: Time)
    requires s.queues == map[]
    ensures var s' := Visits(s, c, order, stamp, now);
            && s'.leases == EndedTable(s.leases, c, Elems(order), stamp)
            && s' == s.(leases := s'.leases, holders := s'.holders)
  {
    if order == [] {
      assert EndedTable(s.leases, c, {}, stamp) == s.leases;
      assert Elems(order) == {};
    } else {
      var p, id := order[..|order| - 1], order[|order| - 1];
      LoopWithoutWaiters(s, c, p, stamp, now);
      var v := Visits(s, c, p, stamp, now);
      assert order == p + [id];
      assert Elems(order) == Elems(p) + {id};
      if Doomed(v, c, id) {
        EndedTableStep(s.leases, c, Elems(p), stamp, v, id);
      } else {
        EndedTableSkip(s.leases, c, Elems(p), stamp, v, id);
      }
    }
  }

  lemma DropNobody(s: State, session: string)
    requires s.queues == map[]
    ensures DropWaiters(s, session) == s
  {
    var s' := DropWaiters(s, session);
    assert TicketsOf(s, session) == {};
    assert s'.queues == s.queues;
    assert s'.outcomes == s.outcomes;
  }

  /** The whole table is visited, so every match is ended and nothing else changes. */
  lemma AllMatchesEnded(s: State, c: Criterion, order: seq<string>, stamp: Time, now: Time)
    requires s.queues == map[] && LegalOrder(s, c, order, stamp, now)
    ensures var s' := Visits(s, c, order, stamp, now);
            && s'.leases == EndedTable(s.leases, c, s.leases.Keys, stamp)
            && s' == s.(leases := s'.leases, holders := s'.holders)
  {
    LoopWithoutWaiters(s, c, order, stamp, now);
    EndedTableWhole(s.leases, c, Elems(order), stamp);
  }

  lemma EndedTableWhole(leases: Leases, c: Criterion, seen: set<string>, stamp: Time)
    requires leases.Keys <= seen
    ensures EndedTable(leases, c, seen, stamp) == EndedTable(leases, c, leases.Keys, stamp)
  {
  }
}
