/** What holds between any two states of a run: lifecycle of leases and requests, arrival order,
    and a bound on how long a waiter can be passed over. */
module LeaseRuns {
  import opened Options
  import opened LeaseModel
  import opened LeaseInvariant
  import opened LeaseHandoff
  import Ids

  /** A lease keeps its parties; once ended it never changes again. */
  predicate LeaseEvolves(l: Lease, l': Lease) {
    && l'.id == l.id && l'.resource == l.resource && l'.session == l.session && l'.created == l.created
    && (l.state != Active ==> l' == l)
  }

  ghost predicate TablesEvolve(s: State, s': State) {
    && (forall r | r in s.res :: r in s'.res && s'.res[r] == s.res[r])
    && (forall id | id in s.leases :: id in s'.leases && LeaseEvolves(s.leases[id], s'.leases[id]))
    && s.lastId <= s'.lastId
    && (forall id | id in s'.leases && id !in s.leases :: Ids.LeaseSeq(id) > s.lastId)
  }

  ghost predicate RequestsEvolve(s: State, s': State) {
    && s.asked <= s'.asked
    && (forall t | t in s.outcomes :: t in s'.outcomes && s'.outcomes[t] == s.outcomes[t])
    && (forall r, w | w in Queue(s', r) && w.ticket < |s.asked| :: w in Queue(s, r))
  }

  /** The leases on r that have come to an end. */
  function Ended(s: State, r: string): set<string> {
    EndedIn(s.leases, r)
  }

  function EndedIn(leases: Leases, r: string): set<string> {
    set id | id in leases && leases[id].state != Active && leases[id].resource == r
  }

  /** A waiter's place in r's queue never grows, and each lease on r that ended moved it up by one. */
  ghost predicate MovesUp(s: State, s': State, r: string) {
    forall i, j | 0 <= i < |Queue(s, r)| && 0 <= j < |Queue(s', r)|
                  && Queue(s, r)[i].ticket == Queue(s', r)[j].ticket ::
      j + |Ended(s', r)| <= i + |Ended(s, r)|
  }

  ghost predicate Evolves(s: State, s': State) {
    TablesEvolve(s, s') && RequestsEvolve(s, s') && forall r :: MovesUp(s, s', r)
  }

  lemma EvolvesRefl(s: State)
    requires QueuesOk(s.queues, s.asked, s.outcomes)
    ensures Evolves(s, s)
  {
    forall r ensures MovesUp(s, s, r) {
      assert Increasing(QueueOf(s.queues, r));
    }
  }

  lemma TablesTrans(s: State, t: State, u: State)
    requires TablesEvolve(s, t) && TablesEvolve(t, u)
    ensures TablesEvolve(s, u)
  {
  }

  lemma RequestsTrans(s: State, t: State, u: State)
    requires RequestsEvolve(s, t) && RequestsEvolve(t, u)
    ensures RequestsEvolve(s, u)
  {
  }

  lemma MovesUpTrans(s: State, t: State, u: State, r: string)
    requires QueuesOk(s.queues, s.asked, s.outcomes) && QueuesOk(t.queues, t.asked, t.outcomes)
    requires QueuesOk(u.queues, u.asked, u.outcomes)
    requires RequestsEvolve(s, t) && RequestsEvolve(t, u) && MovesUp(s, t, r) && MovesUp(t, u, r)
    ensures MovesUp(s, u, r)
  {
    forall i, k | 0 <= i < |Queue(s, r)| && 0 <= k < |Queue(u, r)|
                  && Queue(s, r)[i].ticket == Queue(u, r)[k].ticket
      ensures k + |Ended(u, r)| <= i + |Ended(s, r)|
    {
      var w := Queue(u, r)[k];
      assert Queue(s, r)[i] in QueueOf(s.queues, r);
      assert Open(s.asked, s.outcomes, r, Queue(s, r)[i]);
      assert w in Queue(u, r);
      assert w in Queue(t, r);
      var j :| 0 <= j < |Queue(t, r)| && Queue(t, r)[j] == w;
    }
  }

  lemma EvolvesTrans(s: State, t: State, u: State)
    requires Inv(s) && Inv(t) && Inv(u) && Evolves(s, t) && Evolves(t, u)
    ensures Evolves(s, u)
  {
    TablesTrans(s, t, u);
    RequestsTrans(s, t, u);
    forall r ensures MovesUp(s, u, r) {
      assert MovesUp(s, t, r) && MovesUp(t, u, r);
      MovesUpTrans(s, t, u, r);
    }
  }

  // Every step evolves the state

  /** In an increasing queue drawn from another, a waiter stands no further back. */
  lemma {:induction false} ThinnedIndex(q: seq<Waiter>, q': seq<Waiter>, i: nat, j: nat)
    requires Increasing(q) && Increasing(q') && forall w | w in q' :: w in q
    requires i < |q| && j < |q'| && q[i].ticket == q'[j].ticket
    ensures j <= i
    decreases j
  {
    if j > 0 {
      var w := q'[j - 1];
      assert w in q';
      var k :| 0 <= k < |q| && q[k] == w;
      assert q'[j - 1].ticket < q'[j].ticket;
      ThinnedIndex(q, q', k, j - 1);
    }
  }

  lemma ThinnerMovesUp(s: State, s': State, r: string)
    requires QueuesOk(s.queues, s.asked, s.outcomes) && Thinner(s.queues, s'.queues)
    requires Ended(s', r) == Ended(s, r)
    ensures MovesUp(s, s', r)
  {
    assert Increasing(QueueOf(s.queues, r)) && Increasing(QueueOf(s'.queues, r));
    forall i, j | 0 <= i < |Queue(s, r)| && 0 <= j < |Queue(s', r)|
                  && Queue(s, r)[i].ticket == Queue(s', r)[j].ticket
      ensures j <= i
    {
      ThinnedIndex(Queue(s, r), Queue(s', r), i, j);
    }
  }

  lemma HandOffTables(s: State, id: string, to: LeaseState, stamp: Time, now: Time, newId: string, s': State)
    requires id in s.leases && s.leases[id].state == Active && s.lastId <= s'.lastId
    requires HandsOff(s, id, to, stamp, now, newId, s') && Ids.LeaseSeq(newId) > s.lastId
    ensures TablesEvolve(s, s')
  {
  }

  lemma HandOffRequests(s: State, id: string, to: LeaseState, stamp: Time, now: Time, newId: string, s': State)
    requires id in s.leases
    requires HandsOff(s, id, to, stamp, now, newId, s')
    ensures RequestsEvolve(s, s')
  {
    forall r, w | w in Queue(s', r) ensures w in Queue(s, r) {}
  }

  lemma EndingCounts(leases: Leases, id: string, e: Lease, r: string)
    requires id in leases && leases[id].state == Active && e.state != Active && e.resource == leases[id].resource
    ensures |EndedIn(leases[id := e], r)| == |EndedIn(leases, r)| + if e.resource == r then 1 else 0
  {
    if e.resource == r {
      assert EndedIn(leases[id := e], r) == EndedIn(leases, r) + {id};
    } else {
      assert EndedIn(leases[id := e], r) == EndedIn(leases, r);
    }
  }

  lemma AddingDoesNotCount(leases: Leases, l: Lease, r: string)
    requires l.state == Active && (l.id in leases ==> leases[l.id].state == Active)
    ensures EndedIn(leases[l.id := l], r) == EndedIn(leases, r)
  {
  }

  lemma HandOffEnded(s: State, id: string, to: LeaseState, stamp: Time, now: Time, newId: string, s': State, r: string)
    requires id in s.leases && s.leases[id].state == Active && to != Active
    requires HandsOff(s, id, to, stamp, now, newId, s')
    ensures |Ended(s', r)| == |Ended(s, r)| + if s.leases[id].resource == r then 1 else 0
  {
    var e := EndedLease(s.leases[id], to, stamp);
    EndingCounts(s.leases, id, e, r);
    var q := Queue(s, s.leases[id].resource);
    if q != [] {
      AddingDoesNotCount(s.leases[id := e], HandedOver(newId, s.leases[id].resource, q[0], now), r);
    }
  }

  lemma HandOffMovesUp(s: State, id: string, to: LeaseState, stamp: Time, now: Time, newId: string, s': State,
                       r: string)
    requires id in s.leases && s.leases[id].state == Active && to != Active
    requires HandsOff(s, id, to, stamp, now, newId, s') && Increasing(Queue(s, r))
    ensures MovesUp(s, s', r)
  {
    HandOffEnded(s, id, to, stamp, now, newId, s', r);
    if s.leases[id].resource == r && Queue(s, r) != [] {
      assert forall j | 0 <= j < |Queue(s', r)| :: Queue(s', r)[j] == Queue(s, r)[j + 1];
    } else {
      assert Queue(s', r) == Queue(s, r);
    }
  }

  lemma EndAndHandOffEvolves(s: State, id: string, to: LeaseState, stamp: Time, now: Time)
    requires Inv(s) && IsActive(s, id) && to != Active
    ensures Evolves(s, EndAndHandOff(s, id, to, stamp, now))
  {
    var s' := EndAndHandOff(s, id, to, stamp, now);
    HandOffEffect(s, id, to, stamp, now);
    FreshId(s);
    HandOffTables(s, id, to, stamp, now, NewId(s), s');
    HandOffRequests(s, id, to, stamp, now, NewId(s), s');
    forall r ensures MovesUp(s, s', r) {
      assert Increasing(QueueOf(s.queues, r));
      HandOffMovesUp(s, id, to, stamp, now, NewId(s), s', r);
    }
  }

  lemma {:induction false} VisitsEvolve(s: State, c: Criterion, order: seq<string>, stamp: Time, now: Time)
    requires Inv(s)
    ensures Evolves(s, Visits(s, c, order, stamp, now))
  {
    if order == [] {
      EvolvesRefl(s);
    } else {
      var p, id := order[..|order| - 1], order[|order| - 1];
      var v := Visits(s, c, p, stamp, now);
      VisitsEvolve(s, c, p, stamp, now);
      VisitsKeepInv(s, c, p, stamp, now);
      if Doomed(v, c, id) {
        VisitKeepsInv(v, c, id, stamp, now);
        EndAndHandOffEvolves(v, id, EndState(c), stamp, now);
        EvolvesTrans(s, v, Visit(v, c, id, stamp, now));
      }
    }
  }

  /** A waiter in a queue stands for an open request. */
  lemma QueuedIsOpen(s: State, r: string)
    requires QueuesOk(s.queues, s.asked, s.outcomes)
    ensures forall t: nat | Queued(Queue(s, r), t) :: t < |s.asked| && t !in s.outcomes && s.asked[t].resource == r
    ensures forall w | w in Queue(s, r) :: w.ticket < |s.asked|
  {
    forall t: nat | Queued(Queue(s, r), t) ensures t < |s.asked| && t !in s.outcomes && s.asked[t].resource == r {
      var i :| 0 <= i < |Queue(s, r)| && Queue(s, r)[i].ticket == t;
      assert Queue(s, r)[i] in QueueOf(s.queues, r);
      assert Open(s.asked, s.outcomes, r, Queue(s, r)[i]);
    }
    forall w | w in Queue(s, r) ensures w.ticket < |s.asked| {
      assert Open(s.asked, s.outcomes, r, w);
    }
  }

  lemma EnqueueEvolves(s: State, r: string, session: string, s': State)
    requires Inv(s)
    requires s' == s.(queues := s.queues[r := Queue(s, r) + [Waiter(|s.asked|, session)]],
                      asked := s.asked + [Request(r, session)])
    ensures Evolves(s, s')
  {
    forall o ensures MovesUp(s, s', o) {
      assert Ended(s', o) == Ended(s, o);
      assert Increasing(QueueOf(s.queues, o));
      QueuedIsOpen(s, o);
    }
  }

  lemma GrantEvolves(s: State, r: string, session: string, expires: Option<Time>, now: Time)
    requires Inv(s)
    ensures Evolves(s, Grant(s, r, session, expires, now))
  {
    var s' := Grant(s, r, session, expires, now);
    FreshId(s);
    forall o ensures Ended(s', o) == Ended(s, o) {
      AddingDoesNotCount(s.leases, Lease(NewId(s), r, session, now, expires, Active, None), o);
    }
    UnqueuedEvolves(s, s');
  }

  lemma AcquireEvolves(s: State, r: string, session: string, ttl: int, now: Time)
    requires Inv(s)
    ensures Evolves(s, Acquire(s, r, session, ttl, now))
  {
    match AcquireAnswer(s, r)
    case UnknownResource => EvolvesRefl(s);
    case Immediately(_) => GrantEvolves(s, r, session, Deadline(ttl, now), now);
    case MustWait(_) => EnqueueEvolves(s, r, session, Acquire(s, r, session, ttl, now));
  }

  lemma ThinnerEvolves(s: State, s': State)
    requires QueuesOk(s.queues, s.asked, s.outcomes) && Thinner(s.queues, s'.queues)
    requires s'.res == s.res && s'.leases == s.leases && s'.lastId == s.lastId && s'.asked == s.asked
    requires forall t | t in s.outcomes :: t in s'.outcomes && s'.outcomes[t] == s.outcomes[t]
    ensures Evolves(s, s')
  {
    forall r ensures MovesUp(s, s', r) {
      assert Ended(s', r) == Ended(s, r);
      ThinnerMovesUp(s, s', r);
    }
  }

  lemma UnqueuedEvolves(s: State, s': State)
    requires QueuesOk(s.queues, s.asked, s.outcomes) && TablesEvolve(s, s')
    requires s'.queues == s.queues && s'.asked == s.asked && s'.outcomes == s.outcomes
    requires forall r :: Ended(s', r) == Ended(s, r)
    ensures Evolves(s, s')
  {
    forall r ensures MovesUp(s, s', r) {
      assert Increasing(QueueOf(s.queues, r));
    }
  }

  lemma ReleaseAllEvolves(s: State, session: string, order: seq<string>, now: Time)
    requires Inv(s)
    ensures Evolves(s, ReleaseAll(s, session, order, now))
  {
    var v := Visits(s, OwnedBy(session), order, now, now);
    VisitsEvolve(s, OwnedBy(session), order, now, now);
    VisitsKeepInv(s, OwnedBy(session), order, now, now);
    WithoutSessionThins(v.queues, session);
    DropEffect(v, session);
    ThinnerEvolves(v, DropWaiters(v, session));
    DropKeepsInv(v, session);
    EvolvesTrans(s, v, DropWaiters(v, session));
  }

  lemma RenewEvolves(s: State, id: string, ttl: int, now: Time)
    requires Inv(s)
    ensures Evolves(s, Renew(s, id, ttl, now))
  {
    if ttl > 0 && IsActive(s, id) {
      var l := s.leases[id].(expires := Some(now + ttl));
      assert l.id == id;
      forall r ensures EndedIn(s.leases[id := l], r) == EndedIn(s.leases, r) {
        AddingDoesNotCount(s.leases, l, r);
      }
    }
    UnqueuedEvolves(s, Renew(s, id, ttl, now));
  }

  lemma EnsureEvolves(s: State, r: string, mode: LeaseMode)
    requires QueuesOk(s.queues, s.asked, s.outcomes)
    ensures Evolves(s, EnsureResource(s, r, mode))
  {
    if r in s.res {
      EvolvesRefl(s);
    } else {
      var s' := EnsureResource(s, r, mode);
      forall o ensures Ended(s', o) == Ended(s, o) {}
      UnqueuedEvolves(s, s');
    }
  }

  lemma CancelEvolves(s: State, r: string, ticket: nat)
    requires Inv(s)
    ensures Evolves(s, Cancel(s, r, ticket))
  {
    if Queued(Queue(s, r), ticket) {
      CancelThins(s, r, ticket);
      ThinnerEvolves(s, Cancel(s, r, ticket));
    } else {
      EvolvesRefl(s);
    }
  }

  lemma ReleaseEvolves(s: State, id: string, now: Time)
    requires Inv(s)
    ensures Evolves(s, Release(s, id, now))
  {
    if IsActive(s, id) { EndAndHandOffEvolves(s, id, Released, now, now); } else { EvolvesRefl(s); }
  }

  lemma ExpireEvolves(s: State, id: string, now: Time)
    requires Inv(s)
    ensures Evolves(s, ExpireNow(s, id, now))
  {
    if IsActive(s, id) { EndAndHandOffEvolves(s, id, Expired, now, now); } else { EvolvesRefl(s); }
  }

  lemma LoopEvolves(s: State, a: Action)
    requires Inv(s) && OverTheTable(a)
    ensures Evolves(s, Step(s, a))
  {
    if a.DoReleaseAll? {
      ReleaseAllEvolves(s, a.session, a.order, a.now);
    } else if a.DoSweep? {
      VisitsEvolve(s, Overdue(a.cutoff), a.order, a.cutoff, a.now);
    } else {
      VisitsEvolve(s, Unowned(a.live), a.order, a.now, a.now);
    }
  }

  lemma StepEvolves(s: State, a: Action)
    requires Inv(s)
    ensures Evolves(s, Step(s, a))
  {
    if OverTheTable(a) {
      LoopEvolves(s, a);
    } else {
      match a
      case DoAcquire(r, session, ttl, now) => AcquireEvolves(s, r, session, ttl, now);
      case DoCancel(r, ticket) => CancelEvolves(s, r, ticket);
      case DoRelease(id, now) => ReleaseEvolves(s, id, now);
      case DoRenew(id, ttl, now) => RenewEvolves(s, id, ttl, now);
      case DoExpireNow(id, now) => ExpireEvolves(s, id, now);
      case DoEnsure(r, mode) => EnsureEvolves(s, r, mode);
    }
  }

  lemma {:induction false} RunEvolves(s: State, actions: seq<Action>)
    requires Inv(s)
    ensures Evolves(s, Run(s, actions))
  {
    if actions == [] {
      EvolvesRefl(s);
    } else {
      var p := actions[..|actions| - 1];
      RunEvolves(s, p);
      RunKeepsInv(s, p);
      RunKeepsInv(s, actions);
      StepEvolves(Run(s, p), actions[|actions| - 1]);
      EvolvesTrans(s, Run(s, p), Run(s, actions));
    }
  }

  // Headlines

  /** First come, first served, over whole runs: of two requests for one resource that both had to queue and were both
      granted, the one that arrived first got its lease first, and a granted one never arrived after
      one that still waits. */
  lemma FirstComeFirstServed(s0: State, actions: seq<Action>, t: nat, u: nat)
    requires Inv(s0)
    requires var s := Run(s0, actions);
             t < u < |s.asked| && s.asked[t].resource == s.asked[u].resource && WasGranted(s.outcomes, u)
    ensures var s := Run(s0, actions);
            && (WasGranted(s.outcomes, t) ==>
                  Ids.LeaseSeq(s.outcomes[t].lease) < Ids.LeaseSeq(s.outcomes[u].lease))
            && !Queued(Queue(s, s.asked[t].resource), t)
  {
    RunKeepsInv(s0, actions);
    var s := Run(s0, actions);
    assert forall w | w in QueueOf(s.queues, s.asked[t].resource) :: u < w.ticket;
  }

  /** The fast path of Acquire never overtakes: it grants only when nobody waits for the resource. */
  lemma FastPathOvertakesNobody(s: State, r: string)
    requires Inv(s) && AcquireAnswer(s, r).Immediately?
    ensures Queue(s, r) == []
  {
    assert NoIdleSlot(s.res, s.holders, s.queues, r);
  }

  /** The waiter at place i of r's queue is out of the queue as soon as more than i further leases on r have
      ended, whatever else the run did. */
  lemma OutOfTheQueue(s: State, actions: seq<Action>, r: string, i: nat)
    requires Inv(s) && i < |Queue(s, r)|
    requires |Ended(Run(s, actions), r)| > i + |Ended(s, r)|
    ensures !Queued(Queue(Run(s, actions), r), Queue(s, r)[i].ticket)
  {
    RunEvolves(s, actions);
    assert MovesUp(s, Run(s, actions), r);
  }

  /** A settled request stays settled the same way and is in no queue: its channel is closed once. */
  lemma SettledForGood(s: State, actions: seq<Action>, t: nat)
    requires Inv(s) && t in s.outcomes
    ensures var s' := Run(s, actions);
            !s'.panicked && t in s'.outcomes && s'.outcomes[t] == s.outcomes[t]
            && forall r :: !Queued(Queue(s', r), t)
  {
    RunEvolves(s, actions);
    RunKeepsInv(s, actions);
    var s' := Run(s, actions);
    forall r ensures !Queued(Queue(s', r), t) {
      QueuedIsOpen(s', r);
    }
  }

  /** A cancel that comes after the grant changes nothing: the lease stays with the session that asked. */
  lemma CancelAfterGrant(s: State, t: nat)
    requires Inv(s) && WasGranted(s.outcomes, t)
    ensures var id := s.outcomes[t].lease;
            && t < |s.asked| && Cancel(s, s.asked[t].resource, t) == s
            && id in s.leases && s.leases[id].session == s.asked[t].session
            && s.leases[id].resource == s.asked[t].resource
  {
    SettledForGood(s, [], t);
    assert Run(s, []) == s;
    assert GrantFits(s.leases, s.asked[t], s.outcomes[t].lease);
  }

  /** Lease ids are never reused, and an ended lease is never revived or altered. */
  lemma LeaseHistory(s: State, actions: seq<Action>)
    requires Inv(s)
    ensures var s' := Run(s, actions);
            && (forall id | id in s.leases :: id in s'.leases && LeaseEvolves(s.leases[id], s'.leases[id]))
            && NewId(s') !in s.leases && NewId(s') !in s'.leases
  {
    RunEvolves(s, actions);
    RunKeepsInv(s, actions);
    FreshId(Run(s, actions));
  }

  // A session queued behind itself

  /** One session asks twice for the same exclusive resource. */
  function AskedTwice(r: string, session: string, now: Time): State {
    Run(Start(map[r := Resource(Exclusive, 0)]), [DoAcquire(r, session, 0, now), DoAcquire(r, session, 0, now)])
  }

  lemma AskedTwiceRuns(r: string, session: string, now: Time)
    ensures var s0 := Start(map[r := Resource(Exclusive, 0)]);
            AskedTwice(r, session, now) == Acquire(Acquire(s0, r, session, 0, now), r, session, 0, now)
    ensures Inv(AskedTwice(r, session, now))
  {
    var s0 := Start(map[r := Resource(Exclusive, 0)]);
    var a := DoAcquire(r, session, 0, now);
    assert [a, a][..1] == [a] && [a][..0] == [];
    assert Run(s0, [a]) == Acquire(s0, r, session, 0, now);
    StartInv(map[r := Resource(Exclusive, 0)]);
    RunKeepsInv(s0, [a, a]);
  }

  lemma AskedTwiceIs(r: string, session: string, now: Time)
    ensures var s := AskedTwice(r, session, now);
            && Inv(s) && Queue(s, r) == [Waiter(0, session)]
            && exists id :: id in DoomedOn(s, OwnedBy(session), r)
  {
    var s0 := Start(map[r := Resource(Exclusive, 0)]);
    var s1 := Acquire(s0, r, session, 0, now);
    AskedTwiceRuns(r, session, now);
    assert Holders(s0, r) == {} && Holders(s1, r) == {NewId(s0)};
    assert NewId(s0) in DoomedOn(AskedTwice(r, session, now), OwnedBy(session), r);
  }

  /** Such a session is re-granted a lease while it is being released: the condition of ReleaseAllClearsIff
      does fail in reachable states. */
  lemma RematchHappens(r: string, session: string, now: Time)
    ensures var s := AskedTwice(r, session, now);
            && Inv(s) && !NoRematch(s, OwnedBy(session))
            && exists order :: LegalOrder(s, OwnedBy(session), order, now, now)
                               && !HoldsNothing(ReleaseAll(s, session, order, now), session)
  {
    var s := AskedTwice(r, session, now);
    AskedTwiceIs(r, session, now);
    assert |DoomedOn(s, OwnedBy(session), r)| >= 1;
    assert Matches(OwnedBy(session), Queue(s, r)[0].session, None);
    ReleaseAllClearsIff(s, session, now);
  }

  // Deadlines

  predicate Renews(a: Action, id: string) { a.DoRenew? && a.id == id }

  predicate SameDeadline(s: State, s': State, id: string) {
    id in s.leases ==> id in s'.leases && s'.leases[id].expires == s.leases[id].expires
  }

  lemma HandOffKeepsDeadline(s: State, k: string, to: LeaseState, stamp: Time, now: Time, id: string)
    requires Inv(s) && to != Active
    ensures IsActive(s, k) ==> SameDeadline(s, EndAndHandOff(s, k, to, stamp, now), id)
  {
    if IsActive(s, k) { HandOffEffect(s, k, to, stamp, now); }
  }

  lemma {:induction false} VisitsKeepDeadline(s: State, c: Criterion, order: seq<string>, stamp: Time, now: Time,
                                              id: string)
    requires Inv(s)
    ensures SameDeadline(s, Visits(s, c, order, stamp, now), id)
  {
    if order != [] {
      var p, k := order[..|order| - 1], order[|order| - 1];
      var v := Visits(s, c, p, stamp, now);
      VisitsKeepDeadline(s, c, p, stamp, now, id);
      VisitsKeepInv(s, c, p, stamp, now);
      HandOffKeepsDeadline(v, k, EndState(c), stamp, now, id);
    }
  }

  lemma AcquireKeepsDeadline(s: State, r: string, session: string, ttl: int, now: Time, id: string)
    requires Inv(s)
    ensures SameDeadline(s, Acquire(s, r, session, ttl, now), id)
  {
    FreshId(s);
  }

  lemma LoopKeepsDeadline(s: State, a: Action, id: string)
    requires Inv(s) && OverTheTable(a)
    ensures SameDeadline(s, Step(s, a), id)
  {
    if a.DoReleaseAll? {
      VisitsKeepDeadline(s, OwnedBy(a.session), a.order, a.now, a.now, id);
    } else if a.DoSweep? {
      VisitsKeepDeadline(s, Overdue(a.cutoff), a.order, a.cutoff, a.now, id);
    } else {
      VisitsKeepDeadline(s, Unowned(a.live), a.order, a.now, a.now, id);
    }
  }

  lemma OneKeepsDeadline(s: State, k: string, now: Time, id: string)
    requires Inv(s)
    ensures SameDeadline(s, Release(s, k, now), id) && SameDeadline(s, ExpireNow(s, k, now), id)
  {
    HandOffKeepsDeadline(s, k, Released, now, now, id);
    HandOffKeepsDeadline(s, k, Expired, now, now, id);
  }

  lemma RenewKeepsDeadline(s: State, k: string, ttl: int, now: Time, id: string)
    requires k != id
    ensures SameDeadline(s, Renew(s, k, ttl, now), id)
  {
  }

  lemma StepKeepsDeadline(s: State, a: Action, id: string)
    requires Inv(s) && !Renews(a, id)
    ensures SameDeadline(s, Step(s, a), id)
  {
    if OverTheTable(a) {
      LoopKeepsDeadline(s, a, id);
    } else {
      match a
      case DoAcquire(r, session, ttl, now) => AcquireKeepsDeadline(s, r, session, ttl, now, id);
      case DoRelease(k, now) => OneKeepsDeadline(s, k, now, id);
      case DoExpireNow(k, now) => OneKeepsDeadline(s, k, now, id);
      case DoCancel(_, _) =>
      case DoRenew(k, ttl, now) => RenewKeepsDeadline(s, k, ttl, now, id);
      case DoEnsure(_, _) =>
    }
  }

  lemma {:induction false} RunKeepsDeadline(s: State, actions: seq<Action>, id: string)
    requires Inv(s) && forall a | a in actions :: !Renews(a, id)
    ensures SameDeadline(s, Run(s, actions), id)
  {
    if actions != [] {
      var p := actions[..|actions| - 1];
      RunKeepsDeadline(s, p, id);
      RunKeepsInv(s, p);
      RunEvolves(s, p);
      StepKeepsDeadline(Run(s, p), actions[|actions| - 1], id);
    }
  }

  /** A lease without a deadline is never expired by a sweep unless somebody renews it first. */
  lemma NoDeadlineNoSweep(s: State, actions: seq<Action>, id: string, cutoff: Time, order: seq<string>, now: Time)
    requires Inv(s) && id in s.leases && s.leases[id].expires.None?
    requires forall a | a in actions :: !Renews(a, id)
    requires LegalOrder(Run(s, actions), Overdue(cutoff), order, cutoff, now)
    ensures var s' := Run(s, actions);
            id in s'.leases && id in Sweep(s', cutoff, order, now).leases
            && Sweep(s', cutoff, order, now).leases[id] == s'.leases[id]
  {
    RunEvolves(s, actions);
    RunKeepsInv(s, actions);
    RunKeepsDeadline(s, actions, id);
    SweepSpares(Run(s, actions), cutoff, order, now, id);
  }

  lemma SweepSpares(s: State, cutoff: Time, order: seq<string>, now: Time, id: string)
    requires Inv(s) && LegalOrder(s, Overdue(cutoff), order, cutoff, now)
    requires id in s.leases && s.leases[id].expires.None?
    ensures id in Sweep(s, cutoff, order, now).leases && Sweep(s, cutoff, order, now).leases[id] == s.leases[id]
  {
    SweepExact(s, cutoff, order, now);
    assert !Doomed(s, Overdue(cutoff), id);
  }

  lemma {:induction false} RunAppend(s: State, a: seq<Action>, b: seq<Action>)
    ensures Run(s, a + b) == Run(Run(s, a), b)
  {
    if b == [] {
      assert a + b == a;
    } else {
      RunAppend(s, a, b[..|b| - 1]);
      assert (a + b)[..|a + b| - 1] == a + b[..|b| - 1];
    }
  }
}
