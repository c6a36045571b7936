/** The inductive invariant of the lease manager, and that every step keeps it.
    Each part of the invariant names the few fields it depends on, so a step has to be
    looked at only by the parts whose fields it touches. */
module LeaseInvariant {
  import opened Options
  import opened LeaseModel
  import Ids

  type Leases = map<string, Lease>
  type Index = map<string, set<string>>
  type Queues = map<string, seq<Waiter>>
  type Outcomes = map<nat, Outcome>

  predicate ActiveOn(leases: Leases, r: string, id: string) {
    id in leases && leases[id].state == Active && leases[id].resource == r
  }

  ghost predicate IdsOk(res: map<string, Resource>, leases: Leases, lastId: nat) {
    && (forall id | id in leases :: leases[id].id == id && leases[id].resource in res)
    && (forall id {:trigger Ids.LeaseSeq(id)} | id in leases :: Ids.LeaseSeq(id) <= lastId)
    && (lastId == 0 || exists id :: id in leases && Ids.LeaseSeq(id) == lastId)
  }

  /** The holders index is exactly the active leases, resource by resource. */
  ghost predicate HoldersExact(leases: Leases, holders: Index) {
    forall r, id :: id in HoldersOf(holders, r) <==> ActiveOn(leases, r, id)
  }

  ghost predicate WithinCapacity(res: map<string, Resource>, holders: Index) {
    forall r | r in res :: |HoldersOf(holders, r)| <= CapacityOf(res[r])
  }

  ghost predicate NoIdleSlot(res: map<string, Resource>, holders: Index, queues: Queues, r: string) {
    QueueOf(queues, r) != [] ==> r in res && |HoldersOf(holders, r)| >= CapacityOf(res[r])
  }

  /** Nobody waits while there is room. */
  ghost predicate WorkConserving(res: map<string, Resource>, holders: Index, queues: Queues) {
    forall r :: NoIdleSlot(res, holders, queues, r)
  }

  predicate Increasing(q: seq<Waiter>) {
    forall i, j | 0 <= i < j < |q| :: q[i].ticket < q[j].ticket
  }

  /** The waiter stands for an open request for r. */
  predicate Open(asked: seq<Request>, outcomes: Outcomes, r: string, w: Waiter) {
    w.ticket < |asked| && asked[w.ticket] == Request(r, w.session) && w.ticket !in outcomes
  }

  /** Queues list open requests in arrival order, each under the resource it asked for. */
  ghost predicate QueuesOk(queues: Queues, asked: seq<Request>, outcomes: Outcomes) {
    && (forall r, w | w in QueueOf(queues, r) :: Open(asked, outcomes, r, w))
    && (forall r :: Increasing(QueueOf(queues, r)))
  }

  predicate WasGranted(outcomes: Outcomes, t: nat) {
    t in outcomes && outcomes[t].Granted?
  }

  /** A granted request owns a lease on what it asked for, under the session that asked. */
  predicate GrantFits(leases: Leases, request: Request, id: string) {
    id in leases && request == Request(leases[id].resource, leases[id].session)
  }

  ghost predicate OutcomesOk(leases: Leases, asked: seq<Request>, outcomes: Outcomes) {
    && (forall t | t in outcomes :: t < |asked|)
    && (forall t: nat | WasGranted(outcomes, t) :: GrantFits(leases, asked[t], outcomes[t].lease))
  }

  /** Requests for one resource are granted in the order they arrived. */
  ghost predicate GrantedInOrder(asked: seq<Request>, outcomes: Outcomes) {
    forall t: nat, u: nat | t < u < |asked| && WasGranted(outcomes, t) && WasGranted(outcomes, u)
                            && asked[t].resource == asked[u].resource ::
      Ids.LeaseSeq(outcomes[t].lease) < Ids.LeaseSeq(outcomes[u].lease)
  }

  /** Nobody still in a queue arrived before somebody already granted the same resource. */
  ghost predicate NoneOvertaken(queues: Queues, asked: seq<Request>, outcomes: Outcomes) {
    forall t: nat, w, r | t < |asked| && WasGranted(outcomes, t) && asked[t].resource == r
                          && w in QueueOf(queues, r) :: t < w.ticket
  }

  /** Everything but work conservation, which fails for a moment between ending and handing off. */
  ghost predicate Core(s: State) {
    && IdsOk(s.res, s.leases, s.lastId)
    && HoldersExact(s.leases, s.holders)
    && WithinCapacity(s.res, s.holders)
    && QueuesOk(s.queues, s.asked, s.outcomes)
    && OutcomesOk(s.leases, s.asked, s.outcomes)
    && GrantedInOrder(s.asked, s.outcomes)
    && NoneOvertaken(s.queues, s.asked, s.outcomes)
    && !s.panicked
  }

  ghost predicate Inv(s: State) {
    Core(s) && WorkConserving(s.res, s.holders, s.queues)
  }

  lemma StartInv(res: map<string, Resource>)
    ensures Inv(Start(res))
  {
  }

  // Adding a lease

  lemma FreshId(s: State)
    requires IdsOk(s.res, s.leases, s.lastId)
    ensures NewId(s) !in s.leases && Ids.LeaseSeq(NewId(s)) == s.lastId + 1
  {
    var id, n := NewId(s), s.lastId + 1;
    Ids.LeaseSeqInvertsLeaseId(n);
    PastAll(s.res, s.leases, s.lastId, id);
  }

  lemma PastAll(res: map<string, Resource>, leases: Leases, lastId: nat, id: string)
    requires IdsOk(res, leases, lastId) && Ids.LeaseSeq(id) > lastId
    ensures id !in leases
  {
  }

  lemma AddKeepsIds(res: map<string, Resource>, leases: Leases, lastId: nat, l: Lease)
    requires IdsOk(res, leases, lastId) && l.resource in res && Ids.LeaseSeq(l.id) == lastId + 1
    ensures IdsOk(res, leases[l.id := l], lastId + 1)
  {
    assert l.id in leases[l.id := l];
  }

  lemma AddKeepsHolders(res: map<string, Resource>, leases: Leases, holders: Index, l: Lease)
    requires HoldersExact(leases, holders) && WithinCapacity(res, holders)
    requires l.id !in leases && l.state == Active
    requires l.resource in res && |HoldersOf(holders, l.resource)| < CapacityOf(res[l.resource])
    ensures var holders' := holders[l.resource := HoldersOf(holders, l.resource) + {l.id}];
            && HoldersExact(leases[l.id := l], holders') && WithinCapacity(res, holders')
            && |HoldersOf(holders', l.resource)| == |HoldersOf(holders, l.resource)| + 1
  {
    assert !ActiveOn(leases, l.resource, l.id);
    var holders' := holders[l.resource := HoldersOf(holders, l.resource) + {l.id}];
    var leases' := leases[l.id := l];
    forall o, id ensures id in HoldersOf(holders', o) <==> ActiveOn(leases', o, id) {
      assert id in HoldersOf(holders, o) <==> ActiveOn(leases, o, id);
    }
  }

  /** Leases may be added or ended as long as each keeps its resource and session. */
  predicate SameParties(leases: Leases, leases': Leases) {
    forall id | id in leases ::
      id in leases' && leases'[id].resource == leases[id].resource
      && leases'[id].session == leases[id].session
  }

  lemma OutcomesFollow(leases: Leases, leases': Leases, asked: seq<Request>, outcomes: Outcomes)
    requires OutcomesOk(leases, asked, outcomes) && SameParties(leases, leases')
    ensures OutcomesOk(leases', asked, outcomes)
  {
    forall t: nat | WasGranted(outcomes, t) ensures GrantFits(leases', asked[t], outcomes[t].lease) {
      assert GrantFits(leases, asked[t], outcomes[t].lease);
    }
  }

  lemma AddKeepsCore(s: State, l: Lease)
    requires Core(s) && l.resource in s.res && HasRoom(s, l.resource) && l.state == Active
    requires l.id !in s.leases && Ids.LeaseSeq(l.id) == s.lastId + 1
    ensures Core(AddLease(s, l).(lastId := s.lastId + 1))
    ensures |Holders(AddLease(s, l), l.resource)| == |Holders(s, l.resource)| + 1
  {
    var leases', holders' := s.leases[l.id := l], s.holders[l.resource := Holders(s, l.resource) + {l.id}];
    assert IdsOk(s.res, leases', s.lastId + 1) by { AddKeepsIds(s.res, s.leases, s.lastId, l); }
    AddKeepsHolders(s.res, s.leases, s.holders, l);
    assert OutcomesOk(leases', s.asked, s.outcomes) by { OutcomesFollow(s.leases, leases', s.asked, s.outcomes); }
    assert AddLease(s, l).leases == leases' && AddLease(s, l).holders == holders';
  }

  lemma GrantKeepsCore(s: State, r: string, session: string, expires: Option<Time>, now: Time)
    requires Core(s) && r in s.res && HasRoom(s, r)
    ensures Core(Grant(s, r, session, expires, now))
    ensures |Holders(Grant(s, r, session, expires, now), r)| == |Holders(s, r)| + 1
  {
    FreshId(s);
    AddKeepsCore(s, Lease(NewId(s), r, session, now, expires, Active, None));
  }

  // Granting the head waiter

  lemma PopKeepsQueues(queues: Queues, asked: seq<Request>, outcomes: Outcomes, r: string)
    requires QueueOf(queues, r) != []
    requires QueuesOk(queues, asked, outcomes) && NoneOvertaken(queues, asked, outcomes)
    ensures var queues' := queues[r := QueueOf(queues, r)[1..]];
            QueuesOk(queues', asked, outcomes) && NoneOvertaken(queues', asked, outcomes)
    ensures forall w | w in QueueOf(queues, r)[1..] :: QueueOf(queues, r)[0].ticket < w.ticket
  {
    var q := QueueOf(queues, r);
    var queues' := queues[r := q[1..]];
    assert Increasing(q);
    forall o ensures Increasing(QueueOf(queues', o))
             ensures forall w | w in QueueOf(queues', o) :: w in QueueOf(queues, o) {
      assert Increasing(QueueOf(queues, o));
    }
  }

  lemma SettleKeepsQueues(queues: Queues, asked: seq<Request>, outcomes: Outcomes, t: nat, o: Outcome)
    requires QueuesOk(queues, asked, outcomes) && t < |asked|
    requires forall w | w in QueueOf(queues, asked[t].resource) :: w.ticket != t
    ensures QueuesOk(queues, asked, outcomes[t := o])
  {
    forall r, w | w in QueueOf(queues, r) ensures Open(asked, outcomes[t := o], r, w) {
      assert Open(asked, outcomes, r, w);
    }
  }

  lemma GrantedKeepsOrder(queues: Queues, asked: seq<Request>, outcomes: Outcomes, t: nat, id: string)
    requires GrantedInOrder(asked, outcomes) && NoneOvertaken(queues, asked, outcomes)
    requires t < |asked| && t !in outcomes
    requires forall w | w in QueueOf(queues, asked[t].resource) :: t < w.ticket
    requires forall u: nat | WasGranted(outcomes, u) && u < |asked| && asked[u].resource == asked[t].resource ::
               u < t && Ids.LeaseSeq(outcomes[u].lease) < Ids.LeaseSeq(id)
    ensures GrantedInOrder(asked, outcomes[t := Granted(id)])
    ensures NoneOvertaken(queues, asked, outcomes[t := Granted(id)])
  {
    var outcomes' := outcomes[t := Granted(id)];
    forall u: nat ensures WasGranted(outcomes', u) <==> WasGranted(outcomes, u) || u == t {}
  }

  lemma GrantedKeepsOutcomes(leases: Leases, asked: seq<Request>, outcomes: Outcomes, t: nat, id: string)
    requires OutcomesOk(leases, asked, outcomes) && t < |asked| && GrantFits(leases, asked[t], id)
    ensures OutcomesOk(leases, asked, outcomes[t := Granted(id)])
  {
    forall u: nat | WasGranted(outcomes[t := Granted(id)], u)
      ensures GrantFits(leases, asked[u], outcomes[t := Granted(id)][u].lease)
    {
      if u != t { assert WasGranted(outcomes, u); }
    }
  }

  /** Every request for r granted so far precedes r's head waiter and holds a smaller lease number. */
  lemma GrantedBefore(s: State, r: string)
    requires Core(s) && Queue(s, r) != []
    ensures forall t: nat | WasGranted(s.outcomes, t) && t < |s.asked| && s.asked[t].resource == r ::
              t < Queue(s, r)[0].ticket && Ids.LeaseSeq(s.outcomes[t].lease) <= s.lastId
  {
    forall t: nat | WasGranted(s.outcomes, t) && t < |s.asked| && s.asked[t].resource == r
      ensures t < Queue(s, r)[0].ticket && Ids.LeaseSeq(s.outcomes[t].lease) <= s.lastId
    {
      assert Queue(s, r)[0] in Queue(s, r);
      assert GrantFits(s.leases, s.asked[t], s.outcomes[t].lease);
    }
  }

  function Pop(s: State, r: string): State
    requires Queue(s, r) != []
  {
    s.(queues := s.queues[r := Queue(s, r)[1..]])
  }

  /** Pop the head of r's queue, grant it and close its channel. */
  function GrantTo(p: State, r: string, w: Waiter, now: Time): State {
    Settle(Grant(p, r, w.session, None, now), w.ticket, Granted(NewId(p)))
  }

  function GrantHead(s: State, r: string, now: Time): State
    requires Queue(s, r) != []
  {
    GrantTo(Pop(s, r), r, Queue(s, r)[0], now)
  }

  lemma PopKeepsCore(s: State, r: string)
    requires Core(s) && Queue(s, r) != []
    ensures Core(Pop(s, r))
  {
    PopKeepsQueues(s.queues, s.asked, s.outcomes, r);
  }

  /** Closing the channel of a request that waits in no queue, with a lease that fits it. */
  lemma SettleKeepsCore(g: State, t: nat, id: string)
    requires Core(g) && t < |g.asked| && t !in g.outcomes && GrantFits(g.leases, g.asked[t], id)
    requires forall w | w in QueueOf(g.queues, g.asked[t].resource) :: t < w.ticket
    requires forall u: nat | WasGranted(g.outcomes, u) && u < |g.asked| && g.asked[u].resource == g.asked[t].resource ::
               u < t && Ids.LeaseSeq(g.outcomes[u].lease) < Ids.LeaseSeq(id)
    ensures Core(Settle(g, t, Granted(id)))
  {
    SettleKeepsQueues(g.queues, g.asked, g.outcomes, t, Granted(id));
    GrantedKeepsOrder(g.queues, g.asked, g.outcomes, t, id);
    GrantedKeepsOutcomes(g.leases, g.asked, g.outcomes, t, id);
  }

  /** The request is open, waits in no queue any more, and was asked after everyone granted r so far and
      before everyone still waiting for it. */
  ghost predicate NextInLine(p: State, r: string, session: string, t: nat) {
    && t < |p.asked| && t !in p.outcomes && p.asked[t] == Request(r, session)
    && (forall w | w in QueueOf(p.queues, r) :: t < w.ticket)
    && (forall u: nat | WasGranted(p.outcomes, u) && u < |p.asked| && p.asked[u].resource == r ::
          u < t && Ids.LeaseSeq(p.outcomes[u].lease) <= p.lastId)
  }

  lemma HeadIsNext(s: State, r: string)
    requires Core(s) && Queue(s, r) != []
    ensures NextInLine(Pop(s, r), r, Queue(s, r)[0].session, Queue(s, r)[0].ticket)
  {
    GrantedBefore(s, r);
    PopKeepsQueues(s.queues, s.asked, s.outcomes, r);
    assert Queue(s, r)[0] in QueueOf(s.queues, r);
    assert Open(s.asked, s.outcomes, r, Queue(s, r)[0]);
  }

  lemma GrantNext(p: State, r: string, w: Waiter, now: Time)
    requires Core(p) && r in p.res && HasRoom(p, r) && NextInLine(p, r, w.session, w.ticket)
    ensures Core(GrantTo(p, r, w, now)) && |Holders(GrantTo(p, r, w, now), r)| == |Holders(p, r)| + 1
  {
    FreshId(p);
    GrantKeepsCore(p, r, w.session, None, now);
    SettleKeepsCore(Grant(p, r, w.session, None, now), w.ticket, NewId(p));
  }

  lemma GrantHeadKeepsCore(s: State, r: string, now: Time)
    requires Core(s) && r in s.res && HasRoom(s, r) && Queue(s, r) != []
    ensures Core(GrantHead(s, r, now))
    ensures |Holders(GrantHead(s, r, now), r)| == |Holders(s, r)| + 1
  {
    var p, w := Pop(s, r), Queue(s, r)[0];
    HeadIsNext(s, r);
    PopKeepsCore(s, r);
    GrantNext(p, r, w, now);
  }

  lemma TrySatisfyIs(s: State, r: string, now: Time)
    requires r in s.res
    ensures TrySatisfy(s, r, now) ==
            if Queue(s, r) != [] && HasRoom(s, r) then GrantHead(s, r, now) else s
  {
  }

  lemma GrantHeadFrame(s: State, r: string, now: Time)
    requires Queue(s, r) != []
    ensures var s' := GrantHead(s, r, now);
            && s'.res == s.res && Queue(s', r) == Queue(s, r)[1..]
            && forall o :: o != r ==> Queue(s', o) == Queue(s, o) && Holders(s', o) == Holders(s, o)
  {
  }

  lemma GrantHeadRefills(s: State, r: string, s': State)
    requires forall o :: o != r ==> NoIdleSlot(s.res, s.holders, s.queues, o)
    requires r in s.res && |Holders(s, r)| >= CapacityOf(s.res[r]) - 1 && |Holders(s', r)| == |Holders(s, r)| + 1
    requires s'.res == s.res
    requires forall o :: o != r ==> Queue(s', o) == Queue(s, o) && Holders(s', o) == Holders(s, o)
    ensures forall o :: NoIdleSlot(s'.res, s'.holders, s'.queues, o)
  {
    forall o ensures NoIdleSlot(s'.res, s'.holders, s'.queues, o) {
      if o != r {
        assert NoIdleSlot(s.res, s.holders, s.queues, o);
        assert Queue(s', o) == Queue(s, o) && Holders(s', o) == Holders(s, o);
      }
    }
  }

  /** One grant refills a resource that is at most one short. */
  lemma TrySatisfyRestores(s: State, r: string, now: Time)
    requires Core(s)
    requires forall o :: o != r ==> NoIdleSlot(s.res, s.holders, s.queues, o)
    requires r in s.res && (Queue(s, r) != [] ==> |Holders(s, r)| >= CapacityOf(s.res[r]) - 1)
    ensures Inv(TrySatisfy(s, r, now))
  {
    TrySatisfyIs(s, r, now);
    if Queue(s, r) != [] && HasRoom(s, r) {
      GrantHeadKeepsCore(s, r, now);
      GrantHeadFrame(s, r, now);
      GrantHeadRefills(s, r, GrantHead(s, r, now));
    } else {
      assert NoIdleSlot(s.res, s.holders, s.queues, r);
    }
  }

  // Ending a lease

  lemma EndKeepsHolders(res: map<string, Resource>, leases: Leases, holders: Index, l: Lease, l': Lease)
    requires HoldersExact(leases, holders) && WithinCapacity(res, holders)
    requires l.id in leases && leases[l.id] == l && l.state == Active && l'.state != Active
    ensures l.resource in holders
    ensures var holders' := holders[l.resource := holders[l.resource] - {l.id}];
            && HoldersExact(leases[l.id := l'], holders') && WithinCapacity(res, holders')
            && |HoldersOf(holders', l.resource)| == |HoldersOf(holders, l.resource)| - 1
            && forall o :: o != l.resource ==> HoldersOf(holders', o) == HoldersOf(holders, o)
  {
    assert ActiveOn(leases, l.resource, l.id);
    assert l.id in HoldersOf(holders, l.resource);
    var holders' := holders[l.resource := holders[l.resource] - {l.id}];
    forall o, k ensures k in HoldersOf(holders', o) <==> ActiveOn(leases[l.id := l'], o, k) {
      assert k in HoldersOf(holders, o) <==> ActiveOn(leases, o, k);
    }
  }

  lemma IdsFollow(res: map<string, Resource>, leases: Leases, leases': Leases, lastId: nat)
    requires IdsOk(res, leases, lastId) && leases'.Keys == leases.Keys
    requires forall id | id in leases' :: leases'[id].id == id && leases'[id].resource in res
    ensures IdsOk(res, leases', lastId)
  {
    if lastId != 0 {
      var k :| k in leases && Ids.LeaseSeq(k) == lastId;
      assert k in leases';
    }
  }

  lemma EndKeepsIds(s: State, id: string, l': Lease)
    requires IdsOk(s.res, s.leases, s.lastId) && OutcomesOk(s.leases, s.asked, s.outcomes) && id in s.leases
    requires l'.id == id && l'.resource == s.leases[id].resource && l'.session == s.leases[id].session
    ensures IdsOk(s.res, s.leases[id := l'], s.lastId) && OutcomesOk(s.leases[id := l'], s.asked, s.outcomes)
  {
    var leases' := s.leases[id := l'];
    IdsFollow(s.res, s.leases, leases', s.lastId);
    OutcomesFollow(s.leases, leases', s.asked, s.outcomes);
  }

  lemma EndKeepsTables(s: State, id: string, to: LeaseState, stamp: Time)
    requires IdsOk(s.res, s.leases, s.lastId) && HoldersExact(s.leases, s.holders) && WithinCapacity(s.res, s.holders)
    requires OutcomesOk(s.leases, s.asked, s.outcomes) && IsActive(s, id) && to != Active
    ensures var s' := End(s, id, to, stamp); var r := s.leases[id].resource;
            && IdsOk(s'.res, s'.leases, s'.lastId) && HoldersExact(s'.leases, s'.holders)
            && WithinCapacity(s'.res, s'.holders) && OutcomesOk(s'.leases, s'.asked, s'.outcomes)
            && |Holders(s', r)| == |Holders(s, r)| - 1
            && forall o :: o != r ==> HoldersOf(s'.holders, o) == HoldersOf(s.holders, o)
  {
    var l := s.leases[id];
    var l' := l.(state := to, ended := Some(stamp));
    assert l.id == id;
    EndKeepsHolders(s.res, s.leases, s.holders, l, l');
    EndKeepsIds(s, id, l');
  }

  lemma EndKeepsCore(s: State, id: string, to: LeaseState, stamp: Time)
    requires Inv(s) && IsActive(s, id) && to != Active
    ensures var s' := End(s, id, to, stamp); var r := s.leases[id].resource;
            && Core(s')
            && |Holders(s', r)| == |Holders(s, r)| - 1
            && forall o :: o != r ==> NoIdleSlot(s'.res, s'.holders, s'.queues, o)
  {
    var s' := End(s, id, to, stamp);
    EndKeepsTables(s, id, to, stamp);
    forall o | o != s.leases[id].resource ensures NoIdleSlot(s'.res, s'.holders, s'.queues, o) {
      assert NoIdleSlot(s.res, s.holders, s.queues, o);
    }
  }

  lemma EndAndHandOffKeepsInv(s: State, id: string, to: LeaseState, stamp: Time, now: Time)
    requires Inv(s) && IsActive(s, id) && to != Active
    ensures Inv(EndAndHandOff(s, id, to, stamp, now))
  {
    var r := s.leases[id].resource;
    EndKeepsCore(s, id, to, stamp);
    assert NoIdleSlot(s.res, s.holders, s.queues, r);
    TrySatisfyRestores(End(s, id, to, stamp), r, now);
  }

  lemma VisitKeepsInv(s: State, c: Criterion, id: string, stamp: Time, now: Time)
    requires Inv(s)
    ensures Inv(Visit(s, c, id, stamp, now))
  {
    if Doomed(s, c, id) { EndAndHandOffKeepsInv(s, id, EndState(c), stamp, now); }
  }

  lemma {:induction false} VisitsKeepInv(s: State, c: Criterion, order: seq<string>, stamp: Time, now: Time)
    requires Inv(s)
    ensures Inv(Visits(s, c, order, stamp, now))
  {
    if order != [] {
      VisitsKeepInv(s, c, order[..|order| - 1], stamp, now);
      VisitKeepsInv(Visits(s, c, order[..|order| - 1], stamp, now), c, order[|order| - 1], stamp, now);
    }
  }

  // Acquiring

  lemma EnqueueKeepsQueues(queues: Queues, asked: seq<Request>, outcomes: Outcomes, r: string, session: string)
    requires QueuesOk(queues, asked, outcomes) && NoneOvertaken(queues, asked, outcomes)
    requires forall t | t in outcomes :: t < |asked|
    ensures var queues' := queues[r := QueueOf(queues, r) + [Waiter(|asked|, session)]];
            var asked' := asked + [Request(r, session)];
            QueuesOk(queues', asked', outcomes) && NoneOvertaken(queues', asked', outcomes)
  {
    var q := QueueOf(queues, r);
    var queues' := queues[r := q + [Waiter(|asked|, session)]];
    var asked' := asked + [Request(r, session)];
    forall o, w | w in QueueOf(queues', o)
      ensures w in QueueOf(queues, o) || (o == r && w == Waiter(|asked|, session))
      ensures Open(asked', outcomes, o, w)
    {
      if w in QueueOf(queues, o) { assert Open(asked, outcomes, o, w); }
    }
    forall o ensures Increasing(QueueOf(queues', o)) {
      assert Increasing(QueueOf(queues, o));
      if o == r {
        forall i | 0 <= i < |q| ensures q[i].ticket < |asked| {
          assert q[i] in q;
          assert Open(asked, outcomes, r, q[i]);
        }
      }
    }
  }

  lemma EnqueueKeepsInv(s: State, r: string, session: string)
    requires Inv(s) && r in s.res && !HasRoom(s, r)
    ensures Inv(s.(queues := s.queues[r := Queue(s, r) + [Waiter(|s.asked|, session)]],
                   asked := s.asked + [Request(r, session)]))
  {
    EnqueueKeepsQueues(s.queues, s.asked, s.outcomes, r, session);
    var queues' := s.queues[r := Queue(s, r) + [Waiter(|s.asked|, session)]];
    var asked' := s.asked + [Request(r, session)];
    forall t: nat | WasGranted(s.outcomes, t) ensures GrantFits(s.leases, asked'[t], s.outcomes[t].lease) {
      assert GrantFits(s.leases, s.asked[t], s.outcomes[t].lease);
    }
    forall o ensures NoIdleSlot(s.res, s.holders, queues', o) {
      assert NoIdleSlot(s.res, s.holders, s.queues, o);
    }
  }

  lemma AcquireKeepsInv(s: State, r: string, session: string, ttl: int, now: Time)
    requires Inv(s)
    ensures Inv(Acquire(s, r, session, ttl, now))
  {
    match AcquireAnswer(s, r)
    case UnknownResource =>
    case MustWait(_) => EnqueueKeepsInv(s, r, session);
    case Immediately(_) =>
      GrantKeepsCore(s, r, session, Deadline(ttl, now), now);
      var s' := Grant(s, r, session, Deadline(ttl, now), now);
      forall o ensures NoIdleSlot(s'.res, s'.holders, s'.queues, o) {
        assert NoIdleSlot(s.res, s.holders, s.queues, o);
      }
  }

  // Leaving a queue

  /** Every queue of q' is in arrival order and has only waiters the queue had before. */
  ghost predicate Thinner(queues: Queues, queues': Queues) {
    && (forall r :: Increasing(QueueOf(queues', r)))
    && (forall r, w | w in QueueOf(queues', r) :: w in QueueOf(queues, r))
  }

  lemma ThinningKeepsInv(s: State, queues': Queues)
    requires Inv(s) && Thinner(s.queues, queues')
    ensures Inv(s.(queues := queues'))
  {
    forall r, w | w in QueueOf(queues', r) ensures Open(s.asked, s.outcomes, r, w) {
      assert w in QueueOf(s.queues, r);
    }
    forall r ensures NoIdleSlot(s.res, s.holders, queues', r) {
      assert NoIdleSlot(s.res, s.holders, s.queues, r);
      if QueueOf(queues', r) != [] { assert QueueOf(queues', r)[0] in QueueOf(s.queues, r); }
    }
  }

  lemma TailIncreasing(q: seq<Waiter>)
    requires Increasing(q) && q != []
    ensures Increasing(q[1..])
  {
    var p := q[1..];
    forall i, j | 0 <= i < j < |p| ensures p[i].ticket < p[j].ticket { assert p[i] == q[i + 1] && p[j] == q[j + 1]; }
  }

  lemma DropInTail(q: seq<Waiter>, i: nat)
    requires 0 < i < |q|
    ensures [q[0]] + (q[1..][..i - 1] + q[1..][i..]) == q[..i] + q[i + 1..]
  {
    assert q[..i] == [q[0]] + q[1..][..i - 1];
    assert q[1..][i..] == q[i + 1..];
  }

  lemma {:induction false} WithoutTicketIs(q: seq<Waiter>, ticket: nat, i: nat)
    requires i < |q| && q[i].ticket == ticket && Increasing(q)
    ensures WithoutTicket(q, ticket) == q[..i] + q[i + 1..]
  {
    if i > 0 {
      var p := q[1..];
      assert q[0].ticket < q[i].ticket && p[i - 1] == q[i];
      TailIncreasing(q);
      WithoutTicketIs(p, ticket, i - 1);
      DropInTail(q, i);
    }
  }

  lemma DropOneThins(q: seq<Waiter>, i: nat)
    requires Increasing(q) && i < |q|
    ensures Increasing(q[..i] + q[i + 1..]) && forall w | w in q[..i] + q[i + 1..] :: w in q
  {
    var p := q[..i] + q[i + 1..];
    forall j | 0 <= j < |p| ensures p[j] == q[if j < i then j else j + 1] {}
  }

  lemma WithoutTicketThins(q: seq<Waiter>, ticket: nat)
    requires Increasing(q) && Queued(q, ticket)
    ensures Increasing(WithoutTicket(q, ticket)) && forall w | w in WithoutTicket(q, ticket) :: w in q
  {
    var i :| 0 <= i < |q| && q[i].ticket == ticket;
    WithoutTicketIs(q, ticket, i);
    DropOneThins(q, i);
  }

  lemma CancelThins(s: State, r: string, ticket: nat)
    requires QueuesOk(s.queues, s.asked, s.outcomes) && Queued(Queue(s, r), ticket)
    ensures Thinner(s.queues, Cancel(s, r, ticket).queues)
  {
    var queues' := Cancel(s, r, ticket).queues;
    assert Increasing(QueueOf(s.queues, r));
    WithoutTicketThins(QueueOf(s.queues, r), ticket);
    forall o
      ensures Increasing(QueueOf(queues', o)) && forall w | w in QueueOf(queues', o) :: w in QueueOf(s.queues, o)
    {
      assert Increasing(QueueOf(s.queues, o));
    }
  }

  lemma CancelKeepsInv(s: State, r: string, ticket: nat)
    requires Inv(s)
    ensures Inv(Cancel(s, r, ticket))
  {
    if Queued(Queue(s, r), ticket) {
      CancelThins(s, r, ticket);
      ThinningKeepsInv(s, Cancel(s, r, ticket).queues);
    }
  }

  lemma {:induction false} SurvivorsAre(q: seq<Waiter>, session: string)
    requires Increasing(q)
    ensures Increasing(Survivors(q, session))
    ensures forall w :: w in Survivors(q, session) <==> w in q && w.session != session
  {
    if q != [] {
      var p := q[..|q| - 1];
      SurvivorsAre(p, session);
      assert q == p + [q[|q| - 1]];
      forall w | w in Survivors(p, session) ensures w.ticket < q[|q| - 1].ticket {
        var i :| 0 <= i < |p| && p[i] == w;
        assert q[i] == w;
      }
    }
  }

  lemma WithoutSessionThins(queues: Queues, session: string)
    requires forall r :: Increasing(QueueOf(queues, r))
    ensures Thinner(queues, WithoutSession(queues, session))
    ensures forall r, w :: w in QueueOf(WithoutSession(queues, session), r)
                           <==> w in QueueOf(queues, r) && w.session != session
  {
    var queues' := WithoutSession(queues, session);
    forall r ensures Increasing(QueueOf(queues', r))
             ensures forall w :: w in QueueOf(queues', r) <==> w in QueueOf(queues, r) && w.session != session {
      assert Increasing(QueueOf(queues, r));
      SurvivorsAre(QueueOf(queues, r), session);
    }
  }

  /** The dropped tickets are open requests of the session, one queue entry each. */
  lemma DroppedAreOpen(s: State, session: string)
    requires QueuesOk(s.queues, s.asked, s.outcomes)
    ensures forall t | t in TicketsOf(s, session) ::
              t < |s.asked| && t !in s.outcomes && s.asked[t].session == session
  {
    forall t | t in TicketsOf(s, session)
      ensures t < |s.asked| && t !in s.outcomes && s.asked[t].session == session
    {
      var r, i :| r in s.queues && 0 <= i < |s.queues[r]| && s.queues[r][i].session == session
                  && s.queues[r][i].ticket == t;
      assert s.queues[r][i] in QueueOf(s.queues, r);
      assert Open(s.asked, s.outcomes, r, s.queues[r][i]);
    }
  }

  lemma DropOutcomes(s: State, outcomes': Outcomes)
    requires OutcomesOk(s.leases, s.asked, s.outcomes) && GrantedInOrder(s.asked, s.outcomes)
    requires NoneOvertaken(s.queues, s.asked, s.outcomes)
    requires forall t | t in outcomes' :: if t in s.outcomes then outcomes'[t] == s.outcomes[t]
                                          else t < |s.asked| && outcomes'[t].Dropped?
    requires s.outcomes.Keys <= outcomes'.Keys
    ensures OutcomesOk(s.leases, s.asked, outcomes') && GrantedInOrder(s.asked, outcomes')
    ensures NoneOvertaken(s.queues, s.asked, outcomes')
  {
    forall t: nat ensures WasGranted(outcomes', t) <==> WasGranted(s.outcomes, t) {}
  }

  lemma DropKeepsInv(s: State, session: string)
    requires Inv(s)
    ensures Inv(DropWaiters(s, session))
  {
    var queues', outcomes' := WithoutSession(s.queues, session), DropWaiters(s, session).outcomes;
    WithoutSessionThins(s.queues, session);
    DroppedAreOpen(s, session);
    ThinningKeepsInv(s, queues');
    DropOutcomes(s.(queues := queues'), outcomes');
    DropKeepsOpen(s.queues, queues', s.asked, s.outcomes, outcomes', session);
    assert DropWaiters(s, session) == s.(queues := queues', outcomes := outcomes');
  }

  lemma DropKeepsOpen(queues: Queues, queues': Queues, asked: seq<Request>,
                      outcomes: Outcomes, outcomes': Outcomes, session: string)
    requires QueuesOk(queues, asked, outcomes) && Thinner(queues, queues')
    requires forall r, w | w in QueueOf(queues', r) :: w.session != session
    requires forall t: nat | t in outcomes' && t !in outcomes :: t < |asked| && asked[t].session == session
    ensures QueuesOk(queues', asked, outcomes')
  {
    forall r, w | w in QueueOf(queues', r) ensures Open(asked, outcomes', r, w) {
      assert Open(asked, outcomes, r, w);
    }
  }

  // Renewing and registering

  lemma RenewKeepsTables(res: map<string, Resource>, leases: Leases, holders: Index, lastId: nat, id: string, l: Lease)
    requires IdsOk(res, leases, lastId) && HoldersExact(leases, holders) && id in leases
    requires exists e :: l == leases[id].(expires := e)
    ensures IdsOk(res, leases[id := l], lastId) && HoldersExact(leases[id := l], holders)
    ensures SameParties(leases, leases[id := l])
  {
    var leases' := leases[id := l];
    IdsFollow(res, leases, leases', lastId);
    forall o, k ensures k in HoldersOf(holders, o) <==> ActiveOn(leases', o, k) {
      assert k in HoldersOf(holders, o) <==> ActiveOn(leases, o, k);
    }
  }

  lemma RenewKeepsInv(s: State, id: string, ttl: int, now: Time)
    requires Inv(s)
    ensures Inv(Renew(s, id, ttl, now))
  {
    if ttl > 0 && IsActive(s, id) {
      var l := s.leases[id].(expires := Some(now + ttl));
      RenewKeepsTables(s.res, s.leases, s.holders, s.lastId, id, l);
      OutcomesFollow(s.leases, s.leases[id := l], s.asked, s.outcomes);
    }
  }

  lemma EnsureKeepsInv(s: State, r: string, mode: LeaseMode)
    requires Inv(s)
    ensures Inv(EnsureResource(s, r, mode))
  {
    if r !in s.res {
      var s' := EnsureResource(s, r, mode);
      forall k ensures k !in HoldersOf(s.holders, r) {
        assert k in HoldersOf(s.holders, r) <==> ActiveOn(s.leases, r, k);
      }
      assert HoldersOf(s.holders, r) == {};
      forall o ensures NoIdleSlot(s'.res, s'.holders, s'.queues, o) {
        assert NoIdleSlot(s.res, s.holders, s.queues, o);
      }
    }
  }

  // All steps, all runs

  /** Every step keeps the invariant, whatever order its loop visits the table in. */
  lemma ReleaseAllKeepsInv(s: State, session: string, order: seq<string>, now: Time)
    requires Inv(s)
    ensures Inv(ReleaseAll(s, session, order, now))
  {
    VisitsKeepInv(s, OwnedBy(session), order, now, now);
    DropKeepsInv(Visits(s, OwnedBy(session), order, now, now), session);
  }

  lemma LoopKeepsInv(s: State, a: Action)
    requires Inv(s) && OverTheTable(a)
    ensures Inv(Step(s, a))
  {
    if a.DoReleaseAll? {
      ReleaseAllKeepsInv(s, a.session, a.order, a.now);
    } else if a.DoSweep? {
      VisitsKeepInv(s, Overdue(a.cutoff), a.order, a.cutoff, a.now);
    } else {
      VisitsKeepInv(s, Unowned(a.live), a.order, a.now, a.now);
    }
  }

  lemma ReleaseKeepsInv(s: State, id: string, now: Time)
    requires Inv(s)
    ensures Inv(Release(s, id, now))
  {
    if IsActive(s, id) { EndAndHandOffKeepsInv(s, id, Released, now, now); }
  }

  lemma ExpireKeepsInv(s: State, id: string, now: Time)
    requires Inv(s)
    ensures Inv(ExpireNow(s, id, now))
  {
    if IsActive(s, id) { EndAndHandOffKeepsInv(s, id, Expired, now, now); }
  }

  lemma StepKeepsInv(s: State, a: Action)
    requires Inv(s)
    ensures Inv(Step(s, a))
  {
    if OverTheTable(a) {
      LoopKeepsInv(s, a);
    } else {
      match a
      case DoAcquire(r, session, ttl, now) => AcquireKeepsInv(s, r, session, ttl, now);
      case DoCancel(r, ticket) => CancelKeepsInv(s, r, ticket);
      case DoRelease(id, now) => ReleaseKeepsInv(s, id, now);
      case DoRenew(id, ttl, now) => RenewKeepsInv(s, id, ttl, now);
      case DoExpireNow(id, now) => ExpireKeepsInv(s, id, now);
      case DoEnsure(r, mode) => EnsureKeepsInv(s, r, mode);
    }
  }

  /** Every state of every run satisfies the invariant: no resource is ever over capacity, the holders
      index never drifts from the lease table, nobody waits while there is room, nothing panics. */
  lemma {:induction false} RunKeepsInv(s: State, actions: seq<Action>)
    requires Inv(s)
    ensures Inv(Run(s, actions))
  {
    if actions != [] {
      RunKeepsInv(s, actions[..|actions| - 1]);
      StepKeepsInv(Run(s, actions[..|actions| - 1]), actions[|actions| - 1]);
    }
  }
}
