/** The lease manager as an object: fields updated under one mutex, one method per operation, each
    refining the step of LeaseModel that bears its name. */
module LeaseManager {
  import opened Options
  import opened Finite
  import opened M = LeaseModel
  import opened LeaseInvariant
  import opened LeaseSnapshots
  import opened Documents
  import Ids
  import Store

  /** The ids a loop over the table ended, in the order it met them. */
  function EndedBy(s: State, c: Criterion, order: seq<string>, stamp: Time, now: Time): seq<string> {
    if order == [] then []
    else
      var p, id := order[..|order| - 1], order[|order| - 1];
      EndedBy(s, c, p, stamp, now) + if Doomed(Visits(s, c, p, stamp, now), c, id) then [id] else []
  }

  lemma {:induction false} NothingEnded(s: State, c: Criterion, order: seq<string>, stamp: Time, now: Time)
    requires EndedBy(s, c, order, stamp, now) == []
    ensures Visits(s, c, order, stamp, now) == s
  {
    if order != [] { NothingEnded(s, c, order[..|order| - 1], stamp, now); }
  }

  /** The queue slots in use: what a hand-off uses up. */
  function Slots(queues: Queues): set<(string, nat)> {
    set r, i | r in queues && 0 <= i < |queues[r]| :: (r, i)
  }

  lemma TrySatisfyUsesSlot(s: State, r: string, now: Time)
    ensures var s' := M.TrySatisfy(s, r, now);
            || (s'.leases.Keys == s.leases.Keys && s'.queues == s.queues)
            || Slots(s'.queues) < Slots(s.queues)
    ensures s.leases.Keys <= M.TrySatisfy(s, r, now).leases.Keys
  {
    var q := Queue(s, r);
    if q != [] && r in s.res && HasRoom(s, r) {
      assert (r, |q| - 1) in Slots(s.queues);
      assert (r, |q| - 1) !in Slots(s.queues[r := q[1..]]);
    }
  }

  lemma VisitUsesSlot(s: State, c: Criterion, id: string, stamp: Time, now: Time)
    ensures var s' := Visit(s, c, id, stamp, now);
            || (s'.leases.Keys == s.leases.Keys && s'.queues == s.queues)
            || Slots(s'.queues) < Slots(s.queues)
    ensures s.leases.Keys <= Visit(s, c, id, stamp, now).leases.Keys
  {
    if Doomed(s, c, id) {
      TrySatisfyUsesSlot(End(s, id, EndState(c), stamp), s.leases[id].resource, now);
    }
  }

  lemma VisitsSnoc(s: State, c: Criterion, order: seq<string>, id: string, stamp: Time, now: Time)
    ensures Visits(s, c, order + [id], stamp, now) == Visit(Visits(s, c, order, stamp, now), c, id, stamp, now)
    ensures EndedBy(s, c, order + [id], stamp, now) == EndedBy(s, c, order, stamp, now)
              + if Doomed(Visits(s, c, order, stamp, now), c, id) then [id] else []
  {
    assert (order + [id])[..|order|] == order;
  }

  /** An order under way: no entry twice, each one present when it was reached. */
  ghost predicate LegalPrefix(s: State, c: Criterion, order: seq<string>, stamp: Time, now: Time) {
    NoRepeats(order) && forall i | 0 <= i < |order| :: order[i] in Visits(s, c, order[..i], stamp, now).leases
  }

  lemma OrderSnoc(s: State, c: Criterion, order: seq<string>, id: string, stamp: Time, now: Time)
    requires id in Visits(s, c, order, stamp, now).leases && id !in Elems(order)
    requires LegalPrefix(s, c, order, stamp, now)
    ensures LegalPrefix(s, c, order + [id], stamp, now) && Elems(order + [id]) == Elems(order) + {id}
  {
    var longer := order + [id];
    forall i | 0 <= i < |longer| ensures longer[i] in Visits(s, c, longer[..i], stamp, now).leases {
      assert longer[..i] == order[..i];
      if i == |order| { assert order[..i] == order; }
    }
    forall i | 0 <= i < |order| ensures order[i] != id {
      assert order[i] in Elems(order);
    }
  }

  /** Filter a slice in place, reusing its backing array: `kept := q[:0]` and append. */
  method FilterInPlace(a: array<Waiter>, n: nat, session: string) returns (k: nat)
    requires n <= a.Length
    modifies a
    ensures k <= n && a[..k] == Survivors(old(a[..n]), session)
    ensures a[n..] == old(a[n..])
  {
    k := 0;
    for i := 0 to n
      invariant k <= i
      invariant a[..k] == Survivors(old(a[..i]), session)
      invariant a[i..] == old(a[i..])
    {
      assert a[i] == a[i..][0] == old(a[i..])[0] == old(a[i]);
      assert old(a[..i + 1])[..i] == old(a[..i]);
      assert forall j | i + 1 <= j < a.Length :: a[j] == a[i..][j - i] == old(a[i..])[j - i] == old(a[j]);
      if a[i].session != session {
        a[k] := a[i];
        k := k + 1;
      }
    }
  }

  /** The tickets of a session's waiters in the queues of some resources. */
  function TicketsAmong(queues: Queues, keys: set<string>, session: string): set<nat> {
    set r, i | r in keys && r in queues && 0 <= i < |queues[r]| && queues[r][i].session == session
      :: queues[r][i].ticket
  }

  function TicketsIn(q: seq<Waiter>, session: string): set<nat> {
    set i | 0 <= i < |q| && q[i].session == session :: q[i].ticket
  }

  function WithDropped(outcomes: Outcomes, tickets: set<nat>): Outcomes {
    outcomes + map t | t in tickets :: Dropped
  }

  lemma TicketsInGrow(q: seq<Waiter>, i: nat, session: string)
    requires i < |q|
    ensures TicketsIn(q[..i + 1], session)
         == TicketsIn(q[..i], session) + if q[i].session == session then {q[i].ticket} else {}
  {
  }

  lemma DropOne(outcomes: Outcomes, tickets: set<nat>, t: nat)
    ensures WithDropped(outcomes, tickets)[t := Dropped] == WithDropped(outcomes, tickets + {t})
    ensures t !in outcomes && t !in tickets ==> t !in WithDropped(outcomes, tickets)
  {
  }

  /** Dropping the i-th waiter of a queue, or keeping it, as the loop over the queue does; `among` are
      the tickets dropped from other queues. */
  lemma DropNext(outcomes: Outcomes, among: set<nat>, q: seq<Waiter>, i: nat, session: string)
    requires i < |q|
    requires q[i].ticket !in outcomes && q[i].ticket !in among && q[i].ticket !in TicketsIn(q[..i], session)
    ensures q[i].ticket !in WithDropped(outcomes, among + TicketsIn(q[..i], session))
    ensures WithDropped(outcomes, among + TicketsIn(q[..i + 1], session)) ==
            var now := WithDropped(outcomes, among + TicketsIn(q[..i], session));
            if q[i].session == session then now[q[i].ticket := Dropped] else now
  {
    TicketsInGrow(q, i, session);
    var tickets := among + TicketsIn(q[..i], session);
    DropOne(outcomes, tickets, q[i].ticket);
    assert among + (TicketsIn(q[..i], session) + {q[i].ticket}) == tickets + {q[i].ticket};
  }

  lemma SurvivorsNext(q: seq<Waiter>, i: nat, session: string)
    requires i < |q|
    ensures Survivors(q[..i + 1], session)
            == Survivors(q[..i], session) + if q[i].session == session then [] else [q[i]]
  {
    assert q[..i + 1][..i] == q[..i];
  }

  lemma TicketsAmongGrow(queues: Queues, keys: set<string>, r: string, session: string)
    requires r in queues
    ensures TicketsAmong(queues, keys + {r}, session) ==
            TicketsAmong(queues, keys, session) + TicketsIn(queues[r], session)
  {
  }

  /** The queues when those of `todo` are still to be filtered. */
  function PartlyWithout(queues: Queues, todo: set<string>, session: string): Queues {
    map r | r in queues :: if r in todo then queues[r] else Survivors(queues[r], session)
  }

  lemma PartlyWithoutStep(queues: Queues, todo: set<string>, r: string, session: string)
    requires r in queues
    ensures PartlyWithout(queues, todo, session)[r := Survivors(queues[r], session)]
         == PartlyWithout(queues, todo - {r}, session)
  {
  }

  lemma NoneOrAllWithout(queues: Queues, session: string)
    ensures PartlyWithout(queues, queues.Keys, session) == queues
    ensures PartlyWithout(queues, {}, session) == WithoutSession(queues, session)
  {
  }

  lemma AllDropped(s: State, session: string)
    requires QueuesOk(s.queues, s.asked, s.outcomes)
    ensures DropWaiters(s, session) == s.(queues := WithoutSession(s.queues, session),
              outcomes := WithDropped(s.outcomes, TicketsAmong(s.queues, s.queues.Keys, session)))
  {
    DroppedAreOpen(s, session);
    assert TicketsAmong(s.queues, s.queues.Keys, session) == TicketsOf(s, session);
    assert TicketsOf(s, session) - s.outcomes.Keys == TicketsOf(s, session);
  }

  /** No channel is closed twice: a waiter's ticket is in one place in one queue. */
  lemma NotYetClosed(s: State, done: set<string>, r: string, i: nat, session: string)
    requires QueuesOk(s.queues, s.asked, s.outcomes) && r in s.queues && r !in done && i < |s.queues[r]|
    ensures var t := s.queues[r][i].ticket;
            && t !in s.outcomes && t !in TicketsAmong(s.queues, done, session)
            && t !in TicketsIn(s.queues[r][..i], session)
  {
    var w := s.queues[r][i];
    assert w in QueueOf(s.queues, r);
    assert Open(s.asked, s.outcomes, r, w);
    assert Increasing(QueueOf(s.queues, r));
    forall o, j | o in done && o in s.queues && 0 <= j < |s.queues[o]| ensures s.queues[o][j].ticket != w.ticket {
      assert s.queues[o][j] in QueueOf(s.queues, o);
      assert Open(s.asked, s.outcomes, o, s.queues[o][j]);
    }
  }

  lemma TrySatisfyKeepsQueues(s: State, r: string, now: Time)
    requires QueuesOk(s.queues, s.asked, s.outcomes)
    ensures var s' := M.TrySatisfy(s, r, now); QueuesOk(s'.queues, s'.asked, s'.outcomes)
  {
    var q := Queue(s, r);
    if q != [] && r in s.res && HasRoom(s, r) {
      var queues' := s.queues[r := q[1..]];
      assert q[0] in QueueOf(s.queues, r);
      assert Open(s.asked, s.outcomes, r, q[0]);
      forall o ensures Increasing(QueueOf(queues', o)) {
        assert Increasing(QueueOf(s.queues, o));
      }
      forall o, w | w in QueueOf(queues', o) ensures Open(s.asked, s.outcomes, o, w) {
        assert w in QueueOf(s.queues, o);
      }
      SettleKeepsQueues(queues', s.asked, s.outcomes, q[0].ticket, Granted(NewId(s)));
    }
  }

  lemma {:induction false} VisitsKeepQueues(s: State, c: Criterion, order: seq<string>, stamp: Time, now: Time)
    requires QueuesOk(s.queues, s.asked, s.outcomes)
    ensures var v := Visits(s, c, order, stamp, now); QueuesOk(v.queues, v.asked, v.outcomes)
  {
    if order != [] {
      var p, id := order[..|order| - 1], order[|order| - 1];
      var v := Visits(s, c, p, stamp, now);
      VisitsKeepQueues(s, c, p, stamp, now);
      if Doomed(v, c, id) {
        TrySatisfyKeepsQueues(End(v, id, EndState(c), stamp), v.leases[id].resource, now);
      }
    }
  }

  lemma VisitsKeepQueuesForAll(s: State, c: Criterion, stamp: Time, now: Time)
    requires QueuesOk(s.queues, s.asked, s.outcomes)
    ensures forall order ::
              var v := Visits(s, c, order, stamp, now); QueuesOk(v.queues, v.asked, v.outcomes)
  {
    forall order ensures var v := Visits(s, c, order, stamp, now); QueuesOk(v.queues, v.asked, v.outcomes) {
      VisitsKeepQueues(s, c, order, stamp, now);
    }
  }

  lemma {:induction false} FirstMatch(q: seq<Waiter>, ticket: nat, i: nat)
    requires i < |q| && q[i].ticket == ticket && forall j | 0 <= j < i :: q[j].ticket != ticket
    ensures WithoutTicket(q, ticket) == q[..i] + q[i + 1..]
  {
    if i > 0 {
      FirstMatch(q[1..], ticket, i - 1);
      assert q[..i] == [q[0]] + q[1..][..i - 1];
      assert q[1..][i..] == q[i + 1..];
    }
  }

  // Reloading

  /** The part of the table already read back. */
  function Loaded(leases: Leases, todo: set<string>): Leases {
    map id | id in leases && id !in todo :: leases[id]
  }

  lemma LoadOne(leases: Leases, todo: set<string>, id: string)
    requires id in todo && id in leases
    ensures Loaded(leases, todo - {id}) == Loaded(leases, todo)[id := leases[id]]
    ensures id !in Loaded(leases, todo)
    ensures leases.Keys - (todo - {id}) == (leases.Keys - todo) + {id}
  {
  }

  lemma LoadNone(leases: Leases)
    ensures Loaded(leases, leases.Keys) == map[] && HoldersFrom(map[]) == map[]
    ensures IsMaxSeq(leases.Keys - leases.Keys, 0)
  {
  }

  lemma LoadDone(leases: Leases)
    ensures Loaded(leases, {}) == leases && leases.Keys - {} == leases.Keys
  {
  }

  lemma IndexOne(leases: Leases, id: string, l: Lease)
    requires id !in leases
    ensures HoldersFrom(leases[id := l]) ==
            if l.state == Active
            then HoldersFrom(leases)[l.resource := HoldersOf(HoldersFrom(leases), l.resource) + {id}]
            else HoldersFrom(leases)
  {
    var leases' := leases[id := l];
    IndexResources(leases, id, l);
    HoldersFromExact(leases);
    var expected := if l.state == Active
                    then HoldersFrom(leases)[l.resource := HoldersOf(HoldersFrom(leases), l.resource) + {id}]
                    else HoldersFrom(leases);
    assert HoldersFrom(leases').Keys == expected.Keys;
    forall r | r in expected ensures HoldersFrom(leases')[r] == expected[r] {
      assert ActiveIds(leases', r)
          == ActiveIds(leases, r) + if l.state == Active && l.resource == r then {id} else {};
    }
  }

  lemma IndexResources(leases: Leases, id: string, l: Lease)
    requires id !in leases
    ensures ActiveResources(leases[id := l])
         == ActiveResources(leases) + if l.state == Active then {l.resource} else {}
  {
    var leases' := leases[id := l];
    forall k | k in leases && leases[k].state == Active ensures leases[k].resource in ActiveResources(leases') {
      assert leases'[k] == leases[k];
    }
    if l.state == Active { assert leases'[id] == l; }
  }

  ghost predicate IsMaxSeq(ids: set<string>, n: nat) {
    && (forall id | id in ids :: Ids.LeaseSeq(id) <= n)
    && (n == 0 || exists id :: id in ids && Ids.LeaseSeq(id) == n)
  }

  function LargerSeq(id: string, n: nat): nat {
    Larger(Ids.LeaseSeq(id), n)
  }

  lemma MaxOne(ids: set<string>, n: nat, id: string)
    requires IsMaxSeq(ids, n)
    ensures IsMaxSeq(ids + {id}, LargerSeq(id, n))
  {
    if Ids.LeaseSeq(id) > n {
      assert id in ids + {id};
    } else if n != 0 {
      var k :| k in ids && Ids.LeaseSeq(k) == n;
      assert k in ids + {id};
    }
  }

  lemma MaxUnique(ids: set<string>, n: nat)
    requires IsMaxSeq(ids, n)
    ensures MaxSeq(ids) == n
  {
  }

  class Manager {
    const store: Store.Store<Key, Doc>
    var res: map<string, Resource>
    var leases: Leases
    var holders: Index
    var queues: Queues
    var lastId: nat
    var asked: seq<Request>
    var outcomes: Outcomes
    var panicked: bool

    constructor (store: Store.Store<Key, Doc>, res: map<string, Resource>)
      ensures this.store == store && View() == Start(res)
    {
      this.store, this.res := store, res;
      leases, holders, queues, lastId := map[], map[], map[], 0;
      asked, outcomes, panicked := [], map[], false;
    }

    function View(): State
      reads this
    {
      State(res, leases, holders, queues, lastId, asked, outcomes, panicked)
    }

    /** The table as it is now has been saved, or nothing has. */
    twostate predicate Persisted(saved: bool)
      reads this, store
    {
      if saved then store.Saved(LeasesKey, LeasesDoc(TakeSnapshot(View()))) else store.Same()
    }

    /** Write the snapshot; with sequential saves it is read at one moment. */
    method Persist()
      requires store.Valid()
      modifies store
      ensures Persisted(true)
    {
      store.Save(LeasesKey, LeasesDoc(Snapshot(res, leases)));
    }

    method LoadLease(id: string, l: Lease)
      requires id !in leases && holders == HoldersFrom(leases)
      modifies this
      ensures View() == old(View()).(leases := old(leases)[id := l], holders := HoldersFrom(old(leases)[id := l]))
    {
      IndexOne(leases, id, l);
      leases := leases[id := l];
      if l.state == Active {
        holders := holders[l.resource := HoldersOf(holders, l.resource) + {id}];
      }
    }

    /** Reload a snapshot: table, index of active leases, and a counter past every id seen. */
    method Restore(snap: Snapshot)
      requires !panicked
      modifies this
      ensures View() == Restored(snap, old(lastId))
    {
      res, leases, holders, queues := snap.res, map[], map[], map[];
      asked, outcomes := [], map[];
      var maxSeq := LoadAll(snap.leases);
      if maxSeq > lastId {
        lastId := maxSeq;
      }
    }

    method LoadAll(table: Leases) returns (maxSeq: nat)
      requires leases == map[] && holders == map[]
      modifies this
      ensures View() == old(View()).(leases := table, holders := HoldersFrom(table))
      ensures maxSeq == MaxSeq(table.Keys)
    {
      maxSeq := 0;
      var todo := table.Keys;
      LoadNone(table);
      while todo != {}
        invariant View() == old(View()).(leases := leases, holders := holders)
        invariant todo <= table.Keys && leases == Loaded(table, todo) && holders == HoldersFrom(leases)
        invariant IsMaxSeq(table.Keys - todo, maxSeq)
      {
        var id :| id in todo;
        LoadOne(table, todo, id);
        MaxOne(table.Keys - todo, maxSeq, id);
        LoadLease(id, table[id]);
        maxSeq := LargerSeq(id, maxSeq);
        todo := todo - {id};
      }
      LoadDone(table);
      MaxUnique(table.Keys, maxSeq);
    }

    /** A missing file leaves the manager as configured. */
    method RestoreFromStore()
      requires !panicked
      requires store.Valid()
      modifies this
      ensures var d := store.disk;
              View() == if LeasesKey in d && d[LeasesKey].LeasesDoc? then Restored(d[LeasesKey].snap, old(lastId))
                        else old(View())
    {
      var doc := store.Load(LeasesKey);
      if doc.Some? && doc.value.LeasesDoc? {
        Restore(doc.value.snap);
      }
    }

    method Grant(r: string, session: string, expires: Option<Time>, now: Time) returns (id: string)
      modifies this
      ensures View() == M.Grant(old(View()), r, session, expires, now) && id == NewId(old(View()))
    {
      id := Ids.LeaseId(lastId + 1);
      lastId := lastId + 1;
      leases := leases[id := Lease(id, r, session, now, expires, Active, None)];
      holders := holders[r := HoldersOf(holders, r) + {id}];
    }

    method CloseWaiter(ticket: nat, o: Outcome)
      modifies this
      ensures View() == Settle(old(View()), ticket, o)
    {
      if ticket in outcomes {
        panicked := true;
      } else {
        outcomes := outcomes[ticket := o];
      }
    }

    /** Grants the head waiter if there is room; at most one waiter is served per call. */
    method TrySatisfy(r: string, now: Time) returns (granted: bool)
      modifies this
      ensures View() == M.TrySatisfy(old(View()), r, now)
      ensures granted <==> lastId != old(lastId)
    {
      if QueueOf(queues, r) != [] {
        if r !in res {
          panicked := true;
          return false;
        }
        if |HoldersOf(holders, r)| >= CapacityOf(res[r]) {
          return false;
        }
        var w := queues[r][0];
        queues := queues[r := queues[r][1..]];
        var id := Grant(r, w.session, None, now);
        CloseWaiter(w.ticket, Granted(id));
        return true;
      }
      return false;
    }

    /** The part of Acquire up to the point where a queued caller blocks. */
    method Acquire(r: string, session: string, ttl: int, now: Time) returns (answer: AcquireResult)
      requires store.Valid()
      modifies this, store
      ensures View() == M.Acquire(old(View()), r, session, ttl, now)
      ensures answer == AcquireAnswer(old(View()), r)
      ensures Persisted(answer.Immediately?)
    {
      if r !in res {
        return UnknownResource;
      }
      if |HoldersOf(holders, r)| < CapacityOf(res[r]) {
        var id := Grant(r, session, if ttl > 0 then Some(now + ttl) else None, now);
        Persist();
        return Immediately(id);
      }
      var w := Waiter(|asked|, session);
      queues := queues[r := QueueOf(queues, r) + [w]];
      asked := asked + [Request(r, session)];
      return MustWait(w.ticket);
    }

    /** removeWaiter: the first entry with this ticket, if any, leaves the queue. */
    method RemoveWaiter(r: string, ticket: nat) returns (found: bool)
      modifies this
      ensures View() == M.Cancel(old(View()), r, ticket)
      ensures found <==> Queued(Queue(old(View()), r), ticket)
    {
      var q := QueueOf(queues, r);
      for i := 0 to |q|
        invariant View() == old(View())
        invariant forall j | 0 <= j < i :: q[j].ticket != ticket
      {
        if q[i].ticket == ticket {
          FirstMatch(q, ticket, i);
          queues := queues[r := q[..i] + q[i + 1..]];
          return true;
        }
      }
      return false;
    }

    method Release(id: string, now: Time) returns (ok: bool)
      requires store.Valid()
      modifies this, store
      ensures View() == M.Release(old(View()), id, now)
      ensures ok <==> IsActive(old(View()), id)
      ensures Persisted(ok)
    {
      if id !in leases || leases[id].state != Active {
        return false;
      }
      EndLease(id, Released, now);
      var _ := TrySatisfy(leases[id].resource, now);
      Persist();
      return true;
    }

    method EndLease(id: string, to: LeaseState, stamp: Time)
      requires id in leases
      modifies this
      ensures View() == End(old(View()), id, to, stamp)
    {
      var l := leases[id];
      leases := leases[id := l.(state := to, ended := Some(stamp))];
      if l.resource in holders {
        holders := holders[l.resource := holders[l.resource] - {id}];
      }
    }

    method ExpireNow(id: string, now: Time) returns (ok: bool)
      requires store.Valid()
      modifies this, store
      ensures View() == M.ExpireNow(old(View()), id, now)
      ensures ok <==> IsActive(old(View()), id)
      ensures Persisted(ok)
    {
      if id !in leases || leases[id].state != Active {
        return false;
      }
      EndLease(id, Expired, now);
      var _ := TrySatisfy(leases[id].resource, now);
      Persist();
      return true;
    }

    /** Renew is not persisted: the new deadline reaches the disk with the next save. */
    method Renew(id: string, ttl: int, now: Time) returns (ok: bool)
      modifies this
      ensures View() == M.Renew(old(View()), id, ttl, now)
      ensures ok <==> ttl > 0 && IsActive(old(View()), id)
    {
      if ttl <= 0 || id !in leases || leases[id].state != Active {
        return false;
      }
      leases := leases[id := leases[id].(expires := Some(now + ttl))];
      return true;
    }

    method EnsureResource(r: string, mode: LeaseMode)
      requires store.Valid()
      modifies this, store
      ensures View() == M.EnsureResource(old(View()), r, mode)
      ensures Persisted(r !in old(res))
    {
      if r in res {
        return;
      }
      res := res[r := Resource(mode, if mode == Capacity then 1 else 0)];
      Persist();
    }

    /** One iteration of a loop over the table. */
    method VisitLease(c: Criterion, id: string, stamp: Time, now: Time) returns (hit: bool)
      requires id in leases
      modifies this
      ensures View() == Visit(old(View()), c, id, stamp, now) && hit == Doomed(old(View()), c, id)
    {
      var l := leases[id];
      hit := l.state == Active && Matches(c, l.session, l.expires);
      if hit {
        EndLease(id, EndState(c), stamp);
        var _ := TrySatisfy(l.resource, now);
      }
    }

    /** `for _, l := range m.leases`, ending the matching leases and handing each slot on. Entries that
        the loop inserts may or may not be visited; it terminates because each of them has used up a
        queue slot. */
    method EndMatching(c: Criterion, stamp: Time, now: Time) returns (ended: seq<string>, ghost order: seq<string>)
      modifies this
      ensures LegalOrder(old(View()), c, order, stamp, now)
      ensures View() == Visits(old(View()), c, order, stamp, now)
      ensures ended == EndedBy(old(View()), c, order, stamp, now)
    {
      ghost var s := View();
      ended, order := [], [];
      var initial := leases.Keys;
      var visited: set<string> := {};
      var more := true;
      while more
        invariant View() == Visits(s, c, order, stamp, now) && ended == EndedBy(s, c, order, stamp, now)
        invariant LegalPrefix(s, c, order, stamp, now) && visited == Elems(order)
        invariant initial == s.leases.Keys && initial <= leases.Keys
        invariant !more ==> initial <= visited
        decreases Slots(queues), leases.Keys - visited, more
      {
        if initial <= visited {
          more := *;
        }
        if !more || leases.Keys <= visited {
          more := false;
        } else {
          var id :| id in leases.Keys && id !in visited;
          VisitsSnoc(s, c, order, id, stamp, now);
          OrderSnoc(s, c, order, id, stamp, now);
          VisitUsesSlot(View(), c, id, stamp, now);
          var hit := VisitLease(c, id, stamp, now);
          if hit {
            ended := ended + [id];
          }
          visited := visited + {id};
          order := order + [id];
        }
      }
    }

    method ReleaseAll(session: string, now: Time) returns (released: seq<string>, ghost order: seq<string>)
      requires QueuesOk(queues, asked, outcomes)
      requires store.Valid()
      modifies this, store
      ensures LegalOrder(old(View()), OwnedBy(session), order, now, now)
      ensures View() == M.ReleaseAll(old(View()), session, order, now)
      ensures released == EndedBy(old(View()), OwnedBy(session), order, now, now)
      ensures Persisted(released != [])
    {
      VisitsKeepQueuesForAll(View(), OwnedBy(session), now, now);
      released, order := EndMatching(OwnedBy(session), now, now);
      DropSession(session);
      if |released| > 0 {
        Persist();
      }
    }

    /** ReleaseAll's second loop: a dying session's waiters leave every queue with an error. */
    method DropSession(session: string)
      requires QueuesOk(queues, asked, outcomes)
      modifies this
      ensures View() == DropWaiters(old(View()), session)
    {
      ghost var s := View();
      var todo := queues.Keys;
      NoneOrAllWithout(queues, session);
      assert TicketsAmong(s.queues, s.queues.Keys - todo, session) == {};
      while todo != {}
        invariant todo <= s.queues.Keys
        invariant View() == s.(queues := queues, outcomes := outcomes)
        invariant queues == PartlyWithout(s.queues, todo, session)
        invariant outcomes == WithDropped(s.outcomes, TicketsAmong(s.queues, s.queues.Keys - todo, session))
      {
        var r :| r in todo;
        DropFrom(r, session, s, s.queues.Keys - todo);
        TicketsAmongGrow(s.queues, s.queues.Keys - todo, r, session);
        PartlyWithoutStep(s.queues, todo, r, session);
        assert s.queues.Keys - (todo - {r}) == (s.queues.Keys - todo) + {r};
        todo := todo - {r};
      }
      NoneOrAllWithout(s.queues, session);
      assert s.queues.Keys - todo == s.queues.Keys;
      AllDropped(s, session);
    }

    /** One waiter of the queue stays, or its channel is closed. */
    method DropAt(q: seq<Waiter>, i: nat, session: string, ghost before: Outcomes, ghost among: set<nat>)
      returns (keep: bool)
      requires i < |q| && q[i].ticket !in before && q[i].ticket !in among
      requires q[i].ticket !in TicketsIn(q[..i], session)
      requires outcomes == WithDropped(before, among + TicketsIn(q[..i], session))
      modifies this
      ensures keep == (q[i].session != session) && View() == old(View()).(outcomes := outcomes)
      ensures outcomes == WithDropped(before, among + TicketsIn(q[..i + 1], session))
    {
      DropNext(before, among, q, i, session);
      keep := q[i].session != session;
      if !keep {
        CloseWaiter(q[i].ticket, Dropped);
      }
    }

    /** `kept := q[:0]` over one queue. */
    method DropFrom(r: string, session: string, ghost s: State, ghost done: set<string>)
      requires QueuesOk(s.queues, s.asked, s.outcomes) && r in queues && r in s.queues && r !in done
      requires queues[r] == s.queues[r]
      requires outcomes == WithDropped(s.outcomes, TicketsAmong(s.queues, done, session))
      modifies this
      ensures View() == old(View()).(queues := old(queues)[r := Survivors(s.queues[r], session)], outcomes := outcomes)
      ensures outcomes ==
              WithDropped(s.outcomes, TicketsAmong(s.queues, done, session) + TicketsIn(s.queues[r], session))
    {
      var q := queues[r];
      var kept: seq<Waiter> := [];
      ghost var among := TicketsAmong(s.queues, done, session);
      for i := 0 to |q|
        invariant kept == Survivors(q[..i], session)
        invariant View() == old(View()).(outcomes := outcomes)
        invariant outcomes == WithDropped(s.outcomes, among + TicketsIn(q[..i], session))
      {
        NotYetClosed(s, done, r, i, session);
        SurvivorsNext(q, i, session);
        var keep := DropAt(q, i, session, s.outcomes, among);
        if keep {
          kept := kept + [q[i]];
        }
      }
      assert q[..|q|] == q;
      queues := queues[r := kept];
    }

    method Sweep(cutoff: Time, now: Time) returns (expired: seq<string>, ghost order: seq<string>)
      requires store.Valid()
      modifies this, store
      ensures LegalOrder(old(View()), Overdue(cutoff), order, cutoff, now)
      ensures View() == M.Sweep(old(View()), cutoff, order, now)
      ensures expired == EndedBy(old(View()), Overdue(cutoff), order, cutoff, now)
      ensures Persisted(expired != [])
    {
      expired, order := EndMatching(Overdue(cutoff), cutoff, now);
      if |expired| > 0 {
        Persist();
      }
    }

    method ReapOrphans(live: set<string>, now: Time) returns (reaped: seq<string>, ghost order: seq<string>)
      requires store.Valid()
      modifies this, store
      ensures LegalOrder(old(View()), Unowned(live), order, now, now)
      ensures View() == M.ReapOrphans(old(View()), live, order, now)
      ensures reaped == EndedBy(old(View()), Unowned(live), order, now, now)
      ensures Persisted(reaped != [])
    {
      reaped, order := EndMatching(Unowned(live), now, now);
      if |reaped| > 0 {
        Persist();
      }
    }
  }
}
