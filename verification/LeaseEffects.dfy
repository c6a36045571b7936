/** What one call of each operation does, said without its body. */
module LeaseEffects {
  import opened Options
  import opened LeaseModel
  import opened LeaseInvariant
  import opened LeaseHandoff

  /** Everything but the lease table and its index is as before. */
  predicate OnlyTheTable(s: State, s': State) {
    s'.res == s.res && s'.queues == s.queues && s'.asked == s.asked && s'.outcomes == s.outcomes
  }

  /** An acquire is granted at once exactly when there is room, and then nobody waits: one new active lease
      with the requested deadline. Otherwise the resource is full and the request goes last in its queue. */
  lemma AcquireEffect(s: State, r: string, session: string, ttl: int, now: Time)
    requires Inv(s)
    ensures var s' := Acquire(s, r, session, ttl, now);
            match AcquireAnswer(s, r)
            case UnknownResource => r !in s.res && s' == s
            case Immediately(id) =>
              && r in s.res && |Holders(s, r)| < CapacityOf(s.res[r]) && Queue(s, r) == []
              && id !in s.leases && OnlyTheTable(s, s')
              && s'.leases == s.leases[id := Lease(id, r, session, now, if ttl > 0 then Some(now + ttl) else None,
                                                   Active, None)]
            case MustWait(t) =>
              && r in s.res && |Holders(s, r)| == CapacityOf(s.res[r])
              && s'.leases == s.leases && s'.holders == s.holders && s'.outcomes == s.outcomes
              && t !in s.outcomes && (forall w | w in Queue(s, r) :: w.ticket < t)
              && Queue(s', r) == Queue(s, r) + [Waiter(t, session)]
              && forall o | o != r :: Queue(s', o) == Queue(s, o)
  {
    if r in s.res {
      assert |Holders(s, r)| <= CapacityOf(s.res[r]);
      if HasRoom(s, r) {
        FreshId(s);
        assert NoIdleSlot(s.res, s.holders, s.queues, r);
      } else {
        forall w | w in Queue(s, r) ensures w.ticket < |s.asked| {
          assert w in QueueOf(s.queues, r) && Open(s.asked, s.outcomes, r, w);
        }
      }
    }
  }

  /** The ticket's entry is gone from the queue, the others have closed ranks. */
  ghost predicate EntryGone(q: seq<Waiter>, t: nat, q': seq<Waiter>) {
    exists i :: 0 <= i < |q| && q[i].ticket == t && q' == q[..i] + q[i + 1..]
  }

  lemma WithoutTicketGone(q: seq<Waiter>, t: nat)
    requires Increasing(q) && Queued(q, t)
    ensures EntryGone(q, t, WithoutTicket(q, t)) && !Queued(WithoutTicket(q, t), t)
  {
    var i :| 0 <= i < |q| && q[i].ticket == t;
    WithoutTicketIs(q, t, i);
    TicketOnce(q, t, i);
  }

  lemma TicketOnce(q: seq<Waiter>, t: nat, i: nat)
    requires Increasing(q) && i < |q| && q[i].ticket == t
    ensures !Queued(q[..i] + q[i + 1..], t)
  {
    var q' := q[..i] + q[i + 1..];
    forall j | 0 <= j < |q'| ensures q'[j].ticket != t {
      assert q'[j] == q[if j < i then j else j + 1];
    }
  }

  /** A cancel takes out the caller's entry, if it still waits, and nothing else: neither a lease it was
      granted meanwhile nor anybody's place. */
  lemma CancelEffect(s: State, r: string, t: nat)
    requires Inv(s)
    ensures var s' := Cancel(s, r, t);
            && s'.res == s.res && s'.leases == s.leases && s'.holders == s.holders
            && s'.asked == s.asked && s'.outcomes == s.outcomes && !Queued(Queue(s', r), t)
            && (forall o | o != r :: Queue(s', o) == Queue(s, o))
            && (if Queued(Queue(s, r), t) then EntryGone(Queue(s, r), t, Queue(s', r)) else s' == s)
  {
    assert Increasing(QueueOf(s.queues, r));
    if Queued(Queue(s, r), t) { WithoutTicketGone(Queue(s, r), t); }
  }

  /** Releasing or expiring an active lease ends it in that state at that time and hands its slot to the
      head waiter; anything else is refused without effect. */
  lemma EndOneEffect(s: State, id: string, now: Time)
    requires Inv(s)
    ensures IsActive(s, id) ==>
              && HandsOff(s, id, LeaseState.Released, now, now, NewId(s), Release(s, id, now))
              && HandsOff(s, id, LeaseState.Expired, now, now, NewId(s), ExpireNow(s, id, now))
    ensures !IsActive(s, id) ==> Release(s, id, now) == s && ExpireNow(s, id, now) == s
  {
    if IsActive(s, id) {
      HandOffEffect(s, id, LeaseState.Released, now, now);
      HandOffEffect(s, id, LeaseState.Expired, now, now);
    }
  }

  /** A renewal moves the deadline of an active lease, later or earlier, and nothing else; no other
      deadline and no queue is affected. */
  lemma RenewEffect(s: State, id: string, ttl: int, now: Time, other: string)
    ensures var s' := Renew(s, id, ttl, now);
            && OnlyTheTable(s, s') && s'.holders == s.holders && s'.leases.Keys == s.leases.Keys
            && (other in s.leases && other != id ==> s'.leases[other] == s.leases[other])
            && (id in s.leases && s.leases[id].state == Active && ttl > 0 ==>
                  s'.leases[id].expires == Some(now + ttl)
                  && s'.leases[id].(expires := s.leases[id].expires) == s.leases[id])
            && (id !in s.leases || s.leases[id].state != Active || ttl <= 0 ==> s' == s)
  {
  }

  /** Registering a resource never touches one that exists; a new exclusive or capacity resource has one slot,
      free for the next request. */
  lemma EnsureEffect(s: State, r: string, mode: LeaseMode)
    requires Inv(s)
    ensures var s' := EnsureResource(s, r, mode);
            && r in s'.res && (forall o | o in s.res :: o in s'.res && s'.res[o] == s.res[o])
            && s'.leases == s.leases && s'.holders == s.holders && s'.queues == s.queues
            && (r !in s.res ==> s'.res[r] == Resource(mode, if mode == Capacity then 1 else 0) && HasRoom(s', r))
            && (r !in s.res && (mode == Exclusive || mode == Capacity) ==> CapacityOf(s'.res[r]) == 1)
  {
    if r !in s.res {
      forall k ensures k !in HoldersOf(s.holders, r) {
        assert k in HoldersOf(s.holders, r) <==> ActiveOn(s.leases, r, k);
      }
      assert HoldersOf(s.holders, r) == {};
    }
  }

  // What decides, in the terms of the tables

  /** The leases that are active on r now. */
  function InUse(leases: Leases, r: string): set<string> {
    set id | id in leases && leases[id].state == Active && leases[id].resource == r
  }

  lemma InUseIsHeld(s: State, r: string)
    requires HoldersExact(s.leases, s.holders)
    ensures InUse(s.leases, r) == Holders(s, r)
  {
    forall id ensures id in InUse(s.leases, r) <==> id in Holders(s, r) {
      assert id in HoldersOf(s.holders, r) <==> ActiveOn(s.leases, r, id);
    }
  }

  /** A registered resource is granted at once: an exclusive one, or one of no known mode, if nobody has it; a shared
      one up to 2^30 times; a pool while fewer leases are out than it has places, one if it names none. */
  lemma AcquireByMode(s: State, r: string)
    requires Inv(s) && r in s.res
    ensures var n := |InUse(s.leases, r)|;
            AcquireAnswer(s, r).Immediately? <==>
            match s.res[r].mode
            case Exclusive => n == 0
            case Shared => n < 1_073_741_824
            case Capacity => if s.res[r].capacity > 0 then n < s.res[r].capacity else n == 0
            case OtherMode(_) => n == 0
  {
    InUseIsHeld(s, r);
  }

  /** However a daemon runs, an exclusive resource never has two active leases, and a pool never more than it has
      places. */
  lemma NeverOverbooked(res: map<string, Resource>, actions: seq<Action>, r: string)
    requires var s := Run(Start(res), actions); r in s.res
    ensures var s := Run(Start(res), actions);
            && (s.res[r].mode == Exclusive ==> |InUse(s.leases, r)| <= 1)
            && (s.res[r].mode == Capacity && s.res[r].capacity > 0 ==> |InUse(s.leases, r)| <= s.res[r].capacity)
  {
    StartInv(res);
    RunKeepsInv(Start(res), actions);
    InUseIsHeld(Run(Start(res), actions), r);
  }

  /** A sweep expires an active lease exactly if its deadline is before the cutoff, and stamps it with the cutoff;
      a lease without a deadline, or with one that has not passed, is as it was. */
  lemma SweepEffect(s: State, cutoff: Time, order: seq<string>, now: Time, id: string)
    requires Inv(s) && LegalOrder(s, Overdue(cutoff), order, cutoff, now) && IsActive(s, id)
    ensures var l, s' := s.leases[id], Sweep(s, cutoff, order, now);
            && id in s'.leases
            && s'.leases[id] == if l.expires.Some? && l.expires.value < cutoff
                                then l.(state := LeaseState.Expired, ended := Some(cutoff)) else l
  {
    OldLeasesFate(s, Overdue(cutoff), order, cutoff, now);
  }

  /** Reaping expires an active lease exactly if its session is not among the live ones. */
  lemma ReapEffect(s: State, live: set<string>, order: seq<string>, now: Time, id: string)
    requires Inv(s) && LegalOrder(s, Unowned(live), order, now, now) && IsActive(s, id)
    ensures var l, s' := s.leases[id], ReapOrphans(s, live, order, now);
            && id in s'.leases
            && s'.leases[id] == if l.session in live then l
                                else l.(state := LeaseState.Expired, ended := Some(now))
  {
    OldLeasesFate(s, Unowned(live), order, now, now);
  }

  lemma SlotPassed(s: State, id: string, to: LeaseState, now: Time, s': State)
    requires id in s.leases && HandsOff(s, id, to, now, now, NewId(s), s') && NewId(s) != id
    ensures var l := s.leases[id];
            && id in s'.leases && s'.leases[id] == l.(state := to, ended := Some(now))
            && (Queue(s, l.resource) != [] ==>
                  var w, k := Queue(s, l.resource)[0], NewId(s);
                  && k !in s.leases && k in s'.leases
                  && s'.leases[k] == Lease(k, l.resource, w.session, now, None, Active, None))
  {
  }

  /** Giving back or expiring one lease: it has ended, and the first in line has a new active lease without a
      deadline on the same resource. */
  lemma SlotEffect(s: State, id: string, now: Time)
    requires Inv(s) && IsActive(s, id)
    ensures var l, a, b := s.leases[id], Release(s, id, now), ExpireNow(s, id, now);
            && id in a.leases && a.leases[id] == l.(state := LeaseState.Released, ended := Some(now))
            && id in b.leases && b.leases[id] == l.(state := LeaseState.Expired, ended := Some(now))
            && (Queue(s, l.resource) != [] ==>
                  var w, k := Queue(s, l.resource)[0], NewId(s);
                  && k !in s.leases && k in a.leases && k in b.leases && a.leases[k] == b.leases[k]
                  && a.leases[k] == Lease(k, l.resource, w.session, now, None, Active, None))
  {
    FreshId(s);
    HandOffEffect(s, id, LeaseState.Released, now, now);
    HandOffEffect(s, id, LeaseState.Expired, now, now);
    SlotPassed(s, id, LeaseState.Released, now, Release(s, id, now));
    SlotPassed(s, id, LeaseState.Expired, now, ExpireNow(s, id, now));
  }

  // Filling a pool

  lemma InUseGrows(leases: Leases, l: Lease)
    requires l.id !in leases && l.state == Active
    ensures |InUse(leases[l.id := l], l.resource)| == |InUse(leases, l.resource)| + 1
  {
    assert InUse(leases[l.id := l], l.resource) == InUse(leases, l.resource) + {l.id};
  }

  lemma AskedOnce(s: State, r: string, session: string, ttl: int, now: Time)
    requires Inv(s) && r in s.res
    ensures var s', granted := Acquire(s, r, session, ttl, now), AcquireAnswer(s, r).Immediately?;
            && s'.res == s.res
            && |InUse(s'.leases, r)| == |InUse(s.leases, r)| + (if granted then 1 else 0)
            && |Queue(s', r)| == |Queue(s, r)| + (if granted then 0 else 1)
  {
    var s' := Acquire(s, r, session, ttl, now);
    AcquireEffect(s, r, session, ttl, now);
    if AcquireAnswer(s, r).Immediately? {
      var id := AcquireAnswer(s, r).lease;
      InUseGrows(s.leases, s'.leases[id]);
      assert s'.leases == s.leases[id := s'.leases[id]];
    }
  }

  /** n requests have been made of a pool that nobody used. */
  predicate Filled(s: State, s': State, r: string, n: nat)
    requires r in s.res
  {
    var c := s.res[r].capacity;
    && s'.res == s.res
    && |InUse(s'.leases, r)| == (if n < c then n else c)
    && |Queue(s', r)| == (if n < c then 0 else n - c)
  }

  lemma FilledMore(s: State, v: State, r: string, n: nat, session: string, ttl: int, now: Time)
    requires r in s.res && s.res[r].mode == Capacity && s.res[r].capacity > 0
    requires Inv(v) && Filled(s, v, r, n)
    ensures Filled(s, Acquire(v, r, session, ttl, now), r, n + 1)
    ensures AcquireAnswer(v, r).Immediately? <==> n < s.res[r].capacity
  {
    AcquireByMode(v, r);
    AskedOnce(v, r, session, ttl, now);
  }

  lemma {:induction false} PoolFills(s: State, r: string, asks: seq<Action>)
    requires Inv(s) && r in s.res && s.res[r].mode == Capacity && s.res[r].capacity > 0
    requires InUse(s.leases, r) == {} && Queue(s, r) == []
    requires forall a | a in asks :: a.DoAcquire? && a.resource == r
    ensures Filled(s, Run(s, asks), r, |asks|)
  {
    if asks != [] {
      var p, a := asks[..|asks| - 1], asks[|asks| - 1];
      PoolFills(s, r, p);
      RunKeepsInv(s, p);
      FilledMore(s, Run(s, p), r, |p|, a.session, a.ttl, a.now);
    }
  }

  /** A pool that nobody uses serves the first c requests at once, c being its places, and makes every further one
      wait. */
  lemma PoolFillsUp(s: State, r: string, asks: seq<Action>, i: nat)
    requires Inv(s) && r in s.res && s.res[r].mode == Capacity && s.res[r].capacity > 0
    requires InUse(s.leases, r) == {} && Queue(s, r) == []
    requires i < |asks| && forall a | a in asks :: a.DoAcquire? && a.resource == r
    ensures AcquireAnswer(Run(s, asks[..i]), r).Immediately? <==> i < s.res[r].capacity
    ensures !AcquireAnswer(Run(s, asks[..i]), r).Immediately? ==>
              AcquireAnswer(Run(s, asks[..i]), r).MustWait? && |Queue(Run(s, asks[..i]), r)| == i - s.res[r].capacity
  {
    var v := Run(s, asks[..i]);
    PoolFills(s, r, asks[..i]);
    RunKeepsInv(s, asks[..i]);
    FilledMore(s, v, r, i, "", 0, 0);
  }
}
