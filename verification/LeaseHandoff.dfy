/** The loops that end leases while handing the freed slots to waiters: ReleaseAll, Sweep and
    ReapOrphans insert into the map they range over, so the visiting order is any that Go allows. */
module LeaseHandoff {
  import opened Options
  import opened Finite
  import opened LeaseModel
  import opened LeaseInvariant

  // One hand-off

  function EndedLease(l: Lease, to: LeaseState, stamp: Time): Lease {
    l.(state := to, ended := Some(stamp))
  }

  /** What the head waiter of r gets. */
  function HandedOver(id: string, r: string, w: Waiter, now: Time): Lease {
    Lease(id, r, w.session, now, None, Active, None)
  }

  /** s' is s with lease id ended and its slot handed to the head waiter of its resource, if any, as
      a new lease `newId`; nothing else is touched. */
  ghost predicate HandsOff(s: State, id: string, to: LeaseState, stamp: Time, now: Time, newId: string, s': State)
    requires id in s.leases
  {
    var r := s.leases[id].resource;
    var q := Queue(s, r);
    var ended := s.leases[id := EndedLease(s.leases[id], to, stamp)];
    && s'.res == s.res && s'.asked == s.asked
    && if q == [] then
         s'.leases == ended && s'.queues == s.queues && s'.outcomes == s.outcomes
       else
         && newId !in s.leases && Open(s.asked, s.outcomes, r, q[0])
         && s'.leases == ended[newId := HandedOver(newId, r, q[0], now)]
         && s'.queues == s.queues[r := q[1..]]
         && s'.outcomes == s.outcomes[q[0].ticket := Granted(newId)]
  }

  lemma HandOffNobody(s: State, id: string, to: LeaseState, stamp: Time, now: Time, newId: string)
    requires id in s.leases && Queue(s, s.leases[id].resource) == []
    ensures HandsOff(s, id, to, stamp, now, newId, EndAndHandOff(s, id, to, stamp, now))
  {
  }

  lemma HandOffHead(s: State, id: string, to: LeaseState, stamp: Time, now: Time)
    requires id in s.leases && NewId(s) !in s.leases
    requires var r := s.leases[id].resource;
             && r in s.res && HasRoom(End(s, id, to, stamp), r) && Queue(s, r) != []
             && Open(s.asked, s.outcomes, r, Queue(s, r)[0])
    ensures HandsOff(s, id, to, stamp, now, NewId(s), EndAndHandOff(s, id, to, stamp, now))
  {
  }

  lemma HandOffEffect(s: State, id: string, to: LeaseState, stamp: Time, now: Time)
    requires Inv(s) && IsActive(s, id) && to != Active
    ensures HandsOff(s, id, to, stamp, now, NewId(s), EndAndHandOff(s, id, to, stamp, now))
  {
    var r := s.leases[id].resource;
    if Queue(s, r) == [] {
      HandOffNobody(s, id, to, stamp, now, NewId(s));
    } else {
      EndKeepsCore(s, id, to, stamp);
      FreshId(s);
      assert Queue(s, r)[0] in QueueOf(s.queues, r);
      assert |Holders(s, r)| <= CapacityOf(s.res[r]);
      HandOffHead(s, id, to, stamp, now);
    }
  }

  // The whole loop

  /** The active leases on r the loop is there to end. */
  function DoomedOn(s: State, c: Criterion, r: string): set<string> {
    set id | id in s.leases && Doomed(s, c, id) && s.leases[id].resource == r
  }

  /** How many of r's waiters have been served once the leases in `seen` have been visited. */
  function Served(s: State, c: Criterion, seen: set<string>, r: string): nat {
    Min(|DoomedOn(s, c, r) * seen|, |Queue(s, r)|)
  }

  /** Ticket t was one of those served. */
  predicate ServedTicket(s: State, c: Criterion, seen: set<string>, t: nat) {
    t < |s.asked| && exists i :: 0 <= i < Served(s, c, seen, s.asked[t].resource)
                                 && Queue(s, s.asked[t].resource)[i].ticket == t
  }

  predicate QueueServed(s: State, c: Criterion, seen: set<string>, s': State, r: string) {
    Queue(s', r) == Queue(s, r)[Served(s, c, seen, r)..]
  }

  ghost predicate OldLeasesEnded(s: State, c: Criterion, seen: set<string>, stamp: Time, s': State) {
    forall id | id in s.leases ::
      id in s'.leases
      && s'.leases[id] == if Doomed(s, c, id) && id in seen
                          then EndedLease(s.leases[id], EndState(c), stamp) else s.leases[id]
  }

  /** The i-th waiter of r now holds an active lease that did not exist before. */
  predicate HoldsNewLease(s: State, s': State, r: string, w: Waiter, now: Time) {
    && WasGranted(s'.outcomes, w.ticket)
    && var id := s'.outcomes[w.ticket].lease;
       id !in s.leases && id in s'.leases && s'.leases[id] == HandedOver(id, r, w, now)
  }

  predicate ServedHold(s: State, c: Criterion, seen: set<string>, now: Time, s': State, r: string) {
    forall i | 0 <= i < Served(s, c, seen, r) :: HoldsNewLease(s, s', r, Queue(s, r)[i], now)
  }

  /** Only served tickets are newly settled, and every new lease belongs to one of them. */
  ghost predicate OnlyServed(s: State, c: Criterion, seen: set<string>, s': State) {
    && (forall t | t in s.outcomes :: t in s'.outcomes && s'.outcomes[t] == s.outcomes[t])
    && (forall t | t in s'.outcomes && t !in s.outcomes :: ServedTicket(s, c, seen, t))
    && (forall id | id in s'.leases && id !in s.leases ::
          exists t :: t in s'.outcomes && t !in s.outcomes && s'.outcomes[t] == Granted(id))
  }

  /** The state s' reached from s when the loop has visited `seen`. */
  ghost predicate Progress(s: State, c: Criterion, seen: set<string>, stamp: Time, now: Time, s': State) {
    && s'.res == s.res && s'.asked == s.asked
    && (forall r :: QueueServed(s, c, seen, s', r))
    && (forall r :: ServedHold(s, c, seen, now, s', r))
    && OldLeasesEnded(s, c, seen, stamp, s')
    && OnlyServed(s, c, seen, s')
  }

  /** No waiter that the loop will serve is itself a target: none of the first k waiters of a resource
      with k doomed leases would get a lease the loop is there to end. */
  ghost predicate NoRematch(s: State, c: Criterion) {
    forall r, i | 0 <= i < Min(|DoomedOn(s, c, r)|, |Queue(s, r)|) ::
      !Matches(c, Queue(s, r)[i].session, None)
  }

  ghost predicate NothingDoomed(s: State, c: Criterion) {
    forall id | id in s.leases :: !Doomed(s, c, id)
  }

  lemma ProgressStart(s: State, c: Criterion, stamp: Time, now: Time)
    ensures Progress(s, c, {}, stamp, now, s)
  {
    forall r ensures QueueServed(s, c, {}, s, r) && ServedHold(s, c, {}, now, s, r) {
      assert DoomedOn(s, c, r) * {} == {};
    }
  }

  /** Visiting a doomed lease serves one more waiter of its resource; nothing else serves any. */
  lemma ServedStep(s: State, c: Criterion, seen: set<string>, id: string, r: string)
    requires id !in seen
    ensures Served(s, c, seen + {id}, r) ==
            if id in DoomedOn(s, c, r) then Min(Served(s, c, seen, r) + 1, |Queue(s, r)|)
            else Served(s, c, seen, r)
  {
    var d := DoomedOn(s, c, r);
    if id in d {
      assert d * (seen + {id}) == d * seen + {id};
    } else {
      assert d * (seen + {id}) == d * seen;
    }
  }

  lemma TicketStaysServed(s: State, c: Criterion, seen: set<string>, id: string, t: nat)
    requires id !in seen && ServedTicket(s, c, seen, t)
    ensures ServedTicket(s, c, seen + {id}, t)
  {
    var r := s.asked[t].resource;
    ServedStep(s, c, seen, id, r);
    var i :| 0 <= i < Served(s, c, seen, r) && Queue(s, r)[i].ticket == t;
    assert 0 <= i < Served(s, c, seen + {id}, r);
  }

  lemma OnlyServedGrows(s: State, c: Criterion, seen: set<string>, id: string, s': State)
    requires id !in seen && OnlyServed(s, c, seen, s')
    ensures OnlyServed(s, c, seen + {id}, s')
  {
    forall t | t in s'.outcomes && t !in s.outcomes ensures ServedTicket(s, c, seen + {id}, t) {
      TicketStaysServed(s, c, seen, id, t);
    }
  }

  /** Visiting an entry that is not doomed changes nothing, and counts for nothing. */
  lemma ProgressSkip(s: State, c: Criterion, seen: set<string>, id: string, stamp: Time, now: Time, s': State)
    requires Progress(s, c, seen, stamp, now, s') && id !in seen && !Doomed(s', c, id)
    ensures Progress(s, c, seen + {id}, stamp, now, s')
  {
    OnlyServedGrows(s, c, seen, id, s');
    forall r ensures QueueServed(s, c, seen + {id}, s', r) && ServedHold(s, c, seen + {id}, now, s', r) {
      ServedStep(s, c, seen, id, r);
      assert QueueServed(s, c, seen, s', r) && ServedHold(s, c, seen, now, s', r);
    }
  }

  lemma EndQueue(s: State, c: Criterion, seen: set<string>, id: string, r: string, s': State, s'': State)
    requires id !in seen && QueueServed(s, c, seen, s', r)
    requires Queue(s'', r) == if id in DoomedOn(s, c, r) && Queue(s', r) != [] then Queue(s', r)[1..]
                              else Queue(s', r)
    ensures QueueServed(s, c, seen + {id}, s'', r)
  {
    ServedStep(s, c, seen, id, r);
  }

  lemma EndServed(s: State, c: Criterion, seen: set<string>, id: string, now: Time, r: string, s': State, s'': State)
    requires id !in seen && QueueServed(s, c, seen, s', r) && ServedHold(s, c, seen, now, s', r)
    requires forall w | HoldsNewLease(s, s', r, w, now) :: HoldsNewLease(s, s'', r, w, now)
    requires id in DoomedOn(s, c, r) && Queue(s', r) != [] ==> HoldsNewLease(s, s'', r, Queue(s', r)[0], now)
    ensures ServedHold(s, c, seen + {id}, now, s'', r)
  {
    ServedStep(s, c, seen, id, r);
    var n := Served(s, c, seen, r);
    forall i | 0 <= i < Served(s, c, seen + {id}, r) ensures HoldsNewLease(s, s'', r, Queue(s, r)[i], now) {
      if i < n {
        assert HoldsNewLease(s, s', r, Queue(s, r)[i], now);
      } else {
        assert Queue(s', r)[0] == Queue(s, r)[n];
      }
    }
  }

  lemma HandOffKeepsNew(s: State, id: string, to: LeaseState, stamp: Time, now: Time,
                        s': State, newId: string, s'': State, r: string, w: Waiter)
    requires id in s.leases && id in s'.leases && forall k | k in s.leases :: k in s'.leases
    requires HandsOff(s', id, to, stamp, now, newId, s'')
    requires HoldsNewLease(s, s', r, w, now)
    ensures HoldsNewLease(s, s'', r, w, now)
  {
  }

  lemma EndTickets(s: State, c: Criterion, seen: set<string>, id: string, stamp: Time, now: Time,
                   s': State, newId: string, s'': State)
    requires id !in seen && id in s.leases && id in s'.leases && Doomed(s, c, id) && s'.leases[id] == s.leases[id]
    requires s'.asked == s.asked && QueueServed(s, c, seen, s', s.leases[id].resource)
    requires forall t | t in s'.outcomes && t !in s.outcomes :: ServedTicket(s, c, seen, t)
    requires HandsOff(s', id, EndState(c), stamp, now, newId, s'')
    ensures forall t | t in s''.outcomes && t !in s.outcomes :: ServedTicket(s, c, seen + {id}, t)
  {
    var r := s.leases[id].resource;
    ServedStep(s, c, seen, id, r);
    forall t | t in s''.outcomes && t !in s.outcomes ensures ServedTicket(s, c, seen + {id}, t) {
      if t in s'.outcomes {
        TicketStaysServed(s, c, seen, id, t);
      } else {
        assert t == Queue(s', r)[0].ticket;
        assert Queue(s, r)[Served(s, c, seen, r)].ticket == t;
      }
    }
  }

  lemma EndLeases(s: State, id: string, to: LeaseState, stamp: Time, now: Time, s': State, newId: string, s'': State)
    requires id in s.leases && id in s'.leases && HandsOff(s', id, to, stamp, now, newId, s'')
    requires forall t | t in s.outcomes :: t in s'.outcomes
    requires forall k | k in s'.leases && k !in s.leases ::
               exists t :: t in s'.outcomes && t !in s.outcomes && s'.outcomes[t] == Granted(k)
    ensures forall k | k in s''.leases && k !in s.leases ::
              exists t :: t in s''.outcomes && t !in s.outcomes && s''.outcomes[t] == Granted(k)
  {
    forall k | k in s''.leases && k !in s.leases
      ensures exists t :: t in s''.outcomes && t !in s.outcomes && s''.outcomes[t] == Granted(k)
    {
      if k in s'.leases {
        var t :| t in s'.outcomes && t !in s.outcomes && s'.outcomes[t] == Granted(k);
        assert s''.outcomes[t] == Granted(k);
      } else {
        assert s''.outcomes[Queue(s', s'.leases[id].resource)[0].ticket] == Granted(k);
      }
    }
  }

  lemma EndOnly(s: State, c: Criterion, seen: set<string>, id: string, stamp: Time, now: Time,
                s': State, newId: string, s'': State)
    requires id !in seen && id in s.leases && id in s'.leases && Doomed(s, c, id) && s'.leases[id] == s.leases[id]
    requires s'.asked == s.asked && OnlyServed(s, c, seen, s')
    requires QueueServed(s, c, seen, s', s.leases[id].resource)
    requires HandsOff(s', id, EndState(c), stamp, now, newId, s'')
    ensures OnlyServed(s, c, seen + {id}, s'')
  {
    EndTickets(s, c, seen, id, stamp, now, s', newId, s'');
    EndLeases(s, id, EndState(c), stamp, now, s', newId, s'');
  }

  lemma EndAt(s: State, c: Criterion, seen: set<string>, id: string, stamp: Time, now: Time,
              s': State, newId: string, s'': State, o: string)
    requires id !in seen && id in s.leases && id in s'.leases && Doomed(s, c, id) && s'.leases[id] == s.leases[id]
    requires QueueServed(s, c, seen, s', o) && ServedHold(s, c, seen, now, s', o)
    requires forall k | k in s.leases :: k in s'.leases
    requires HandsOff(s', id, EndState(c), stamp, now, newId, s'')
    ensures QueueServed(s, c, seen + {id}, s'', o) && ServedHold(s, c, seen + {id}, now, s'', o)
  {
    assert id in DoomedOn(s, c, o) <==> o == s.leases[id].resource;
    EndQueue(s, c, seen, id, o, s', s'');
    forall w | HoldsNewLease(s, s', o, w, now) ensures HoldsNewLease(s, s'', o, w, now) {
      HandOffKeepsNew(s, id, EndState(c), stamp, now, s', newId, s'', o, w);
    }
    EndServed(s, c, seen, id, now, o, s', s'');
  }

  lemma EndOld(s: State, c: Criterion, seen: set<string>, id: string, stamp: Time, now: Time,
               s': State, newId: string, s'': State)
    requires id !in seen && id in s.leases && OldLeasesEnded(s, c, seen, stamp, s') && Doomed(s, c, id)
    requires HandsOff(s', id, EndState(c), stamp, now, newId, s'')
    ensures OldLeasesEnded(s, c, seen + {id}, stamp, s'')
  {
  }

  lemma ProgressEnd(s: State, c: Criterion, seen: set<string>, id: string, stamp: Time, now: Time,
                    s': State, newId: string, s'': State)
    requires Progress(s, c, seen, stamp, now, s')
    requires id !in seen && id in s.leases && Doomed(s', c, id)
    requires HandsOff(s', id, EndState(c), stamp, now, newId, s'')
    ensures Progress(s, c, seen + {id}, stamp, now, s'')
  {
    assert s'.leases[id] == s.leases[id];
    assert QueueServed(s, c, seen, s', s.leases[id].resource);
    EndOnly(s, c, seen, id, stamp, now, s', newId, s'');
    EndOld(s, c, seen, id, stamp, now, s', newId, s'');
    forall o ensures QueueServed(s, c, seen + {id}, s'', o) && ServedHold(s, c, seen + {id}, now, s'', o) {
      assert QueueServed(s, c, seen, s', o) && ServedHold(s, c, seen, now, s', o);
      EndAt(s, c, seen, id, stamp, now, s', newId, s'', o);
    }
  }

  // Orders

  /** The loop never visits a lease it created itself and would end. */
  ghost predicate Tame(s: State, c: Criterion, order: seq<string>) {
    NoRematch(s, c) || Elems(order) <= s.leases.Keys
  }

  /** A lease created by the loop belongs to one of the first k waiters of its resource. */
  lemma NewLeaseUndoomed(s: State, c: Criterion, seen: set<string>, stamp: Time, now: Time, s': State, id: string)
    requires Progress(s, c, seen, stamp, now, s') && NoRematch(s, c)
    requires id in s'.leases && id !in s.leases
    ensures !Doomed(s', c, id)
  {
    var t :| t in s'.outcomes && t !in s.outcomes && s'.outcomes[t] == Granted(id);
    assert ServedTicket(s, c, seen, t);
    var r := s.asked[t].resource;
    var i :| 0 <= i < Served(s, c, seen, r) && Queue(s, r)[i].ticket == t;
    assert ServedHold(s, c, seen, now, s', r);
    assert HoldsNewLease(s, s', r, Queue(s, r)[i], now);
    SubsetCount(DoomedOn(s, c, r) * seen, DoomedOn(s, c, r));
  }

  lemma {:induction false} LoopProgress(s: State, c: Criterion, order: seq<string>, stamp: Time, now: Time)
    requires Inv(s) && NoRepeats(order) && Tame(s, c, order)
    ensures Progress(s, c, Elems(order), stamp, now, Visits(s, c, order, stamp, now))
  {
    if order == [] {
      assert Elems(order) == {};
      ProgressStart(s, c, stamp, now);
    } else {
      var p, id := order[..|order| - 1], order[|order| - 1];
      var s' := Visits(s, c, p, stamp, now);
      assert order == p + [id];
      assert Elems(order) == Elems(p) + {id};
      assert id !in Elems(p);
      LoopProgress(s, c, p, stamp, now);
      if !Doomed(s', c, id) {
        ProgressSkip(s, c, Elems(p), id, stamp, now, s');
      } else {
        if id !in s.leases { NewLeaseUndoomed(s, c, Elems(p), stamp, now, s', id); }
        VisitsKeepInv(s, c, p, stamp, now);
        HandOffEffect(s', id, EndState(c), stamp, now);
        ProgressEnd(s, c, Elems(p), id, stamp, now, s', NewId(s'), Visit(s', c, id, stamp, now));
      }
    }
  }

  lemma OneMoreEnded(s: State, c: Criterion, seen: set<string>, id: string, stamp: Time, now: Time,
                     s': State, newId: string, s'': State)
    requires OldLeasesEnded(s, c, seen, stamp, s') && id in s'.leases && Doomed(s', c, id)
    requires HandsOff(s', id, EndState(c), stamp, now, newId, s'')
    ensures OldLeasesEnded(s, c, seen + {id}, stamp, s'')
  {
  }

  /** Whoever is served on the way: a lease from before the loop is ended when it is visited and a target, and is
      otherwise as it was. */
  lemma {:induction false} OldLeasesFate(s: State, c: Criterion, order: seq<string>, stamp: Time, now: Time)
    requires Inv(s)
    ensures OldLeasesEnded(s, c, Elems(order), stamp, Visits(s, c, order, stamp, now))
  {
    if order != [] {
      var p, id := order[..|order| - 1], order[|order| - 1];
      var v := Visits(s, c, p, stamp, now);
      assert order == p + [id];
      assert Elems(order) == Elems(p) + {id};
      OldLeasesFate(s, c, p, stamp, now);
      if Doomed(v, c, id) {
        VisitsKeepInv(s, c, p, stamp, now);
        HandOffEffect(v, id, EndState(c), stamp, now);
        OneMoreEnded(s, c, Elems(p), id, stamp, now, v, NewId(v), Visit(v, c, id, stamp, now));
      }
    }
  }

  /** What a finished loop has done when no rematch is possible, in any order Go may choose: on each
      resource with k doomed leases the first k waiters (all, if fewer) hold new leases and the rest
      keep their places; exactly the doomed leases ended; nothing doomed is left. */
  lemma LoopExact(s: State, c: Criterion, order: seq<string>, stamp: Time, now: Time)
    requires Inv(s) && LegalOrder(s, c, order, stamp, now) && NoRematch(s, c)
    ensures Progress(s, c, s.leases.Keys, stamp, now, Visits(s, c, order, stamp, now))
    ensures NothingDoomed(Visits(s, c, order, stamp, now), c)
  {
    var s' := Visits(s, c, order, stamp, now);
    LoopProgress(s, c, order, stamp, now);
    ProgressAll(s, c, Elems(order), stamp, now, s');
    forall id | id in s'.leases ensures !Doomed(s', c, id) {
      if id !in s.leases { NewLeaseUndoomed(s, c, Elems(order), stamp, now, s', id); }
    }
  }

  /** Entries visited beyond the original ones make no difference to the progress made. */
  lemma ProgressAll(s: State, c: Criterion, seen: set<string>, stamp: Time, now: Time, s': State)
    requires Progress(s, c, seen, stamp, now, s') && s.leases.Keys <= seen
    ensures Progress(s, c, s.leases.Keys, stamp, now, s')
  {
    forall r ensures Served(s, c, seen, r) == Served(s, c, s.leases.Keys, r) {
      assert DoomedOn(s, c, r) * seen == DoomedOn(s, c, r) * s.leases.Keys;
    }
    forall r ensures QueueServed(s, c, s.leases.Keys, s', r) && ServedHold(s, c, s.leases.Keys, now, s', r) {
      assert QueueServed(s, c, seen, s', r) && ServedHold(s, c, seen, now, s', r);
    }
    forall t | t in s'.outcomes && t !in s.outcomes ensures ServedTicket(s, c, s.leases.Keys, t) {
      assert ServedTicket(s, c, seen, t);
    }
  }

  // When a target can survive its own release

  /** Some listing of a finite set. */
  ghost function Listing(keys: set<string>): (order: seq<string>)
    ensures NoRepeats(order) && Elems(order) == keys
  {
    if keys == {} then []
    else
      var k :| k in keys;
      var rest := Listing(keys - {k});
      assert k !in Elems(rest);
      assert Elems(rest + [k]) == Elems(rest) + {k};
      rest + [k]
  }

  /** Visiting just the leases that existed at the start is an order Go allows. */
  lemma ListingIsLegal(s: State, c: Criterion, stamp: Time, now: Time)
    requires Inv(s)
    ensures LegalOrder(s, c, Listing(s.leases.Keys), stamp, now)
  {
    var order := Listing(s.leases.Keys);
    forall i | 0 <= i < |order| ensures order[i] in Visits(s, c, order[..i], stamp, now).leases {
      assert order[i] in Elems(order);
      assert Elems(order[..i]) <= Elems(order);
      LoopProgress(s, c, order[..i], stamp, now);
    }
  }

  lemma RematchedSurvives(s: State, c: Criterion, r: string, i: nat, stamp: Time, now: Time)
    requires Inv(s)
    requires i < Min(|DoomedOn(s, c, r)|, |Queue(s, r)|) && Matches(c, Queue(s, r)[i].session, None)
    ensures !NothingDoomed(Visits(s, c, Listing(s.leases.Keys), stamp, now), c)
  {
    var order := Listing(s.leases.Keys);
    var s' := Visits(s, c, order, stamp, now);
    LoopProgress(s, c, order, stamp, now);
    assert DoomedOn(s, c, r) * Elems(order) == DoomedOn(s, c, r);
    assert ServedHold(s, c, Elems(order), now, s', r);
    assert HoldsNewLease(s, s', r, Queue(s, r)[i], now);
    assert Doomed(s', c, s'.outcomes[Queue(s, r)[i].ticket].lease);
  }

  /** The loop clears everything it is after in every visiting order exactly when no waiter it will
      serve is itself a target. If one is, the order that skips inserted entries leaves it a lease. */
  lemma LoopClearsIffNoRematch(s: State, c: Criterion, stamp: Time, now: Time)
    requires Inv(s)
    ensures NoRematch(s, c) <==>
            forall order | LegalOrder(s, c, order, stamp, now) ::
              NothingDoomed(Visits(s, c, order, stamp, now), c)
  {
    if NoRematch(s, c) {
      forall order | LegalOrder(s, c, order, stamp, now)
        ensures NothingDoomed(Visits(s, c, order, stamp, now), c)
      {
        LoopExact(s, c, order, stamp, now);
      }
    } else {
      var r, i :| 0 <= i < Min(|DoomedOn(s, c, r)|, |Queue(s, r)|) && Matches(c, Queue(s, r)[i].session, None);
      RematchedSurvives(s, c, r, i, stamp, now);
      ListingIsLegal(s, c, stamp, now);
    }
  }

  // ReleaseAll

  predicate HoldsNothing(s: State, session: string) {
    forall id | id in s.leases :: !(s.leases[id].state == Active && s.leases[id].session == session)
  }

  ghost predicate WaitsForNothing(s: State, session: string) {
    forall r, w | w in Queue(s, r) :: w.session != session
  }

  /** How many of r's waiters ReleaseAll serves: one per active lease of the session on r. */
  function Freed(s: State, session: string, r: string): nat {
    Min(|DoomedOn(s, OwnedBy(session), r)|, |Queue(s, r)|)
  }

  /** r's first k waiters hold its k freed slots, and the other sessions' waiters keep their order. */
  predicate SlotsPassedOn(s: State, session: string, now: Time, r: string, s': State) {
    && Queue(s', r) == Survivors(Queue(s, r)[Freed(s, session, r)..], session)
    && forall i | 0 <= i < Freed(s, session, r) :: HoldsNewLease(s, s', r, Queue(s, r)[i], now)
  }

  lemma DropQueue(v: State, session: string, r: string)
    ensures Queue(DropWaiters(v, session), r) == Survivors(Queue(v, r), session)
  {
  }

  lemma FreedIsServed(s: State, session: string, r: string)
    ensures Served(s, OwnedBy(session), s.leases.Keys, r) == Freed(s, session, r)
  {
    var d := DoomedOn(s, OwnedBy(session), r);
    assert d <= s.leases.Keys;
    assert d * s.leases.Keys == d;
  }

  /** Dropping waiters takes no lease away from a waiter that was served. */
  lemma DropKeepsNew(s: State, v: State, session: string, r: string, w: Waiter, now: Time)
    requires HoldsNewLease(s, v, r, w, now)
    ensures HoldsNewLease(s, DropWaiters(v, session), r, w, now)
  {
  }

  lemma ReleasedAt(s: State, v: State, session: string, now: Time, r: string)
    requires QueueServed(s, OwnedBy(session), s.leases.Keys, v, r)
    requires ServedHold(s, OwnedBy(session), s.leases.Keys, now, v, r)
    ensures SlotsPassedOn(s, session, now, r, DropWaiters(v, session))
  {
    var s' := DropWaiters(v, session);
    DropQueue(v, session, r);
    FreedIsServed(s, session, r);
    forall i | 0 <= i < Freed(s, session, r) ensures HoldsNewLease(s, s', r, Queue(s, r)[i], now) {
      assert HoldsNewLease(s, v, r, Queue(s, r)[i], now);
      DropKeepsNew(s, v, session, r, Queue(s, r)[i], now);
    }
  }

  /** Dropping the session's waiters settles only its own open requests and touches no lease. */
  lemma DropEffect(v: State, session: string)
    requires QueuesOk(v.queues, v.asked, v.outcomes)
    ensures var s' := DropWaiters(v, session);
            && s'.leases == v.leases && WaitsForNothing(s', session)
            && (forall t | t in v.outcomes :: t in s'.outcomes && s'.outcomes[t] == v.outcomes[t])
            && (forall t | t in s'.outcomes && t !in v.outcomes ::
                  s'.outcomes[t] == Dropped && t < |v.asked| && v.asked[t].session == session)
  {
    WithoutSessionThins(v.queues, session);
    DroppedAreOpen(v, session);
    forall r, w | w in Queue(DropWaiters(v, session), r) ensures w.session != session {
      assert w in QueueOf(WithoutSession(v.queues, session), r);
    }
  }

  /** Whatever is settled or created by ReleaseAll: grants to served waiters, and drops of its own. */
  ghost predicate OnlyServedOrDropped(s: State, session: string, s': State) {
    && (forall t | t in s'.outcomes && t !in s.outcomes ::
          ServedTicket(s, OwnedBy(session), s.leases.Keys, t)
          || (s'.outcomes[t] == Dropped && t < |s.asked| && s.asked[t].session == session))
    && (forall id | id in s'.leases && id !in s.leases ::
          exists t :: t in s'.outcomes && t !in s.outcomes && s'.outcomes[t] == Granted(id))
  }

  lemma ReleaseAllOnly(s: State, v: State, session: string, s': State)
    requires OnlyServed(s, OwnedBy(session), s.leases.Keys, v) && v.asked == s.asked && s'.leases == v.leases
    requires forall t | t in v.outcomes :: t in s'.outcomes && s'.outcomes[t] == v.outcomes[t]
    requires forall t | t in s'.outcomes && t !in v.outcomes ::
               s'.outcomes[t] == Dropped && t < |v.asked| && v.asked[t].session == session
    ensures OnlyServedOrDropped(s, session, s')
  {
    forall id | id in s'.leases && id !in s.leases
      ensures exists t :: t in s'.outcomes && t !in s.outcomes && s'.outcomes[t] == Granted(id)
    {
      var t :| t in v.outcomes && t !in s.outcomes && v.outcomes[t] == Granted(id);
      assert s'.outcomes[t] == Granted(id);
    }
  }

  /** ReleaseAll in full: the session ends with no lease and no waiter; on each resource exactly the
      first k waiters are granted, k being the session's leases there, and the others keep their order;
      leases of other sessions are untouched. */
  lemma ReleaseAllExact(s: State, session: string, order: seq<string>, now: Time)
    requires Inv(s) && LegalOrder(s, OwnedBy(session), order, now, now) && NoRematch(s, OwnedBy(session))
    ensures var s' := ReleaseAll(s, session, order, now);
            && HoldsNothing(s', session) && WaitsForNothing(s', session)
            && (forall r :: SlotsPassedOn(s, session, now, r, s'))
            && OldLeasesEnded(s, OwnedBy(session), s.leases.Keys, now, s')
            && OnlyServedOrDropped(s, session, s')
  {
    var c := OwnedBy(session);
    var v := Visits(s, c, order, now, now);
    LoopExact(s, c, order, now, now);
    assert Inv(v) by { VisitsKeepInv(s, c, order, now, now); }
    ReleaseAllFrom(s, v, session, now);
  }

  lemma ReleaseAllFrom(s: State, v: State, session: string, now: Time)
    requires Progress(s, OwnedBy(session), s.leases.Keys, now, now, v) && NothingDoomed(v, OwnedBy(session))
    requires QueuesOk(v.queues, v.asked, v.outcomes)
    ensures var s' := DropWaiters(v, session);
            && HoldsNothing(s', session) && WaitsForNothing(s', session)
            && (forall r :: SlotsPassedOn(s, session, now, r, s'))
            && OldLeasesEnded(s, OwnedBy(session), s.leases.Keys, now, s')
            && OnlyServedOrDropped(s, session, s')
  {
    DropEffect(v, session);
    ReleaseAllOnly(s, v, session, DropWaiters(v, session));
    NothingHeld(v, session);
    AllPassedOn(s, v, session, now);
  }

  lemma NothingHeld(v: State, session: string)
    ensures NothingDoomed(v, OwnedBy(session)) <==> HoldsNothing(DropWaiters(v, session), session)
  {
    forall id | id in v.leases
      ensures Doomed(v, OwnedBy(session), id) <==> v.leases[id].state == Active && v.leases[id].session == session
    {
    }
  }

  lemma AllPassedOn(s: State, v: State, session: string, now: Time)
    requires forall r :: QueueServed(s, OwnedBy(session), s.leases.Keys, v, r)
    requires forall r :: ServedHold(s, OwnedBy(session), s.leases.Keys, now, v, r)
    ensures forall r :: SlotsPassedOn(s, session, now, r, DropWaiters(v, session))
  {
    forall r ensures SlotsPassedOn(s, session, now, r, DropWaiters(v, session)) {
      assert QueueServed(s, OwnedBy(session), s.leases.Keys, v, r);
      assert ServedHold(s, OwnedBy(session), s.leases.Keys, now, v, r);
      ReleasedAt(s, v, session, now, r);
    }
  }

  /** The leases a session had when ReleaseAll was called are released, rematch or not, and no other session's is. */
  lemma ReleaseAllEndsOwn(s: State, session: string, order: seq<string>, now: Time, id: string)
    requires Inv(s) && LegalOrder(s, OwnedBy(session), order, now, now) && IsActive(s, id)
    ensures var l, s' := s.leases[id], ReleaseAll(s, session, order, now);
            && id in s'.leases
            && s'.leases[id] == if l.session == session then l.(state := LeaseState.Released, ended := Some(now)) else l
  {
    OldLeasesFate(s, OwnedBy(session), order, now, now);
    assert Doomed(s, OwnedBy(session), id) <==> s.leases[id].session == session;
  }

  /** ReleaseAll frees a session of all its leases, whatever order the map yields, exactly when none of
      the first k waiters of a resource is the session itself, k being its leases there. */
  lemma ReleaseAllClearsIff(s: State, session: string, now: Time)
    requires Inv(s)
    ensures NoRematch(s, OwnedBy(session)) <==>
            forall order | LegalOrder(s, OwnedBy(session), order, now, now) ::
              HoldsNothing(ReleaseAll(s, session, order, now), session)
  {
    var c := OwnedBy(session);
    LoopClearsIffNoRematch(s, c, now, now);
    forall order ensures NothingDoomed(Visits(s, c, order, now, now), c)
                         <==> HoldsNothing(ReleaseAll(s, session, order, now), session) {
      NothingHeld(Visits(s, c, order, now, now), session);
    }
  }

  // Sweep

  /** A sweep ends exactly the leases whose deadline has passed, in any visiting order: grants from the
      queue carry no deadline, so the loop never meets its own. */
  lemma SweepExact(s: State, cutoff: Time, order: seq<string>, now: Time)
    requires Inv(s) && LegalOrder(s, Overdue(cutoff), order, cutoff, now)
    ensures var s' := Sweep(s, cutoff, order, now);
            && NothingDoomed(s', Overdue(cutoff))
            && Progress(s, Overdue(cutoff), s.leases.Keys, cutoff, now, s')
  {
    LoopExact(s, Overdue(cutoff), order, cutoff, now);
  }

  /** Unless a waiter it serves is itself unknown, reaping leaves active leases of live sessions only. */
  lemma ReapOrphansExact(s: State, live: set<string>, order: seq<string>, now: Time)
    requires Inv(s) && LegalOrder(s, Unowned(live), order, now, now) && NoRematch(s, Unowned(live))
    ensures var s' := ReapOrphans(s, live, order, now);
            && (forall id | IsActive(s', id) :: s'.leases[id].session in live)
            && Progress(s, Unowned(live), s.leases.Keys, now, now, s')
  {
    LoopExact(s, Unowned(live), order, now, now);
    var s' := ReapOrphans(s, live, order, now);
    forall id | IsActive(s', id) ensures s'.leases[id].session in live {
      assert !Doomed(s', Unowned(live), id);
    }
  }

  /** And only then: in some legal order an unknown session ends up with a lease otherwise. */
  lemma ReapOrphansClearsIff(s: State, live: set<string>, now: Time)
    requires Inv(s)
    ensures NoRematch(s, Unowned(live)) <==>
            forall order | LegalOrder(s, Unowned(live), order, now, now) ::
              NothingDoomed(ReapOrphans(s, live, order, now), Unowned(live))
  {
    LoopClearsIffNoRematch(s, Unowned(live), now, now);
    forall order ensures ReapOrphans(s, live, order, now) == Visits(s, Unowned(live), order, now, now) {}
  }
}
