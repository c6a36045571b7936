/** Persisted snapshots of the lease table and their reload after a restart. The snapshot's list of
    pointers is fixed under the manager's lock, but the leases behind them are read later, while they
    are marshalled: each may be read at a moment of its own. */
module LeaseSnapshots {
  import opened Finite
  import opened LeaseModel
  import opened LeaseInvariant
  import opened LeaseRuns
  import Ids

  /** The two lists of a snapshot, keyed by id: their order comes from a map and ends up in a map. */
  datatype Snapshot = Snapshot(res: map<string, Resource>, leases: Leases)

  function TakeSnapshot(s: State): Snapshot { Snapshot(s.res, s.leases) }

  /** The largest sequence number among some lease ids. */
  ghost function MaxSeq(ids: set<string>): (n: nat)
    ensures forall id | id in ids :: Ids.LeaseSeq(id) <= n
    ensures n == 0 || exists id :: id in ids && Ids.LeaseSeq(id) == n
  {
    if ids == {} then 0
    else
      var id :| id in ids;
      var n := MaxSeq(ids - {id});
      assert forall k | k in ids :: k == id || k in ids - {id};
      Larger(Ids.LeaseSeq(id), n)
  }

  function ActiveIds(leases: Leases, r: string): set<string> {
    set id | id in leases && leases[id].state == Active && leases[id].resource == r
  }

  function ActiveResources(leases: Leases): set<string> {
    set id | id in leases && leases[id].state == Active :: leases[id].resource
  }

  function HoldersFrom(leases: Leases): Index {
    map r | r in ActiveResources(leases) :: ActiveIds(leases, r)
  }

  /** What Restore makes of a snapshot; lastId is the counter before the call. */
  ghost function Restored(snap: Snapshot, lastId: nat): State {
    Start(snap.res).(leases := snap.leases, holders := HoldersFrom(snap.leases),
                     lastId := Larger(MaxSeq(snap.leases.Keys), lastId))
  }

  lemma HoldersFromExact(leases: Leases)
    ensures HoldersExact(leases, HoldersFrom(leases))
    ensures forall r :: HoldersOf(HoldersFrom(leases), r) == ActiveIds(leases, r)
  {
    forall r ensures HoldersOf(HoldersFrom(leases), r) == ActiveIds(leases, r) {
      forall id | id in ActiveIds(leases, r) ensures r in ActiveResources(leases) {}
    }
  }

  /** Each lease listed at moment i is read at some moment j(id) of its own, not before i. */
  ghost predicate ReadLater(s: State, actions: seq<Action>, i: nat, id: string, l: Lease)
    requires i <= |actions|
  {
    exists j :: i <= j <= |actions| && id in Run(s, actions[..j]).leases && l == Run(s, actions[..j]).leases[id]
  }

  ghost predicate Torn(s: State, actions: seq<Action>, i: nat, snap: Snapshot) {
    && i <= |actions|
    && snap.res == Run(s, actions[..i]).res
    && snap.leases.Keys == Run(s, actions[..i]).leases.Keys
    && forall id | id in snap.leases :: ReadLater(s, actions, i, id, snap.leases[id])
  }

  lemma LaterState(s: State, actions: seq<Action>, i: nat, j: nat)
    requires Inv(s) && i <= j <= |actions|
    ensures TablesEvolve(Run(s, actions[..i]), Run(s, actions[..j]))
  {
    assert actions[..j] == actions[..i] + actions[i..j];
    RunAppend(s, actions[..i], actions[i..j]);
    RunKeepsInv(s, actions[..i]);
    RunEvolves(Run(s, actions[..i]), actions[i..j]);
  }

  lemma LaterLease(s: State, actions: seq<Action>, i: nat, id: string, l: Lease)
    requires Inv(s) && i <= |actions| && id in Run(s, actions[..i]).leases && ReadLater(s, actions, i, id, l)
    ensures LeaseEvolves(Run(s, actions[..i]).leases[id], l)
  {
    var j :| i <= j <= |actions| && id in Run(s, actions[..j]).leases && l == Run(s, actions[..j]).leases[id];
    LaterState(s, actions, i, j);
  }

  /** If every lease of a snapshot is a later version of the one in s, reloading it is as good as s. */
  lemma RestoreEvolved(s: State, snap: Snapshot)
    requires Inv(s) && snap.res == s.res && snap.leases.Keys == s.leases.Keys
    requires forall id | id in s.leases :: LeaseEvolves(s.leases[id], snap.leases[id])
    ensures Inv(Restored(snap, 0))
    ensures Restored(snap, 0).lastId == s.lastId
    ensures forall r :: Holders(Restored(snap, 0), r) <= Holders(s, r)
  {
    var t := Restored(snap, 0);
    HoldersFromExact(snap.leases);
    IdsFollow(s.res, s.leases, snap.leases, s.lastId);
    SameMax(s.res, snap.leases, s.lastId);
    forall r ensures Holders(t, r) <= Holders(s, r) {
      forall id | id in Holders(t, r) ensures id in Holders(s, r) {
        assert ActiveOn(s.leases, r, id);
      }
    }
    forall r | r in s.res ensures |HoldersOf(t.holders, r)| <= CapacityOf(s.res[r]) {
      SubsetCount(Holders(t, r), Holders(s, r));
      assert |HoldersOf(s.holders, r)| <= CapacityOf(s.res[r]);
    }
  }

  lemma SameMax(res: map<string, Resource>, leases: Leases, lastId: nat)
    requires IdsOk(res, leases, lastId)
    ensures MaxSeq(leases.Keys) == lastId
  {
    if lastId != 0 {
      var id :| id in leases && Ids.LeaseSeq(id) == lastId;
      assert id in leases.Keys;
    }
  }

  /** A torn snapshot is safe: reloading it gives a manager in which no resource is over capacity, the
      index matches the table, nobody waits, and the next lease id is new. */
  lemma TornSnapshotIsSafe(s: State, actions: seq<Action>, i: nat, snap: Snapshot)
    requires Inv(s) && Torn(s, actions, i, snap)
    ensures var t := Restored(snap, 0);
            && Inv(t) && NewId(t) !in snap.leases
            && forall r :: Queue(t, r) == [] && Holders(t, r) <= Holders(Run(s, actions[..i]), r)
  {
    var at := Run(s, actions[..i]);
    RunKeepsInv(s, actions[..i]);
    forall id | id in at.leases ensures LeaseEvolves(at.leases[id], snap.leases[id]) {
      LaterLease(s, actions, i, id, snap.leases[id]);
    }
    RestoreEvolved(at, snap);
    FreshId(Restored(snap, 0));
  }

  /** A snapshot read at one moment restores the manager up to its waiters. */
  lemma SnapshotRoundTrip(s: State)
    requires Inv(s)
    ensures var t := Restored(TakeSnapshot(s), 0);
            && Inv(t) && t.res == s.res && t.leases == s.leases && t.lastId == s.lastId
            && (forall r :: Holders(t, r) == Holders(s, r) && Queue(t, r) == [])
  {
    RestoreEvolved(s, TakeSnapshot(s));
    var t := Restored(TakeSnapshot(s), 0);
    forall r ensures Holders(t, r) == Holders(s, r) {
      forall id ensures id in Holders(t, r) <==> id in Holders(s, r) {
        assert id in HoldersOf(t.holders, r) <==> ActiveOn(s.leases, r, id);
        assert id in HoldersOf(s.holders, r) <==> ActiveOn(s.leases, r, id);
      }
    }
  }
}
