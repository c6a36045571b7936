/** Run records: one metadata file per run, rewritten in place. */
module Runs {
  import opened Options
  import opened Documents
  import opened Finite
  import opened LeaseModel
  import Ids
  import Store
  import Text

  type Table = map<string, Run>

  /** A duration in milliseconds, truncated. */
  function Millis(d: int): int { if d >= 0 then d / 1_000_000 else -(-d / 1_000_000) }

  function FinishedRun(r: Run, status: RunStatus, exit: Option<int>, error: string, now: Time): Run {
    r.(status := status, finished := Some(now), exit := exit, millis := Millis(now - r.started),
       error := if error != "" then error else r.error)
  }

  /** What becomes of a run when the daemon gives up on it. */
  function KilledIfOpen(r: Run, reason: string, now: Time): Run {
    if RunTerminal(r.status) then r else FinishedRun(r, Killed, None, reason, now)
  }

  /** The whole milliseconds between two moments, without the rest, and negative if the clock went back. */
  lemma MillisTruncate(d: int)
    ensures d >= 0 ==> 0 <= d - 1_000_000 * Millis(d) < 1_000_000
    ensures Millis(-d) == -Millis(d)
  {
  }

  /** A run ends with its status, exit code and time, after its whole milliseconds; an empty error leaves the one it
      had. */
  lemma FinishedFields(r: Run, status: RunStatus, exit: Option<int>, error: string, now: Time)
    ensures var f := FinishedRun(r, status, exit, error, now);
            && f == Run(r.id, r.session, status, r.started, Some(now), exit, f.millis,
                        if error == "" then r.error else error, r.pid, r.procStart)
            && (now >= r.started ==> 0 <= now - r.started - 1_000_000 * f.millis < 1_000_000)
  {
  }

  /** A run that still waited, was queued or ran is recorded as killed at that time, without an exit code and with
      the given reason, unless that is empty; every other run is left as it is. */
  lemma KilledFields(r: Run, reason: string, now: Time)
    ensures var k := KilledIfOpen(r, reason, now);
            if r.status == WaitingResources || r.status == RunQueued || r.status == RunRunning
            then k == Run(r.id, r.session, Killed, r.started, Some(now), None, k.millis,
                          if reason == "" then r.error else reason, r.pid, r.procStart)
                 && (now >= r.started ==> 0 <= now - r.started - 1_000_000 * k.millis < 1_000_000)
            else k == r
  {
  }

  /** The runs List(filter) returns; "" means all. */
  function Listed(runs: Table, filter: string): set<string> {
    set id | id in runs && (filter == "" || runs[id].session == filter)
  }

  predicate NewestFirst(runs: Table, ids: seq<string>) {
    && (forall id | id in ids :: id in runs)
    && (forall i, j | 0 <= i < j < |ids| :: ids[i] != ids[j] && runs[ids[i]].started >= runs[ids[j]].started)
  }

  lemma {:induction false} SomeNewest(runs: Table, todo: set<string>)
    requires todo != {} && todo <= runs.Keys
    ensures exists id :: id in todo && forall k | k in todo :: runs[k].started <= runs[id].started
  {
    var x :| x in todo;
    if todo != {x} {
      SomeNewest(runs, todo - {x});
      var y :| y in todo - {x} && forall k | k in todo - {x} :: runs[k].started <= runs[y].started;
      var z := if runs[x].started > runs[y].started then x else y;
      assert forall k | k in todo :: k == x || k in todo - {x};
      assert z in todo && forall k | k in todo :: runs[k].started <= runs[z].started;
    }
  }

  /** The table when the runs of `done` have been given up on. */
  function KilledAmong(runs: Table, done: set<string>, reason: string, now: Time): Table {
    map id | id in runs :: if id in done then KilledIfOpen(runs[id], reason, now) else runs[id]
  }

  lemma KillNone(runs: Table, reason: string, now: Time)
    ensures KilledAmong(runs, Elems([]), reason, now) == runs
  {
    assert forall id: string :: id !in Elems([]);
  }

  /** Finishing the i-th run, if it is open, is what the loop over the list does. */
  lemma KillOne(runs: Table, ids: seq<string>, i: nat, reason: string, now: Time)
    requires NewestFirst(runs, ids) && i < |ids|
    ensures var done, id := Elems(ids[..i]), ids[i];
            && Elems(ids[..i + 1]) == done + {id} && id in KilledAmong(runs, done, reason, now)
            && KilledAmong(runs, done + {id}, reason, now)
               == KilledAmong(runs, done, reason, now)[id := KilledIfOpen(runs[id], reason, now)]
            && KilledAmong(runs, done, reason, now)[id] == runs[id]
  {
    assert ids[..i + 1] == ids[..i] + [ids[i]];
    assert ids[i] !in ids[..i];
  }

  class Manager {
    const store: Store.Store<Key, Doc>
    var byId: Table
    var lastId: nat

    constructor (store: Store.Store<Key, Doc>)
      ensures this.store == store && byId == map[] && lastId == 0
    {
      this.store, byId, lastId := store, map[], 0;
    }

    /** A queued run under the next number. Its file is written with its first change. */
    method NewRun(session: string, now: Time, dirOk: bool) returns (r: Option<Run>)
      modifies this
      ensures lastId == old(lastId) + 1 && r.Some? == dirOk
      ensures r.Some? ==> r.value == Run(Ids.RunId(lastId), session, RunQueued, now, None, None, 0, "", 0, 0)
      ensures byId == if r.Some? then old(byId)[r.value.id := r.value] else old(byId)
    {
      lastId := lastId + 1;
      if !dirOk {
        return None;
      }
      var id := Ids.RunId(lastId);
      var run := Run(id, session, RunQueued, now, None, None, 0, "", 0, 0);
      byId := byId[id := run];
      return Some(run);
    }

    /** The matching runs, newest first. */
    method List(filter: string) returns (ids: seq<string>)
      ensures NewestFirst(byId, ids) && forall id :: id in ids <==> id in Listed(byId, filter)
      ensures forall i, j | 0 <= i < j < |ids| ::
                ids[i] in byId && ids[j] in byId && byId[ids[j]].started <= byId[ids[i]].started
      ensures forall id :: id in ids <==> id in byId && (filter == "" || byId[id].session == filter)
    {
      ids := [];
      var todo := Listed(byId, filter);
      while todo != {}
        invariant todo <= Listed(byId, filter) && NewestFirst(byId, ids)
        invariant forall id :: id in ids <==> id in Listed(byId, filter) - todo
        invariant forall id, k | id in ids && k in todo :: byId[k].started <= byId[id].started
      {
        SomeNewest(byId, todo);
        var id :| id in todo && forall k | k in todo :: byId[k].started <= byId[id].started;
        ids := ids + [id];
        todo := todo - {id};
      }
    }

    method Finish(id: string, status: RunStatus, exit: Option<int>, error: string, now: Time) returns (ok: bool)
      requires store.Valid()
      modifies this, store
      ensures store.Valid() && ok == (id in old(byId))
      ensures ok ==>
                && byId == old(byId)[id := FinishedRun(old(byId)[id], status, exit, error, now)]
                && store.disk == old(store.disk)[RunKey(id) := RunDoc(byId[id])]
                && store.images == old(store.images)
                     + Store.OverwriteImages(old(store.disk), RunKey(id), RunDoc(byId[id]))
      ensures !ok ==> byId == old(byId) && store.disk == old(store.disk) && store.images == old(store.images)
    {
      if id !in byId {
        return false;
      }
      var r := byId[id];
      r := r.(finished := Some(now), status := status, exit := exit, millis := Millis(now - r.started));
      if error != "" {
        r := r.(error := error);
      }
      byId := byId[id := r];
      store.Overwrite(RunKey(id), RunDoc(r));
      return true;
    }

    /** Read every run directory back into the table, in the order of their names; a directory without a readable
        record is skipped, and its number with it. */
    method RestoreFromDisk()
      requires store.Valid()
      modifies this
      ensures Merged(old(byId), RunsOn(store.disk), byId)
      ensures RunFiles(store.disk) ==> byId == old(byId) + RunsOn(store.disk)
      ensures CounterPast(RunsOn(store.disk), old(lastId), lastId)
    {
      ghost var d := store.disk;
      var keys := store.List();
      var names := Text.Sort(set k | k in keys && k.RunKey? :: k.id);
      for i := 0 to |names|
        invariant store.Valid() && store.disk == d
        invariant Merged(old(byId), RunsAmong(d, names[..i]), byId)
        invariant CounterPast(RunsAmong(d, names[..i]), old(lastId), lastId)
      {
        ghost var recs, recs' := RunsAmong(d, names[..i]), RunsAmong(d, names[..i + 1]);
        OneMoreName(d, names, i);
        var doc := store.Load(RunKey(names[i]));
        if doc.Some? && doc.value.RunDoc? {
          MergedStep(old(byId), recs, byId, names[i], doc.value.run);
          CounterStep(recs, names[i], doc.value.run, old(lastId), lastId);
          if Ids.RunSeq(names[i]) > lastId {
            lastId := Ids.RunSeq(names[i]);
          }
          byId := byId[doc.value.run.id := doc.value.run];
        }
      }
      AllRead(d, names);
      if RunFiles(d) {
        OwnNames(d);
        MergedUnderOwnNames(old(byId), RunsOn(d), byId);
      }
    }
  }

  /** The records of these directories. */
  function RunsAmong(d: Disk, names: seq<string>): Table {
    map id | id in names && RunKey(id) in d && d[RunKey(id)].RunDoc? :: d[RunKey(id)].run
  }

  lemma OneMoreName(d: Disk, names: seq<string>, i: nat)
    requires i < |names| && Text.Sorted(names)
    ensures forall id | id in RunsAmong(d, names[..i]) :: Text.Less(id, names[i])
    ensures RunsAmong(d, names[..i + 1]) ==
            if RunKey(names[i]) in d && d[RunKey(names[i])].RunDoc?
            then RunsAmong(d, names[..i])[names[i] := d[RunKey(names[i])].run] else RunsAmong(d, names[..i])
  {
    assert names[..i + 1] == names[..i] + [names[i]];
  }

  lemma AllRead(d: Disk, names: seq<string>)
    requires forall id | RunKey(id) in d :: id in names
    ensures RunsAmong(d, names[..|names|]) == RunsOn(d)
  {
    var all := RunsAmong(d, names[..|names|]);
    assert names[..|names|] == names;
    forall id ensures id in all <==> id in RunsOn(d) {
      if id in all { assert RunKey(id).id == id; }
    }
    forall id | id in all ensures all[id] == RunsOn(d)[id] { assert RunKey(id).id == id; }
  }

  /** The directory's record says it is the run id. */
  predicate Claims(recs: Table, dir: string, id: string) { dir in recs && recs[dir].id == id }

  ghost predicate LastClaim(recs: Table, dir: string, id: string) {
    Claims(recs, dir, id) && forall o | Claims(recs, o, id) :: o == dir || Text.Less(o, dir)
  }

  /** Each record has been entered under the id it gives; of several for one run the last directory's counts. */
  ghost predicate Merged(before: Table, recs: Table, after: Table) {
    && (forall id :: id in after <==> id in before || exists dir :: Claims(recs, dir, id))
    && (forall dir, id | LastClaim(recs, dir, id) :: id in after && after[id] == recs[dir])
    && (forall id | id in before && !exists dir :: Claims(recs, dir, id) :: id in after && after[id] == before[id])
  }

  lemma MergedStep(before: Table, recs: Table, after: Table, name: string, r: Run)
    requires Merged(before, recs, after) && forall id | id in recs :: Text.Less(id, name)
    ensures Merged(before, recs[name := r], after[r.id := r])
  {
    Text.LessIrreflexive(name);
    var recs', after' := recs[name := r], after[r.id := r];
    assert Claims(recs', name, r.id);
    forall dir, id ensures Claims(recs', dir, id) <==> Claims(recs, dir, id) || (dir == name && id == r.id) {}
    forall dir, id | LastClaim(recs', dir, id) ensures id in after' && after'[id] == recs'[dir] {
      if id == r.id {
        Text.LessTotal(name, dir);
      } else {
        assert LastClaim(recs, dir, id);
      }
    }
  }

  lemma OwnNames(d: Disk)
    requires RunFiles(d)
    ensures forall id | id in RunsOn(d) :: RunsOn(d)[id].id == id
  {
    forall id | id in RunsOn(d) ensures RunsOn(d)[id].id == id {
      var k :| k in d && k.RunKey? && d[k].RunDoc? && k.id == id;
      assert k == RunKey(id);
    }
  }

  lemma MergedUnderOwnNames(before: Table, recs: Table, after: Table)
    requires Merged(before, recs, after) && forall id | id in recs :: recs[id].id == id
    ensures after == before + recs
  {
    forall id ensures id in recs <==> exists dir :: Claims(recs, dir, id) {
      if id in recs { assert Claims(recs, id, id); }
    }
    forall id | id in recs ensures id in after && after[id] == recs[id] { assert LastClaim(recs, id, id); }
  }

  /** The counter is the largest number read from the names of the runs, or what it was before. */
  ghost predicate CounterPast(runs: Table, before: nat, lastId: nat) {
    && before <= lastId && (forall id {:trigger Ids.RunSeq(id)} | id in runs :: Ids.RunSeq(id) <= lastId)
    && (lastId == before || exists id :: id in runs && Ids.RunSeq(id) == lastId)
  }

  /** Every record is one of the m runs numbered so far; any of them may be missing. */
  ghost predicate Issued(runs: Table, m: nat) {
    forall id | id in runs :: Numbered(id, m)
  }

  ghost predicate Numbered(id: string, m: nat) {
    exists n: nat :: 1 <= n <= m && Ids.RunId(n) == id
  }

  lemma NumbersRead(runs: Table, m: nat, lastId: nat)
    requires Issued(runs, m) && CounterPast(runs, 0, lastId)
    ensures lastId < 1_000_000 && lastId <= m
    ensures 0 < m < 1_000_000 ==> (lastId == m <==> Ids.RunId(m) in runs)
  {
    forall id | id in runs
      ensures Ids.RunSeq(id) < 1_000_000 && Ids.RunSeq(id) <= m
      ensures Ids.RunSeq(id) == m < 1_000_000 ==> id == Ids.RunId(m)
    {
      var n: nat :| 1 <= n <= m && Ids.RunId(n) == id;
      Ids.RunSeqInvertsIff(n);
    }
    Ids.RunSeqInvertsIff(m);
  }

  /** When m numbers have been used up before a restart, whatever was lost since, the next run gets a new id exactly
      if m has six digits and the record of the last run could be read back. */
  lemma NextRunIsNewIff(runs: Table, m: nat, lastId: nat)
    requires Issued(runs, m) && CounterPast(runs, 0, lastId)
    ensures !Numbered(Ids.RunId(lastId + 1), m) <==> m == 0 || (m < 1_000_000 && Ids.RunId(m) in runs)
  {
    NumbersRead(runs, m, lastId);
    if Numbered(Ids.RunId(lastId + 1), m) {
      var n: nat :| 1 <= n <= m && Ids.RunId(n) == Ids.RunId(lastId + 1);
      Ids.RunIdsDiffer(n, lastId + 1);
    } else {
      assert !(1 <= lastId + 1 <= m);
    }
  }

  /** Rewriting a record empties its file first. A crash at that moment in the last run's loses its number, and the
      next run comes under an id, and into a directory, that are taken. */
  lemma RewriteCanLoseNumber(d: Disk, m: nat, doc: Doc, lastId: nat)
    requires m > 0 && Issued(RunsOn(d), m)
    requires CounterPast(RunsOn(Store.OverwriteImages(d, RunKey(Ids.RunId(m)), doc)[0]), 0, lastId)
    ensures Numbered(Ids.RunId(lastId + 1), m)
  {
    var d' := d - {RunKey(Ids.RunId(m))};
    forall id | id in RunsOn(d') ensures id in RunsOn(d) && id != Ids.RunId(m) {
      var k :| k in d' && k.RunKey? && d'[k].RunDoc? && k.id == id;
      assert k == RunKey(id);
    }
    NextRunIsNewIff(RunsOn(d'), m, lastId);
  }

  lemma CounterStep(recs: Table, name: string, r: Run, before: nat, lastId: nat)
    requires CounterPast(recs, before, lastId)
    ensures CounterPast(recs[name := r], before, Larger(Ids.RunSeq(name), lastId))
  {
    var recs' := recs[name := r];
    assert name in recs' && forall id | id in recs :: id in recs';
  }
}
