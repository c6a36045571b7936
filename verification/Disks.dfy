/** What each save does to the tables read back from the disk. */
module Disks {
  import opened Options
  import opened Documents
  import opened LeaseSnapshots
  import LeaseModel

  /** The run records on disk are exactly these. */
  ghost predicate RecordsRuns(d: Disk, runs: map<string, Run>) {
    && (forall id :: id in RunsOn(d) <==> id in runs)
    && (forall id | id in runs :: id in RunsOn(d) && RunsOn(d)[id] == runs[id])
  }

  lemma LeasesSaved(d: Disk, snap: Snapshot)
    requires WellFormed(d) && LeaseRows(snap.leases)
    ensures var d' := d[LeasesKey := LeasesDoc(snap)];
            && WellFormed(d') && LeasesOn(d') == snap.leases
            && PortsOn(d') == PortsOn(d) && SessionsOn(d') == SessionsOn(d) && RunsOn(d') == RunsOn(d)
  {
    SameRuns(d, d[LeasesKey := LeasesDoc(snap)]);
  }

  lemma PortsSaved(d: Disk, table: map<int, Allocation>)
    requires WellFormed(d) && PortRows(table)
    ensures var d' := d[PortsKey := PortsDoc(table)];
            && WellFormed(d') && PortsOn(d') == table
            && LeasesOn(d') == LeasesOn(d) && SessionsOn(d') == SessionsOn(d) && RunsOn(d') == RunsOn(d)
  {
    SameRuns(d, d[PortsKey := PortsDoc(table)]);
  }

  lemma SessionsSaved(d: Disk, sessions: map<string, Session>)
    requires WellFormed(d) && SessionRows(sessions)
    ensures var d' := d[SessionsKey := SessionsDoc(sessions)];
            && WellFormed(d') && SessionsOn(d') == sessions
            && LeasesOn(d') == LeasesOn(d) && PortsOn(d') == PortsOn(d) && RunsOn(d') == RunsOn(d)
  {
    SameRuns(d, d[SessionsKey := SessionsDoc(sessions)]);
  }

  lemma RunSaved(d: Disk, r: Run)
    requires WellFormed(d)
    ensures var d' := d[RunKey(r.id) := RunDoc(r)];
            && WellFormed(d') && LeasesOn(d') == LeasesOn(d) && PortsOn(d') == PortsOn(d)
            && SessionsOn(d') == SessionsOn(d)
  {
  }

  lemma RunRecorded(d: Disk, runs: map<string, Run>, r: Run)
    requires RecordsRuns(d, runs)
    ensures RecordsRuns(d[RunKey(r.id) := RunDoc(r)], runs[r.id := r])
  {
    var d' := d[RunKey(r.id) := RunDoc(r)];
    forall id ensures id in RunsOn(d') <==> id in runs || id == r.id {
      RunAt(d, id);
      RunAt(d', id);
    }
    forall id | id in RunsOn(d') ensures RunsOn(d')[id] == if id == r.id then r else runs[id] {
      RunAt(d, id);
      RunAt(d', id);
    }
  }

  /** A crash between truncating and rewriting a run's file loses that record and nothing else. */
  lemma RunBlanked(d: Disk, id: string)
    requires WellFormed(d)
    ensures var d' := d - {RunKey(id)};
            && WellFormed(d') && LeasesOn(d') == LeasesOn(d) && PortsOn(d') == PortsOn(d)
            && SessionsOn(d') == SessionsOn(d)
  {
  }

  lemma RunAt(d: Disk, id: string)
    ensures id in RunsOn(d) <==> RunKey(id) in d && d[RunKey(id)].RunDoc?
    ensures id in RunsOn(d) ==> RunsOn(d)[id] == d[RunKey(id)].run
  {
    if RunKey(id) in d && d[RunKey(id)].RunDoc? { assert RunKey(id).id == id; }
  }

  lemma SameRuns(d: Disk, d': Disk)
    requires forall id :: RunKey(id) in d' <==> RunKey(id) in d
    requires forall id | RunKey(id) in d :: d'[RunKey(id)] == d[RunKey(id)]
    ensures RunsOn(d') == RunsOn(d)
  {
    forall id ensures id in RunsOn(d') <==> id in RunsOn(d) {
      RunAt(d, id);
      RunAt(d', id);
    }
    forall id | id in RunsOn(d') ensures RunsOn(d')[id] == RunsOn(d)[id] {
      RunAt(d, id);
      RunAt(d', id);
    }
  }

  // The disk lags behind memory only in lease deadlines, because Renew does not save

  function Undated(l: LeaseModel.Lease): LeaseModel.Lease { l.(expires := None) }

  predicate SameButDeadlines(a: map<string, LeaseModel.Lease>, b: map<string, LeaseModel.Lease>) {
    a.Keys == b.Keys && forall id | id in a :: Undated(a[id]) == Undated(b[id])
  }

  predicate Mirrors(d: Disk, leases: map<string, LeaseModel.Lease>, ports: map<int, Allocation>,
                    sessions: map<string, Session>) {
    SameButDeadlines(LeasesOn(d), leases) && PortsOn(d) == ports && SessionsOn(d) == sessions
  }
}
