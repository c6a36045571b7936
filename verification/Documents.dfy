/** The documents the daemon persists, and the rows they are made of. */
module Documents {
  import opened Options
  import LeaseModel
  import LeaseSnapshots

  type Time = LeaseModel.Time

  datatype Allocation = Allocation(port: int, session: string, protocol: string, name: string)

  datatype SessionState = Created | Preparing | Ready | Running | Stopping | Stopped | Failed

  predicate Terminal(s: SessionState) { s == Stopped || s == Failed }

  datatype Session = Session(id: string, name: string, owner: string, state: SessionState, created: Time,
                             started: Option<Time>, stopped: Option<Time>, failure: string)

  datatype RunStatus = WaitingResources | RunQueued | RunRunning | Succeeded | RunFailed | TimedOut | Killed | RunError

  predicate RunTerminal(s: RunStatus) {
    s == Succeeded || s == RunFailed || s == TimedOut || s == Killed || s == RunError
  }

  datatype Run = Run(id: string, session: string, status: RunStatus, started: Time, finished: Option<Time>,
                     exit: Option<int>, millis: int, error: string, pid: int, procStart: nat)

  datatype Key = LeasesKey | PortsKey | SessionsKey | RunKey(id: string)

  datatype Doc =
    | LeasesDoc(snap: LeaseSnapshots.Snapshot)
    | PortsDoc(table: map<int, Allocation>)
    | SessionsDoc(sessions: map<string, Session>)
    | RunDoc(run: Run)

  type Disk = map<Key, Doc>

  // A missing file, as on first boot, reads as an empty table.
  function LeasesOn(d: Disk): map<string, LeaseModel.Lease> {
    if LeasesKey in d && d[LeasesKey].LeasesDoc? then d[LeasesKey].snap.leases else map[]
  }

  function PortsOn(d: Disk): map<int, Allocation> {
    if PortsKey in d && d[PortsKey].PortsDoc? then d[PortsKey].table else map[]
  }

  function SessionsOn(d: Disk): map<string, Session> {
    if SessionsKey in d && d[SessionsKey].SessionsDoc? then d[SessionsKey].sessions else map[]
  }

  function RunsOn(d: Disk): map<string, Run> {
    map k | k in d && k.RunKey? && d[k].RunDoc? :: k.id := d[k].run
  }

  // Each row sits under its own id.

  ghost predicate LeaseRows(leases: map<string, LeaseModel.Lease>) { forall id | id in leases :: leases[id].id == id }

  ghost predicate PortRows(ports: map<int, Allocation>) { forall p | p in ports :: ports[p].port == p }

  ghost predicate SessionRows(sessions: map<string, Session>) { forall id | id in sessions :: sessions[id].id == id }

  ghost predicate RunFiles(d: Disk) {
    forall id | RunKey(id) in d :: d[RunKey(id)].RunDoc? && d[RunKey(id)].run.id == id
  }

  /** Each file holds the document its name promises, and each row sits under its own id. */
  ghost predicate WellFormed(d: Disk) {
    && (LeasesKey in d ==> d[LeasesKey].LeasesDoc?)
    && (PortsKey in d ==> d[PortsKey].PortsDoc?)
    && (SessionsKey in d ==> d[SessionsKey].SessionsDoc?)
    && RunFiles(d) && LeaseRows(LeasesOn(d)) && PortRows(PortsOn(d)) && SessionRows(SessionsOn(d))
  }
}
