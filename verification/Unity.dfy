/** Unity runs acquire their resources one by one, in a fixed order, and keep them: the state machine of
    any number of sessions doing so over one lease manager, and why they never deadlock. */
module Unity {
  import opened Options
  import opened Finite
  import opened LeaseModel
  import opened LeaseInvariant
  import opened LeaseHandoff
  import opened LeaseEffects
  import opened LeaseIdle

  const SLOT := "unity-process-slot"
  const LICENSE := "unity-license"
  const GPU := "gpu"
  /** Two hours. */
  const TTL := 7_200_000_000_000

  /** What each command needs; None for a command the adapter does not know. */
  function CmdResources(command: string): Option<seq<string>> {
    if command == "version" then Some([])
    else if command == "compile" then Some([SLOT])
    else if command == "test.editmode" then Some([SLOT, LICENSE])
    else if command == "test.playmode" then Some([SLOT, LICENSE, GPU])
    else if command == "build" then Some([SLOT, LICENSE])
    else if command == "run.batch" then Some([SLOT, LICENSE])
    else None
  }

  datatype Request = Request(executable: string, command: string, workspace: string, dirExists: bool)

  datatype Prepared = Needs(resources: seq<string>) | NoExecutable | NoWorkspace | MissingDir | UnknownCommand

  function Prepare(req: Request): Prepared {
    if req.executable == "" then NoExecutable
    else if req.command == "version" then Needs([])
    else if req.workspace == "" then NoWorkspace
    else if !req.dirExists then MissingDir
    else match CmdResources(req.command)
         case None => UnknownCommand
         case Some(resources) => Needs(resources)
  }

  function Rank(r: string): nat {
    if r == SLOT then 0 else if r == LICENSE then 1 else if r == GPU then 2 else 3
  }

  /** Process slots before licenses before the GPU, each at most once. */
  predicate Ascending(plan: seq<string>) {
    && (forall i | 0 <= i < |plan| :: Rank(plan[i]) < 3)
    && (forall i, j | 0 <= i < j < |plan| :: Rank(plan[i]) < Rank(plan[j]))
  }

  lemma PlansAscend(req: Request)
    ensures Prepare(req).Needs? ==> Ascending(Prepare(req).resources)
  {
    assert Ascending([SLOT, LICENSE, GPU]);
  }

  // The state machine

  /** Between two acquires, blocked in one, or given up on. A launch that has everything it needs is
      Asking with nothing left to ask for: its leases are not released when the run ends. */
  datatype Phase = Asking | Waiting(ticket: nat) | Failed

  datatype Launch = Launch(plan: seq<string>, got: nat, phase: Phase)

  type Launches = map<string, Launch>

  datatype World = World(m: State, launches: Launches)

  datatype Event =
    | Begin(session: string, req: Request)
    | Ask(session: string, now: Time)
    | Wake(session: string)
    | GiveUp(session: string)
    | Other(a: Action)

  predicate Settled(l: Launch) { l.phase.Failed? || (l.phase.Asking? && l.got >= |l.plan|) }

  /** One launch at a time per session, starting with nothing in hand; a blocked caller wakes when its
      waiter is settled, or gives up at any time; and whatever else happens to the lease table, nobody
      acquires outside of a launch or cancels somebody else's wait. */
  ghost predicate Possible(u: World, e: Event) {
    match e
    case Begin(session, _) => (session in u.launches ==> Settled(u.launches[session])) && Idle(u.m, session)
    case Ask(session, _) =>
      session in u.launches && u.launches[session].phase.Asking? && u.launches[session].got < |u.launches[session].plan|
    case Wake(session) =>
      session in u.launches && u.launches[session].phase.Waiting? && u.launches[session].phase.ticket in u.m.outcomes
    case GiveUp(session) =>
      session in u.launches && u.launches[session].phase.Waiting?
      && u.launches[session].got < |u.launches[session].plan|
    case Other(a) => !a.DoAcquire? && !a.DoCancel?
  }

  function AfterAsk(l: Launch, answer: AcquireResult): Launch {
    match answer
    case UnknownResource => l.(phase := Failed)
    case Immediately(_) => l.(got := l.got + 1)
    case MustWait(t) => l.(phase := Waiting(t))
  }

  function AfterWake(l: Launch, o: Outcome): Launch {
    match o
    case Granted(_) => l.(got := l.got + 1, phase := Asking)
    case Dropped => l.(phase := Failed)
  }

  ghost function Next(u: World, e: Event): World
    requires Possible(u, e)
  {
    match e
    case Begin(session, req) =>
      if Prepare(req).Needs?
      then u.(launches := u.launches[session := Launch(Prepare(req).resources, 0, Asking)])
      else u
    case Ask(session, now) =>
      var l := u.launches[session];
      var r := l.plan[l.got];
      World(Acquire(u.m, r, session, TTL, now), u.launches[session := AfterAsk(l, AcquireAnswer(u.m, r))])
    case Wake(session) =>
      var l := u.launches[session];
      u.(launches := u.launches[session := AfterWake(l, u.m.outcomes[l.phase.ticket])])
    case GiveUp(session) =>
      var l := u.launches[session];
      World(Cancel(u.m, l.plan[l.got], l.phase.ticket), u.launches[session := l.(phase := Failed)])
    case Other(a) => u.(m := Step(u.m, a))
  }

  // The invariant: who can hold and await what

  /** The launch may own plan[j]: it has it, or was granted it without having noticed yet. */
  predicate Reached(l: Launch, outcomes: Outcomes, j: nat) {
    j < l.got || (j == l.got && (l.phase.Failed? || (l.phase.Waiting? && l.phase.ticket in outcomes)))
  }

  predicate Owns(launches: Launches, outcomes: Outcomes, session: string, r: string) {
    session in launches
    && exists j :: 0 <= j < |launches[session].plan| && launches[session].plan[j] == r
                   && Reached(launches[session], outcomes, j)
  }

  predicate Awaits(launches: Launches, session: string, ticket: nat, r: string) {
    session in launches && var l := launches[session];
    l.phase == Waiting(ticket) && l.got < |l.plan| && l.plan[l.got] == r
  }

  ghost predicate LeasesPlaced(leases: Leases, outcomes: Outcomes, launches: Launches) {
    forall id | id in leases && leases[id].state == Active ::
      Owns(launches, outcomes, leases[id].session, leases[id].resource)
  }

  ghost predicate WaitersPlaced(queues: Queues, launches: Launches) {
    forall r, w | w in QueueOf(queues, r) :: Awaits(launches, w.session, w.ticket, r)
  }

  ghost predicate PlansOk(launches: Launches) {
    forall s | s in launches :: Ascending(launches[s].plan)
  }

  ghost predicate Placed(m: State, launches: Launches) {
    LeasesPlaced(m.leases, m.outcomes, launches) && WaitersPlaced(m.queues, launches)
  }

  ghost predicate Ok(u: World) {
    Inv(u.m) && PlansOk(u.launches) && Placed(u.m, u.launches)
  }

  // Steps of the lease manager

  lemma MoreOutcomes(leases: Leases, outcomes: Outcomes, outcomes': Outcomes, launches: Launches)
    requires LeasesPlaced(leases, outcomes, launches) && outcomes.Keys <= outcomes'.Keys
    ensures LeasesPlaced(leases, outcomes', launches)
  {
    forall id | id in leases && leases[id].state == Active
      ensures Owns(launches, outcomes', leases[id].session, leases[id].resource)
    {
      var l := launches[leases[id].session];
      var j :| 0 <= j < |l.plan| && l.plan[j] == leases[id].resource && Reached(l, outcomes, j);
      assert Reached(l, outcomes', j);
    }
  }

  lemma FewerWaiters(queues: Queues, queues': Queues, launches: Launches)
    requires WaitersPlaced(queues, launches)
    requires forall r, w | w in QueueOf(queues', r) :: w in QueueOf(queues, r)
    ensures WaitersPlaced(queues', launches)
  {
  }

  lemma GrantedIsOwned(launches: Launches, outcomes: Outcomes, w: Waiter, r: string)
    requires Awaits(launches, w.session, w.ticket, r) && w.ticket in outcomes
    ensures Owns(launches, outcomes, w.session, r)
  {
    assert Reached(launches[w.session], outcomes, launches[w.session].got);
  }

  lemma TrySatisfyPlaced(m: State, r: string, now: Time, launches: Launches)
    requires Placed(m, launches)
    ensures Placed(TrySatisfy(m, r, now), launches)
  {
    var q := Queue(m, r);
    if q != [] && r in m.res && HasRoom(m, r) {
      var m' := TrySatisfy(m, r, now);
      assert q[0] in QueueOf(m.queues, r);
      assert m'.queues == m.queues[r := q[1..]];
      forall o, w | w in QueueOf(m'.queues, o) ensures w in QueueOf(m.queues, o) {}
      FewerWaiters(m.queues, m'.queues, launches);
      MoreOutcomes(m.leases, m.outcomes, m'.outcomes, launches);
      GrantedIsOwned(launches, m'.outcomes, q[0], r);
    }
  }

  lemma HandOffPlaced(m: State, id: string, to: LeaseState, stamp: Time, now: Time, launches: Launches)
    requires Placed(m, launches) && id in m.leases && to != Active
    ensures Placed(EndAndHandOff(m, id, to, stamp, now), launches)
  {
    TrySatisfyPlaced(End(m, id, to, stamp), m.leases[id].resource, now, launches);
  }

  lemma {:induction false} VisitsPlaced(m: State, c: Criterion, order: seq<string>, stamp: Time, now: Time,
                                        launches: Launches)
    requires Placed(m, launches)
    ensures Placed(Visits(m, c, order, stamp, now), launches)
  {
    if order != [] {
      var p, id := order[..|order| - 1], order[|order| - 1];
      var v := Visits(m, c, p, stamp, now);
      VisitsPlaced(m, c, p, stamp, now, launches);
      if Doomed(v, c, id) { HandOffPlaced(v, id, EndState(c), stamp, now, launches); }
    }
  }

  lemma DropPlaced(m: State, session: string, launches: Launches)
    requires Placed(m, launches)
    ensures Placed(DropWaiters(m, session), launches)
  {
    var m' := DropWaiters(m, session);
    forall r, w | w in QueueOf(m'.queues, r) ensures w in QueueOf(m.queues, r) {
      SurvivorsSubset(QueueOf(m.queues, r), session);
    }
    FewerWaiters(m.queues, m'.queues, launches);
    MoreOutcomes(m.leases, m.outcomes, m'.outcomes, launches);
  }

  lemma OtherPlaced(m: State, a: Action, launches: Launches)
    requires Placed(m, launches) && !a.DoAcquire? && !a.DoCancel?
    ensures Placed(Step(m, a), launches)
  {
    match a
    case DoRelease(id, now) => if IsActive(m, id) { HandOffPlaced(m, id, Released, now, now, launches); }
    case DoExpireNow(id, now) => if IsActive(m, id) { HandOffPlaced(m, id, Expired, now, now, launches); }
    case DoReleaseAll(session, order, now) =>
      VisitsPlaced(m, OwnedBy(session), order, now, now, launches);
      DropPlaced(Visits(m, OwnedBy(session), order, now, now), session, launches);
    case DoSweep(cutoff, order, now) => VisitsPlaced(m, Overdue(cutoff), order, cutoff, now, launches);
    case DoReapOrphans(live, order, now) => VisitsPlaced(m, Unowned(live), order, now, now, launches);
    case DoRenew(_, _, _) =>
    case DoEnsure(_, _) =>
  }

  // Steps of a launch

  /** The launch moves on and keeps all it owned. */
  lemma LaunchMoves(m: State, launches: Launches, session: string, l': Launch)
    requires Placed(m, launches) && session in launches && WaitsForNothing(m, session)
    requires l'.plan == launches[session].plan
    requires forall j | Reached(launches[session], m.outcomes, j) :: Reached(l', m.outcomes, j)
    ensures Placed(m, launches[session := l'])
  {
    var launches' := launches[session := l'];
    forall id | id in m.leases && m.leases[id].state == Active
      ensures Owns(launches', m.outcomes, m.leases[id].session, m.leases[id].resource)
    {
      var s := m.leases[id].session;
      var j :| 0 <= j < |launches[s].plan| && launches[s].plan[j] == m.leases[id].resource
               && Reached(launches[s], m.outcomes, j);
      assert Reached(launches'[s], m.outcomes, j);
    }
    forall r, w | w in QueueOf(m.queues, r) ensures Awaits(launches', w.session, w.ticket, r) {
      assert w in Queue(m, r);
      assert Awaits(launches, w.session, w.ticket, r);
    }
  }

  lemma AskingIsUnqueued(m: State, launches: Launches, session: string)
    requires WaitersPlaced(m.queues, launches) && session in launches && !launches[session].phase.Waiting?
    ensures WaitsForNothing(m, session)
  {
    forall r, w | w in Queue(m, r) ensures w.session != session {
      assert Awaits(launches, w.session, w.ticket, r);
    }
  }

  lemma SettledIsUnqueued(m: State, launches: Launches, session: string)
    requires WaitersPlaced(m.queues, launches) && QueuesOk(m.queues, m.asked, m.outcomes) && session in launches
    requires launches[session].phase.Waiting? && launches[session].phase.ticket in m.outcomes
    ensures WaitsForNothing(m, session)
  {
    forall r, w | w in Queue(m, r) ensures w.session != session {
      assert Awaits(launches, w.session, w.ticket, r);
      assert Open(m.asked, m.outcomes, r, w);
    }
  }

  lemma GrantPlaced(m: State, launches: Launches, r: string, session: string, expires: Option<Time>, now: Time)
    requires Placed(m, launches) && Owns(launches, m.outcomes, session, r)
    ensures Placed(Grant(m, r, session, expires, now), launches)
  {
  }

  lemma AskPlaced(m: State, launches: Launches, session: string, now: Time)
    requires Placed(m, launches) && session in launches
    requires launches[session].phase.Asking? && launches[session].got < |launches[session].plan|
    ensures var l := launches[session];
            var r := l.plan[l.got];
            Placed(Acquire(m, r, session, TTL, now), launches[session := AfterAsk(l, AcquireAnswer(m, r))])
  {
    var l := launches[session];
    var r := l.plan[l.got];
    var l' := AfterAsk(l, AcquireAnswer(m, r));
    AskingIsUnqueued(m, launches, session);
    LaunchMoves(m, launches, session, l');
    var launches' := launches[session := l'];
    match AcquireAnswer(m, r)
    case UnknownResource =>
    case Immediately(_) =>
      assert l'.plan[l.got] == r && Reached(l', m.outcomes, l.got);
      GrantPlaced(m, launches', r, session, Deadline(TTL, now), now);
    case MustWait(t) =>
      EnqueuePlaced(m, launches', r, Waiter(t, session));
  }

  lemma EnqueuePlaced(m: State, launches: Launches, r: string, w: Waiter)
    requires WaitersPlaced(m.queues, launches) && Awaits(launches, w.session, w.ticket, r)
    ensures WaitersPlaced(m.queues[r := Queue(m, r) + [w]], launches)
  {
    var queues' := m.queues[r := Queue(m, r) + [w]];
    forall o, v | v in QueueOf(queues', o) ensures Awaits(launches, v.session, v.ticket, o) {
      if v !in QueueOf(m.queues, o) { assert v == w && o == r; }
    }
  }

  /** Giving up takes the caller's only entry out of the queues. */
  lemma GiveUpUnqueues(m: State, launches: Launches, session: string)
    requires WaitersPlaced(m.queues, launches) && QueuesOk(m.queues, m.asked, m.outcomes) && session in launches
    requires launches[session].phase.Waiting? && launches[session].got < |launches[session].plan|
    ensures var l := launches[session];
            var m' := Cancel(m, l.plan[l.got], l.phase.ticket);
            && WaitsForNothing(m', session)
            && forall r, w | w in QueueOf(m'.queues, r) :: w in QueueOf(m.queues, r)
  {
    var l := launches[session];
    var r, t := l.plan[l.got], l.phase.ticket;
    var m' := Cancel(m, r, t);
    WithoutTicketSubset(Queue(m, r), t);
    forall o, w | w in QueueOf(m'.queues, o) ensures w in QueueOf(m.queues, o) {}
    forall o, w | w in Queue(m', o) ensures w.session != session {
      assert Awaits(launches, w.session, w.ticket, o);
      if w.session == session {
        assert o == r && w.ticket == t;
        TicketGone(m, r, t, w);
      }
    }
  }

  lemma TicketGone(m: State, r: string, t: nat, w: Waiter)
    requires QueuesOk(m.queues, m.asked, m.outcomes) && w in Queue(Cancel(m, r, t), r)
    ensures w.ticket != t
  {
    var q := Queue(m, r);
    assert Increasing(QueueOf(m.queues, r));
    if Queued(q, t) {
      var i :| 0 <= i < |q| && q[i].ticket == t;
      WithoutTicketIs(q, t, i);
    } else {
      assert forall i | 0 <= i < |q| :: q[i].ticket != t;
    }
  }

  lemma GiveUpPlaced(m: State, launches: Launches, session: string)
    requires Placed(m, launches) && QueuesOk(m.queues, m.asked, m.outcomes) && session in launches
    requires launches[session].phase.Waiting? && launches[session].got < |launches[session].plan|
    ensures var l := launches[session];
            Placed(Cancel(m, l.plan[l.got], l.phase.ticket), launches[session := l.(phase := Failed)])
  {
    var l := launches[session];
    var m' := Cancel(m, l.plan[l.got], l.phase.ticket);
    GiveUpUnqueues(m, launches, session);
    FewerWaiters(m.queues, m'.queues, launches);
    LaunchMoves(m', launches, session, l.(phase := Failed));
  }

  lemma BeginPlaced(m: State, launches: Launches, session: string, l: Launch)
    requires Placed(m, launches) && Idle(m, session)
    ensures Placed(m, launches[session := l])
  {
    var launches' := launches[session := l];
    forall r, w | w in QueueOf(m.queues, r) ensures Awaits(launches', w.session, w.ticket, r) {
      assert w in Queue(m, r);
      assert Awaits(launches, w.session, w.ticket, r);
    }
    forall id | id in m.leases && m.leases[id].state == Active
      ensures Owns(launches', m.outcomes, m.leases[id].session, m.leases[id].resource)
    {
      assert m.leases[id].session != session;
      assert Owns(launches, m.outcomes, m.leases[id].session, m.leases[id].resource);
    }
  }

  lemma NextKeepsOk(u: World, e: Event)
    requires Ok(u) && Possible(u, e)
    ensures Ok(Next(u, e))
  {
    match e
    case Begin(session, req) =>
      PlansAscend(req);
      if Prepare(req).Needs? { BeginPlaced(u.m, u.launches, session, Launch(Prepare(req).resources, 0, Asking)); }
    case Ask(session, now) =>
      var l := u.launches[session];
      AcquireKeepsInv(u.m, l.plan[l.got], session, TTL, now);
      AskPlaced(u.m, u.launches, session, now);
    case Wake(session) =>
      var l := u.launches[session];
      SettledIsUnqueued(u.m, u.launches, session);
      LaunchMoves(u.m, u.launches, session, AfterWake(l, u.m.outcomes[l.phase.ticket]));
    case GiveUp(session) =>
      var l := u.launches[session];
      CancelKeepsInv(u.m, l.plan[l.got], l.phase.ticket);
      GiveUpPlaced(u.m, u.launches, session);
    case Other(a) =>
      StepKeepsInv(u.m, a);
      OtherPlaced(u.m, a, u.launches);
  }

  /** An execution: only possible events happen. */
  ghost predicate Trace(worlds: seq<World>, events: seq<Event>) {
    && |worlds| == |events| + 1
    && forall i | 0 <= i < |events| :: Possible(worlds[i], events[i]) && worlds[i + 1] == Next(worlds[i], events[i])
  }

  lemma {:induction false} TraceIsOk(worlds: seq<World>, events: seq<Event>, n: nat)
    requires Trace(worlds, events) && n <= |events| && Ok(worlds[0])
    ensures Ok(worlds[n])
  {
    if n > 0 {
      TraceIsOk(worlds, events, n - 1);
      NextKeepsOk(worlds[n - 1], events[n - 1]);
    }
  }

  lemma StartIsOk(res: map<string, Resource>)
    ensures Ok(World(Start(res), map[]))
  {
    StartInv(res);
  }

  // Who waits for whom

  predicate HoldsOn(m: State, session: string, r: string) {
    exists id :: id in m.leases && m.leases[id].state == Active && m.leases[id].session == session
                 && m.leases[id].resource == r
  }

  ghost predicate WaitsOn(m: State, session: string, r: string) {
    exists w :: w in Queue(m, r) && w.session == session
  }

  ghost predicate Blocked(m: State, session: string) {
    exists r :: WaitsOn(m, session, r)
  }

  /** A waiting session holds only resources of strictly smaller rank than the one it waits for, which is
      one of the three. */
  lemma WaitersHoldLess(u: World, session: string, r: string, held: string)
    requires Ok(u) && WaitsOn(u.m, session, r)
    ensures Rank(r) < 3
    ensures HoldsOn(u.m, session, held) ==> Rank(held) < Rank(r)
  {
    var w :| w in Queue(u.m, r) && w.session == session;
    assert w in QueueOf(u.m.queues, r);
    assert Awaits(u.launches, w.session, w.ticket, r) && Open(u.m.asked, u.m.outcomes, r, w);
    var l := u.launches[session];
    if HoldsOn(u.m, session, held) {
      var id :| id in u.m.leases && u.m.leases[id].state == Active && u.m.leases[id].session == session
                && u.m.leases[id].resource == held;
      assert Owns(u.launches, u.m.outcomes, session, held);
      var j :| 0 <= j < |l.plan| && l.plan[j] == held && Reached(l, u.m.outcomes, j);
      assert j < l.got;
    }
  }

  /** Somebody holds whatever somebody waits for, at any capacity. */
  lemma AwaitedIsHeld(m: State, session: string, r: string) returns (holder: string)
    requires Inv(m) && WaitsOn(m, session, r)
    ensures HoldsOn(m, holder, r)
  {
    assert NoIdleSlot(m.res, m.holders, m.queues, r);
    assert |Holders(m, r)| >= 1;
    var id :| id in Holders(m, r);
    assert id in HoldersOf(m.holders, r) <==> ActiveOn(m.leases, r, id);
    holder := m.leases[id].session;
  }

  ghost predicate WaitsFor(m: State, session: string, holder: string) {
    exists r :: WaitsOn(m, session, r) && HoldsOn(m, holder, r)
  }

  /** A chain of sessions, each waiting for a resource the next one holds. */
  ghost predicate Chain(m: State, path: seq<string>) {
    |path| > 0 && forall i | 0 <= i < |path| - 1 :: WaitsFor(m, path[i], path[i + 1])
  }

  lemma ChainGrows(m: State, session: string, rest: seq<string>)
    requires Chain(m, rest) && WaitsFor(m, session, rest[0])
    ensures Chain(m, [session] + rest)
  {
    var path := [session] + rest;
    forall i | 0 <= i < |path| - 1 ensures WaitsFor(m, path[i], path[i + 1]) {
      if i > 0 { assert path[i] == rest[i - 1] && path[i + 1] == rest[i]; }
    }
  }

  /** Following holders from any waiter reaches, in at most three steps, one that waits for nothing and
      can finish: there is no deadlock, whatever the capacities. */
  lemma {:induction false} NoDeadlock(u: World, session: string, r: string) returns (path: seq<string>)
    requires Ok(u) && WaitsOn(u.m, session, r)
    ensures Chain(u.m, path) && path[0] == session && |path| <= 4 - Rank(r)
    ensures !Blocked(u.m, path[|path| - 1])
    decreases 3 - Rank(r)
  {
    WaitersHoldLess(u, session, r, r);
    var holder := AwaitedIsHeld(u.m, session, r);
    assert WaitsFor(u.m, session, holder);
    var rest := [holder];
    if Blocked(u.m, holder) {
      var r' :| WaitsOn(u.m, holder, r');
      WaitersHoldLess(u, holder, r', r);
      rest := NoDeadlock(u, holder, r');
    }
    ChainGrows(u.m, session, rest);
    path := [session] + rest;
  }

  /** In every state any number of launches can reach, each waiter's chain of holders ends in one that
      can go on. */
  lemma DeadlockFree(res: map<string, Resource>, worlds: seq<World>, events: seq<Event>, n: nat, session: string)
    requires Trace(worlds, events) && worlds[0] == World(Start(res), map[]) && n <= |events|
    requires Blocked(worlds[n].m, session)
    ensures exists path :: Chain(worlds[n].m, path) && path[0] == session && |path| <= 4
                           && !Blocked(worlds[n].m, path[|path| - 1])
  {
    StartIsOk(res);
    TraceIsOk(worlds, events, n);
    var r :| WaitsOn(worlds[n].m, session, r);
    var path := NoDeadlock(worlds[n], session, r);
  }

  /** A launch never waits for a resource its own session holds, so ending a session always frees it. */
  lemma TerminationClears(u: World, session: string, order: seq<string>, now: Time)
    requires Ok(u) && LegalOrder(u.m, OwnedBy(session), order, now, now)
    ensures Idle(ReleaseAll(u.m, session, order, now), session)
  {
    var c := OwnedBy(session);
    forall r, i | 0 <= i < Min(|DoomedOn(u.m, c, r)|, |Queue(u.m, r)|) ensures Queue(u.m, r)[i].session != session {
      var w := Queue(u.m, r)[i];
      assert w in Queue(u.m, r);
      assert DoomedOn(u.m, c, r) != {};
      var id :| id in DoomedOn(u.m, c, r);
      assert HoldsOn(u.m, session, r);
      if w.session == session { WaitersHoldLess(u, session, r, r); }
    }
    ReleaseAllExact(u.m, session, order, now);
  }

  /** The session waits for r, which it holds, and nobody else does. */
  ghost predicate WaitsForItself(m: State, session: string, r: string) {
    WaitsOn(m, session, r) && HoldsOn(m, session, r) && forall holder | HoldsOn(m, holder, r) :: holder == session
  }

  lemma AskedWaits(m: State, session: string, r: string, now: Time)
    requires Inv(m) && r in m.res
    ensures WaitsOn(Acquire(m, r, session, TTL, now), session, r) <==> !HasRoom(m, r)
  {
    var m' := Acquire(m, r, session, TTL, now);
    AcquireEffect(m, r, session, TTL, now);
    var q := Queue(m', r);
    if !HasRoom(m, r) {
      assert q[|q| - 1] == Waiter(|m.asked|, session);
      assert q[|q| - 1] in Queue(m', r);
    } else {
      assert q == [];
    }
  }

  lemma FullIsHeld(m: State, r: string)
    requires Inv(m) && r in m.res && !HasRoom(m, r)
    ensures exists session :: HoldsOn(m, session, r)
  {
    assert Holders(m, r) != {};
    var id :| id in Holders(m, r);
    assert id in HoldersOf(m.holders, r) <==> ActiveOn(m.leases, r, id);
    assert HoldsOn(m, m.leases[id].session, r);
  }

  /** Acquisition is not reentrant: a session that asks for a resource waits for nobody but itself exactly when every
      slot is taken, by itself. This is why a launch must start with nothing in hand. */
  lemma RelaunchWaitsForItself(m: State, session: string, r: string, now: Time)
    requires Inv(m) && r in m.res
    ensures WaitsForItself(Acquire(m, r, session, TTL, now), session, r) <==>
            !HasRoom(m, r) && forall holder | HoldsOn(m, holder, r) :: holder == session
  {
    var m' := Acquire(m, r, session, TTL, now);
    AskedWaits(m, session, r, now);
    if !HasRoom(m, r) {
      FullIsHeld(m, r);
      forall holder ensures HoldsOn(m', holder, r) <==> HoldsOn(m, holder, r) {}
    }
  }
}
