/** The lease manager's state and its atomic steps, as functions on values.
    Every step is one critical section of internal/lease/manager.go. */
module LeaseModel {
  import opened Options
  import Ids

  /** Nanoseconds. */
  type Time = int

  datatype LeaseMode = Exclusive | Shared | Capacity | OtherMode(name: string)

  datatype Resource = Resource(mode: LeaseMode, capacity: int)

  datatype LeaseState = Active | Released | Expired

  datatype Lease = Lease(id: string, resource: string, session: string, created: Time,
                         expires: Option<Time>, state: LeaseState, ended: Option<Time>)

  /** A queued acquire. Go tells waiters apart by address; here by ticket, the position in `asked`. */
  datatype Waiter = Waiter(ticket: nat, session: string)

  datatype Request = Request(resource: string, session: string)

  /** What a closed waiter channel delivers: the granted lease, or the session-ended error. */
  datatype Outcome = Granted(lease: string) | Dropped

  /** `asked` logs every request that had to queue and `outcomes` holds the settled ones: together
      they are the contents of the Waiter objects. `panicked` records a close of a closed channel
      or a nil resource dereference. */
  datatype State = State(
    res: map<string, Resource>,
    leases: map<string, Lease>,
    holders: map<string, set<string>>,
    queues: map<string, seq<Waiter>>,
    lastId: nat,
    asked: seq<Request>,
    outcomes: map<nat, Outcome>,
    panicked: bool)

  function Start(res: map<string, Resource>): State {
    State(res, map[], map[], map[], 0, [], map[], false)
  }

  // A missing entry of a Go map reads as its zero value.
  function HoldersOf(holders: map<string, set<string>>, r: string): set<string> {
    if r in holders then holders[r] else {}
  }

  function QueueOf(queues: map<string, seq<Waiter>>, r: string): seq<Waiter> {
    if r in queues then queues[r] else []
  }

  function Holders(s: State, r: string): set<string> { HoldersOf(s.holders, r) }

  function Queue(s: State, r: string): seq<Waiter> { QueueOf(s.queues, r) }

  function CapacityOf(r: Resource): (n: nat)
    ensures n >= 1
  {
    match r.mode
    case Exclusive => 1
    case Shared => 0x4000_0000
    case Capacity => if r.capacity <= 0 then 1 else r.capacity
    case OtherMode(_) => 1
  }

  predicate HasRoom(s: State, r: string)
    requires r in s.res
  {
    |Holders(s, r)| < CapacityOf(s.res[r])
  }

  function NewId(s: State): string { Ids.LeaseId(s.lastId + 1) }

  /** Enter a new active lease in the table and in the index. */
  function AddLease(s: State, l: Lease): State {
    s.(leases := s.leases[l.id := l],
       holders := s.holders[l.resource := Holders(s, l.resource) + {l.id}])
  }

  function Grant(s: State, r: string, session: string, expires: Option<Time>, now: Time): State {
    AddLease(s, Lease(NewId(s), r, session, now, expires, Active, None)).(lastId := s.lastId + 1)
  }

  /** Fill in a waiter and close its channel; closing twice panics. */
  function Settle(s: State, ticket: nat, o: Outcome): State {
    if ticket in s.outcomes then s.(panicked := true)
    else s.(outcomes := s.outcomes[ticket := o])
  }

  /** Grant the head waiter if there is room. A grant from the queue carries no expiry. */
  function TrySatisfy(s: State, r: string, now: Time): State {
    var q := Queue(s, r);
    if q == [] then s
    else if r !in s.res then s.(panicked := true)
    else if !HasRoom(s, r) then s
    else Settle(Grant(s.(queues := s.queues[r := q[1..]]), r, q[0].session, None, now),
                q[0].ticket, Granted(NewId(s)))
  }

  function Deadline(ttl: int, now: Time): Option<Time> {
    if ttl > 0 then Some(now + ttl) else None
  }

  datatype AcquireResult = UnknownResource | Immediately(lease: string) | MustWait(ticket: nat)

  function AcquireAnswer(s: State, r: string): AcquireResult {
    if r !in s.res then UnknownResource
    else if HasRoom(s, r) then Immediately(NewId(s))
    else MustWait(|s.asked|)
  }

  /** The part of Acquire before it blocks. */
  function Acquire(s: State, r: string, session: string, ttl: int, now: Time): State {
    match AcquireAnswer(s, r)
    case UnknownResource => s
    case Immediately(_) => Grant(s, r, session, Deadline(ttl, now), now)
    case MustWait(t) =>
      s.(queues := s.queues[r := Queue(s, r) + [Waiter(t, session)]],
         asked := s.asked + [Request(r, session)])
  }

  function WithoutTicket(q: seq<Waiter>, ticket: nat): seq<Waiter> {
    if q == [] then []
    else if q[0].ticket == ticket then q[1..]
    else [q[0]] + WithoutTicket(q[1..], ticket)
  }

  predicate Queued(q: seq<Waiter>, ticket: nat) {
    exists i :: 0 <= i < |q| && q[i].ticket == ticket
  }

  /** A cancelled caller takes itself out of the queue, if it is still there. */
  function Cancel(s: State, r: string, ticket: nat): State {
    if Queued(Queue(s, r), ticket)
    then s.(queues := s.queues[r := WithoutTicket(Queue(s, r), ticket)])
    else s
  }

  /** Mark a lease ended and drop it from its resource's holders. */
  function End(s: State, id: string, to: LeaseState, stamp: Time): State
    requires id in s.leases
  {
    var l := s.leases[id];
    s.(leases := s.leases[id := l.(state := to, ended := Some(stamp))],
       holders := if l.resource in s.holders
                  then s.holders[l.resource := s.holders[l.resource] - {id}] else s.holders)
  }

  predicate IsActive(s: State, id: string) {
    id in s.leases && s.leases[id].state == Active
  }

  /** End one lease and hand its slot to the next waiter. */
  function EndAndHandOff(s: State, id: string, to: LeaseState, stamp: Time, now: Time): State
    requires id in s.leases
  {
    TrySatisfy(End(s, id, to, stamp), s.leases[id].resource, now)
  }

  function Release(s: State, id: string, now: Time): State {
    if IsActive(s, id) then EndAndHandOff(s, id, Released, now, now) else s
  }

  function ExpireNow(s: State, id: string, now: Time): State {
    if IsActive(s, id) then EndAndHandOff(s, id, Expired, now, now) else s
  }

  function Renew(s: State, id: string, ttl: int, now: Time): State {
    if ttl > 0 && IsActive(s, id)
    then s.(leases := s.leases[id := s.leases[id].(expires := Some(now + ttl))])
    else s
  }

  function EnsureResource(s: State, r: string, mode: LeaseMode): State {
    if r in s.res then s
    else s.(res := s.res[r := Resource(mode, if mode == Capacity then 1 else 0)])
  }

  // Loops over the lease table: ReleaseAll, Sweep, ReapOrphans

  /** Which leases a loop over the table ends. */
  datatype Criterion = OwnedBy(owner: string) | Overdue(cutoff: Time) | Unowned(live: set<string>)

  predicate Matches(c: Criterion, session: string, expires: Option<Time>) {
    match c
    case OwnedBy(owner) => session == owner
    case Overdue(cutoff) => expires.Some? && expires.value < cutoff
    case Unowned(live) => session !in live
  }

  function EndState(c: Criterion): LeaseState {
    if c.OwnedBy? then Released else Expired
  }

  /** The lease is active and the loop ends it when it reaches it. */
  predicate Doomed(s: State, c: Criterion, id: string) {
    IsActive(s, id) && Matches(c, s.leases[id].session, s.leases[id].expires)
  }

  /** One iteration of the loop. */
  function Visit(s: State, c: Criterion, id: string, stamp: Time, now: Time): State {
    if Doomed(s, c, id) then EndAndHandOff(s, id, EndState(c), stamp, now) else s
  }

  function Visits(s: State, c: Criterion, order: seq<string>, stamp: Time, now: Time): State {
    if order == [] then s
    else Visit(Visits(s, c, order[..|order| - 1], stamp, now), c, order[|order| - 1], stamp, now)
  }

  function Elems(order: seq<string>): set<string> { set id | id in order }

  predicate NoRepeats(order: seq<string>) {
    forall i, j | 0 <= i < j < |order| :: order[i] != order[j]
  }

  /** The visiting orders Go allows for `range m.leases`: no entry twice, every entry that existed at
      the start, and of the entries inserted by the loop itself any or none, once they exist. */
  ghost predicate LegalOrder(s: State, c: Criterion, order: seq<string>, stamp: Time, now: Time) {
    && NoRepeats(order)
    && s.leases.Keys <= Elems(order)
    && forall i | 0 <= i < |order| :: order[i] in Visits(s, c, order[..i], stamp, now).leases
  }

  function Survivors(q: seq<Waiter>, session: string): seq<Waiter> {
    if q == [] then []
    else
      var rest := Survivors(q[..|q| - 1], session);
      if q[|q| - 1].session == session then rest else rest + [q[|q| - 1]]
  }

  /** The tickets of a session's waiters, over all queues. */
  function TicketsOf(s: State, session: string): set<nat> {
    set r, i | r in s.queues && 0 <= i < |s.queues[r]| && s.queues[r][i].session == session
      :: s.queues[r][i].ticket
  }

  function WithoutSession(queues: map<string, seq<Waiter>>, session: string): map<string, seq<Waiter>> {
    map r | r in queues :: Survivors(queues[r], session)
  }

  /** ReleaseAll's second loop: drop the dying session's waiters and close their channels. */
  function DropWaiters(s: State, session: string): State {
    var dropped := TicketsOf(s, session);
    s.(queues := WithoutSession(s.queues, session),
       outcomes := s.outcomes + map t | t in dropped - s.outcomes.Keys :: Dropped,
       panicked := s.panicked || dropped * s.outcomes.Keys != {})
  }

  function ReleaseAll(s: State, session: string, order: seq<string>, now: Time): State {
    DropWaiters(Visits(s, OwnedBy(session), order, now, now), session)
  }

  function Sweep(s: State, cutoff: Time, order: seq<string>, now: Time): State {
    Visits(s, Overdue(cutoff), order, cutoff, now)
  }

  function ReapOrphans(s: State, live: set<string>, order: seq<string>, now: Time): State {
    Visits(s, Unowned(live), order, now, now)
  }

  // Steps

  datatype Action =
    | DoAcquire(resource: string, session: string, ttl: int, now: Time)
    | DoCancel(resource: string, ticket: nat)
    | DoRelease(id: string, now: Time)
    | DoReleaseAll(session: string, order: seq<string>, now: Time)
    | DoRenew(id: string, ttl: int, now: Time)
    | DoExpireNow(id: string, now: Time)
    | DoSweep(cutoff: Time, order: seq<string>, now: Time)
    | DoReapOrphans(live: set<string>, order: seq<string>, now: Time)
    | DoEnsure(resource: string, mode: LeaseMode)

  /** The actions that loop over the lease table. */
  predicate OverTheTable(a: Action) { a.DoReleaseAll? || a.DoSweep? || a.DoReapOrphans? }

  function Step(s: State, a: Action): State {
    match a
    case DoAcquire(r, session, ttl, now) => Acquire(s, r, session, ttl, now)
    case DoCancel(r, ticket) => Cancel(s, r, ticket)
    case DoRelease(id, now) => Release(s, id, now)
    case DoReleaseAll(session, order, now) => ReleaseAll(s, session, order, now)
    case DoRenew(id, ttl, now) => Renew(s, id, ttl, now)
    case DoExpireNow(id, now) => ExpireNow(s, id, now)
    case DoSweep(cutoff, order, now) => Sweep(s, cutoff, order, now)
    case DoReapOrphans(live, order, now) => ReapOrphans(s, live, order, now)
    case DoEnsure(r, mode) => EnsureResource(s, r, mode)
  }

  function Run(s: State, actions: seq<Action>): State {
    if actions == [] then s
    else Step(Run(s, actions[..|actions| - 1]), actions[|actions| - 1])
  }
}
