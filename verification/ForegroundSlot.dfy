/** Admission and cancellation of the application's one foreground operation (src/controller/foreground.ts).
  *
  * A claim runs in segments: it is refused, joins its owner, waits, or begins; a begun operation publishes, works and
  * ends. The end reserves the next waiter, publishes, and only then wakes it. Listeners may re-enter at the publishes
  * around an operation, and may throw there; the queued and refused notices only record. */
module ForegroundSlot {
  import opened Collections

  /** A claim is known by its arrival number, an operation by its sequence number. */
  type Ticket = nat

  datatype Slot = Slot(current: Option<nat>, aborted: set<nat>, granted: bool, closed: bool, sequence: nat, waiters: seq<Ticket>)

  const Empty := Slot(None, {}, false, false, 0, [])

  datatype Claimed =
    | Refused
    | Joined(id: nat)
    | Queued
    | Began(id: nat)

  /** What a claim made in an async context gets. */
  function Outcome(s: Slot, context: Option<nat>, wait: bool): Claimed {
    if s.closed then Refused
    else if s.current.Some? && context == s.current then
      if s.current.value in s.aborted then Refused else Joined(s.current.value)
    else if s.current.Some? || s.granted then
      if wait then Queued else Refused
    else Began(s.sequence + 1)
  }

  function Begin(s: Slot): Slot {
    s.(sequence := s.sequence + 1, current := Some(s.sequence + 1))
  }

  function Claim(s: Slot, context: Option<nat>, wait: bool, ticket: Ticket): Slot {
    match Outcome(s, context, wait)
    case Queued => s.(waiters := s.waiters + [ticket])
    case Began(_) => Begin(s)
    case _ => s
  }

  /** A woken waiter goes on: the grant is spent, and a closed slot starts nothing. */
  function Resume(s: Slot): Slot {
    if s.closed then s.(granted := false) else Begin(s.(granted := false))
  }

  /** The occupant leaves; the slot is reserved for the next waiter before anyone is told. */
  function Leave(s: Slot): Slot {
    s.(current := None, granted := s.waiters != [], waiters := if s.waiters == [] then [] else s.waiters[1..])
  }

  function Cancel(s: Slot): Slot {
    if s.current.None? then s else s.(aborted := s.aborted + {s.current.value})
  }

  function Close(s: Slot): Slot {
    Cancel(s).(closed := true, waiters := [])
  }

  class Foreground {
    var current: Option<nat>
    var aborted: set<nat>
    var granted: bool
    var closed: bool
    var sequence: nat
    var waiters: seq<Ticket>

    constructor ()
      ensures State() == Empty
    {
      current, aborted, granted, closed, sequence, waiters := None, {}, false, false, 0, [];
    }

    ghost function State(): Slot
      reads this
    {
      Slot(current, aborted, granted, closed, sequence, waiters)
    }

    method Start() returns (id: nat)
      modifies this
      ensures State() == Begin(old(State())) && id == old(sequence) + 1
    {
      sequence := sequence + 1;
      id := sequence;
      current := Some(id);
    }

    /** Up to the first await: decide, and begin at once when the slot is free. */
    method Enter(context: Option<nat>, wait: bool, ticket: Ticket) returns (claimed: Claimed)
      modifies this
      ensures claimed == Outcome(old(State()), context, wait)
      ensures State() == Claim(old(State()), context, wait, ticket)
    {
      if closed {
        return Refused;
      }
      if current.Some? && context == current {
        return if current.value in aborted then Refused else Joined(current.value);
      }
      if current.Some? || granted {
        if !wait {
          return Refused;
        }
        waiters := waiters + [ticket];
        return Queued;
      }
      var id := Start();
      return Began(id);
    }

    method Continue() returns (id: Option<nat>)
      modifies this
      ensures State() == Resume(old(State()))
      ensures id == if old(closed) then None else Some(old(sequence) + 1)
    {
      granted := false;
      if closed {
        return None;
      }
      var started := Start();
      return Some(started);
    }

    method Exit() returns (next: Option<Ticket>)
      modifies this
      ensures State() == Leave(old(State()))
      ensures next == if old(waiters) == [] then None else Some(old(waiters)[0])
    {
      current := None;
      next := None;
      if waiters != [] {
        next := Some(waiters[0]);
        waiters := waiters[1..];
      }
      granted := next.Some?;
    }

    method Abort() returns (any: bool)
      modifies this
      ensures State() == Cancel(old(State())) && any == old(current).Some?
    {
      if current.None? {
        return false;
      }
      aborted := aborted + {current.value};
      return true;
    }

    method Shut() returns (woken: seq<Ticket>)
      modifies this
      ensures State() == Close(old(State())) && woken == old(waiters)
    {
      closed := true;
      var _ := Abort();
      woken := waiters;
      waiters := [];
    }
  }

  // ---------------------------------------------------------------- all interleavings

  datatype Phase =
    | Out                          // refused or finished
    | Inside(id: nat)              // nested work in its owner's operation
    | Waiting                      // in the queue
    | Reserved                     // taken off the queue by an ending operation that is still publishing
    | Woken                        // its wait has been resolved
    | Publishing(id: nat)          // begun, telling the listener
    | Working(id: nat)
    | Ending(next: Option<Ticket>) // left the slot, telling the listener

  /** The slot, the phase of every claim that ever arrived, the claims that waited, and the claims that began, in order.
    * The last four fields only observe: who occupies the slot, who is promised it, and who owes that claim its wake. */
  datatype System = System(
    slot: Slot, phases: seq<Phase>, waited: set<Ticket>, begun: seq<Ticket>,
    occupant: Option<Ticket>, reserved: Option<Ticket>, reserver: Ticket, woken: Option<Ticket>)

  const Init := System(Empty, [], {}, [], None, None, 0, None)

  datatype Event =
    | Arrive(context: Option<nat>, wait: bool)
    | Go(ticket: Ticket)                    // a woken claim runs on
    | Publish(ticket: Ticket, throws: bool) // the begin publish is over
    | Settle(ticket: Ticket)                // the work, or nested work, resolved or failed
    | Wake(ticket: Ticket)                  // the end publish is over, normally or by a throw
    | Abort
    | Shut

  function Entered(c: Claimed): Phase {
    match c
    case Refused => Out
    case Joined(id) => Inside(id)
    case Queued => Waiting
    case Began(id) => Publishing(id)
  }

  function ArriveStep(s: System, context: Option<nat>, wait: bool): System {
    var t, got := |s.phases|, Outcome(s.slot, context, wait);
    s.(slot := Claim(s.slot, context, wait, t), phases := s.phases + [Entered(got)],
       waited := if got.Queued? then s.waited + {t} else s.waited,
       begun := if got.Began? then s.begun + [t] else s.begun,
       occupant := if got.Began? then Some(t) else s.occupant)
  }

  function GoStep(s: System, t: Ticket): System
    requires t < |s.phases|
  {
    if s.slot.closed then s.(slot := Resume(s.slot), phases := s.phases[t := Out])
    else s.(slot := Resume(s.slot), phases := s.phases[t := Publishing(s.slot.sequence + 1)],
            begun := s.begun + [t], occupant := Some(t), woken := None)
  }

  function LeaveStep(s: System, t: Ticket): System
    requires t < |s.phases|
  {
    var w := s.slot.waiters;
    if w == [] || w[0] >= |s.phases| then s.(slot := Leave(s.slot), phases := s.phases[t := Ending(None)], occupant := None)
    else s.(slot := Leave(s.slot), phases := s.phases[t := Ending(Some(w[0]))][w[0] := Reserved],
            occupant := None, reserved := Some(w[0]), reserver := t)
  }

  function WakeStep(s: System, t: Ticket): System
    requires t < |s.phases| && s.phases[t].Ending?
  {
    var next := s.phases[t].next;
    if next.None? || next.value >= |s.phases| then s.(phases := s.phases[t := Out])
    else s.(phases := s.phases[t := Out][next.value := Woken], reserved := None, woken := next)
  }

  function ShutStep(s: System): System {
    s.(slot := Close(s.slot),
       phases := seq(|s.phases|, (i: nat) requires i < |s.phases| => if i in s.slot.waiters then Woken else s.phases[i]))
  }

  /** One atomic step; an event that is not enabled changes nothing. */
  function Step(s: System, e: Event): System {
    match e
    case Arrive(context, wait) => ArriveStep(s, context, wait)
    case Go(t) => if t < |s.phases| && s.phases[t].Woken? then GoStep(s, t) else s
    case Publish(t, throws) =>
      if t < |s.phases| && s.phases[t].Publishing? then
        if throws || s.phases[t].id in s.slot.aborted then LeaveStep(s, t)
        else s.(phases := s.phases[t := Working(s.phases[t].id)])
      else s
    case Settle(t) =>
      if t < |s.phases| && s.phases[t].Working? then LeaveStep(s, t)
      else if t < |s.phases| && s.phases[t].Inside? then s.(phases := s.phases[t := Out])
      else s
    case Wake(t) => if t < |s.phases| && s.phases[t].Ending? then WakeStep(s, t) else s
    case Abort => s.(slot := Cancel(s.slot))
    case Shut => ShutStep(s)
  }

  function Run(events: seq<Event>): System {
    if events == [] then Init else Step(Run(events[..|events| - 1]), events[|events| - 1])
  }

  // ---------------------------------------------------------------- the invariant

  /** What a claim is to the slot. */
  datatype Role = Nobody | Occupant | Waiter | Booked | Awake | Owing

  function RoleOf(s: System, t: Ticket): Role {
    if t >= |s.phases| then Nobody
    else
      match s.phases[t]
      case Publishing(_) => Occupant
      case Working(_) => Occupant
      case Waiting => Waiter
      case Reserved => Booked
      case Woken => Awake
      case Ending(next) => if next.Some? then Owing else Nobody
      case _ => Nobody
  }

  predicate Pending(r: Role) {
    r.Waiter? || r.Booked? || r.Awake?
  }

  /** There is one occupant, whose operation is the slot's current one and the newest. */
  ghost predicate OccupantOk(s: System) {
    && (forall t: Ticket :: RoleOf(s, t).Occupant? <==> s.occupant == Some(t))
    && (s.occupant.Some? <==> s.slot.current.Some?)
    && (s.occupant.Some? ==> s.phases[s.occupant.value].id == s.slot.current.value == s.slot.sequence)
    && |s.begun| == s.slot.sequence
    && (s.occupant.Some? ==> s.begun != [] && s.begun[|s.begun| - 1] == s.occupant.value)
  }

  /** While open, the grant stands for exactly one promised claim, and excludes an occupant. */
  ghost predicate GrantOk(s: System) {
    && (s.slot.granted ==> s.slot.current.None?)
    && (!s.slot.closed ==>
          && (forall t: Ticket :: RoleOf(s, t).Awake? <==> s.woken == Some(t))
          && (s.slot.granted <==> s.reserved.Some? || s.woken.Some?)
          && (s.reserved.Some? ==> s.woken.None?))
  }

  /** The queue is the waiting claims in arrival order, and exists only while someone will release it. */
  ghost predicate QueueOk(s: System) {
    && (forall t: Ticket :: RoleOf(s, t).Waiter? <==> t in s.slot.waiters)
    && (forall j, k :: 0 <= j < k < |s.slot.waiters| ==> s.slot.waiters[j] < s.slot.waiters[k])
    && (s.slot.waiters != [] ==> !s.slot.closed && (s.slot.current.Some? || s.slot.granted))
  }

  /** A reserved claim is owed its wake by exactly one ending operation. */
  ghost predicate WakesOk(s: System) {
    && (forall t: Ticket :: RoleOf(s, t).Booked? <==> s.reserved == Some(t))
    && (forall t: Ticket :: RoleOf(s, t).Owing? <==> s.reserved.Some? && t == s.reserver)
    && (s.reserved.Some? ==> s.reserver < |s.phases| && s.phases[s.reserver] == Ending(s.reserved))
  }

  /** Only claims that waited are pending, and none of those has begun. */
  ghost predicate WaitedOk(s: System) {
    && (forall t: Ticket :: Pending(RoleOf(s, t)) ==> t in s.waited && t !in s.begun)
    && (forall t: Ticket :: t in s.begun || t in s.waited ==> t < |s.phases|)
  }

  /** While open, a claim that waited and began is older than every pending one. */
  ghost predicate BegunFirst(s: System, t: Ticket) {
    forall u: Ticket :: Pending(RoleOf(s, u)) ==> t < u
  }

  /** While open, the promised claim is older than every waiting one. */
  ghost predicate PendingOk(s: System) {
    !s.slot.closed ==>
      && (forall t: Ticket :: t in s.begun && t in s.waited ==> BegunFirst(s, t))
      && (s.reserved.Some? ==> forall k :: 0 <= k < |s.slot.waiters| ==> s.reserved.value < s.slot.waiters[k])
      && (s.woken.Some? ==> forall k :: 0 <= k < |s.slot.waiters| ==> s.woken.value < s.slot.waiters[k])
  }

  /** Claims that waited began in the order they arrived. */
  ghost predicate BegunInOrder(s: System) {
    forall j, k :: 0 <= j < k < |s.begun| && s.begun[j] in s.waited && s.begun[k] in s.waited ==> s.begun[j] < s.begun[k]
  }

  ghost predicate Inv(s: System) {
    OccupantOk(s) && GrantOk(s) && QueueOk(s) && WakesOk(s) && WaitedOk(s) && PendingOk(s) && BegunInOrder(s)
  }

  lemma ArriveMoves(s: System, context: Option<nat>, wait: bool)
    ensures var n, last, got := ArriveStep(s, context, wait), |s.phases|, Outcome(s.slot, context, wait);
            forall u: Ticket :: RoleOf(n, u) ==
              if u != last then RoleOf(s, u) else if got.Queued? then Waiter else if got.Began? then Occupant else Nobody
  {
  }

  lemma GoMoves(s: System, t: Ticket)
    requires RoleOf(s, t).Awake?
    ensures forall u: Ticket :: RoleOf(GoStep(s, t), u) ==
              if u != t then RoleOf(s, u) else if s.slot.closed then Nobody else Occupant
  {
  }

  lemma LeaveMoves(s: System, t: Ticket)
    requires RoleOf(s, t).Occupant? && QueueOk(s)
    ensures var n, w := LeaveStep(s, t), s.slot.waiters;
            && (w != [] ==> w[0] < |s.phases| && w[0] != t)
            && (forall u: Ticket :: RoleOf(n, u) ==
                  if w == [] then if u == t then Nobody else RoleOf(s, u)
                  else if u == t then Owing else if u == w[0] then Booked else RoleOf(s, u))
  {
    var w := s.slot.waiters;
    if w != [] {
      assert w[0] in w;
      assert RoleOf(s, w[0]).Waiter?;
    }
  }

  lemma WakeMoves(s: System, t: Ticket)
    requires RoleOf(s, t).Owing? && WakesOk(s)
    ensures s.reserved.Some? && t == s.reserver && s.reserved.value != t
    ensures forall u: Ticket :: RoleOf(WakeStep(s, t), u) ==
              if u == t then Nobody else if s.reserved == Some(u) then Awake else RoleOf(s, u)
  {
    assert RoleOf(s, s.reserved.value).Booked?;
  }

  lemma ShutMoves(s: System)
    requires QueueOk(s)
    ensures forall u: Ticket :: RoleOf(ShutStep(s), u) == if RoleOf(s, u).Waiter? then Awake else RoleOf(s, u)
  {
    forall u: Ticket
      ensures RoleOf(ShutStep(s), u) == if RoleOf(s, u).Waiter? then Awake else RoleOf(s, u)
    {
      assert RoleOf(s, u).Waiter? <==> u in s.slot.waiters;
    }
  }

  lemma ArriveKeepsQueue(s: System, context: Option<nat>, wait: bool)
    requires QueueOk(s)
    ensures QueueOk(ArriveStep(s, context, wait))
  {
    ArriveMoves(s, context, wait);
    forall k | 0 <= k < |s.slot.waiters|
      ensures s.slot.waiters[k] < |s.phases|
    {
      assert s.slot.waiters[k] in s.slot.waiters;
      assert RoleOf(s, s.slot.waiters[k]).Waiter?;
    }
  }

  lemma ArriveKeepsPending(s: System, context: Option<nat>, wait: bool)
    requires Inv(s)
    ensures PendingOk(ArriveStep(s, context, wait))
  {
    ArriveMoves(s, context, wait);
  }

  lemma ArriveKeepsBegun(s: System, context: Option<nat>, wait: bool)
    requires Inv(s)
    ensures var n := ArriveStep(s, context, wait); WaitedOk(n) && BegunInOrder(n)
  {
    ArriveMoves(s, context, wait);
  }

  lemma ArriveKeepsInv(s: System, context: Option<nat>, wait: bool)
    requires Inv(s)
    ensures Inv(ArriveStep(s, context, wait))
  {
    ArriveMoves(s, context, wait);
    ArriveKeepsQueue(s, context, wait);
    ArriveKeepsPending(s, context, wait);
    ArriveKeepsBegun(s, context, wait);
    assert OccupantOk(ArriveStep(s, context, wait));
  }

  lemma GoKeepsInv(s: System, t: Ticket)
    requires Inv(s) && RoleOf(s, t).Awake?
    ensures Inv(GoStep(s, t))
  {
    GoMoves(s, t);
  }

  lemma LeaveKeepsInv(s: System, t: Ticket)
    requires Inv(s) && RoleOf(s, t).Occupant?
    ensures Inv(LeaveStep(s, t))
  {
    LeaveMoves(s, t);
  }

  lemma WakeKeepsInv(s: System, t: Ticket)
    requires Inv(s) && RoleOf(s, t).Owing?
    ensures Inv(WakeStep(s, t))
  {
    WakeMoves(s, t);
  }

  lemma ShutKeepsInv(s: System)
    requires Inv(s)
    ensures Inv(ShutStep(s))
  {
    ShutMoves(s);
  }

  /** A step that changes no role keeps the invariant. */
  lemma SameRolesKeepInv(s: System, n: System)
    requires Inv(s) && n == s.(slot := n.slot, phases := n.phases) && |n.phases| == |s.phases|
    requires n.slot == s.slot.(aborted := n.slot.aborted)
    requires forall t: Ticket :: RoleOf(n, t) == RoleOf(s, t)
    requires s.occupant.Some? ==>
               (var t := s.occupant.value;
                t < |s.phases| && RoleOf(s, t).Occupant? && RoleOf(n, t).Occupant? && n.phases[t].id == s.phases[t].id)
    requires s.reserved.Some? ==> s.reserver < |s.phases| && n.phases[s.reserver] == s.phases[s.reserver]
    ensures Inv(n)
  {
  }

  lemma OccupantIs(s: System)
    requires Inv(s)
    ensures s.occupant.Some? ==> s.occupant.value < |s.phases| && RoleOf(s, s.occupant.value).Occupant?
    ensures s.reserved.Some? ==> s.reserver < |s.phases| && RoleOf(s, s.reserver).Owing?
  {
  }

  lemma WorkingKeepsInv(s: System, t: Ticket)
    requires Inv(s) && t < |s.phases| && s.phases[t].Publishing?
    ensures Inv(s.(phases := s.phases[t := Working(s.phases[t].id)]))
  {
    OccupantIs(s);
    SameRolesKeepInv(s, s.(phases := s.phases[t := Working(s.phases[t].id)]));
  }

  lemma BystanderKeepsInv(s: System, t: Ticket)
    requires Inv(s) && t < |s.phases| && RoleOf(s, t).Nobody?
    ensures Inv(s.(phases := s.phases[t := Out]))
  {
    OccupantIs(s);
    SameRolesKeepInv(s, s.(phases := s.phases[t := Out]));
  }

  lemma AbortKeepsInv(s: System)
    requires Inv(s)
    ensures Inv(s.(slot := Cancel(s.slot)))
  {
    OccupantIs(s);
    SameRolesKeepInv(s, s.(slot := Cancel(s.slot)));
  }

  lemma PublishKeepsInv(s: System, t: Ticket, throws: bool)
    requires Inv(s)
    ensures Inv(Step(s, Publish(t, throws)))
  {
    if t < |s.phases| && s.phases[t].Publishing? {
      assert RoleOf(s, t).Occupant?;
      if throws || s.phases[t].id in s.slot.aborted {
        LeaveKeepsInv(s, t);
      } else {
        WorkingKeepsInv(s, t);
      }
    }
  }

  lemma SettleKeepsInv(s: System, t: Ticket)
    requires Inv(s)
    ensures Inv(Step(s, Settle(t)))
  {
    if t < |s.phases| && s.phases[t].Working? {
      assert RoleOf(s, t).Occupant?;
      LeaveKeepsInv(s, t);
    } else if t < |s.phases| && s.phases[t].Inside? {
      BystanderKeepsInv(s, t);
    }
  }

  lemma EndKeepsInv(s: System, t: Ticket)
    requires Inv(s)
    ensures Inv(Step(s, Wake(t)))
  {
    if t < |s.phases| && s.phases[t].Ending? {
      if s.phases[t].next.Some? {
        assert RoleOf(s, t).Owing?;
        WakeKeepsInv(s, t);
      } else {
        BystanderKeepsInv(s, t);
      }
    }
  }

  lemma StepKeepsInv(s: System, e: Event)
    requires Inv(s)
    ensures Inv(Step(s, e))
  {
    match e
    case Arrive(context, wait) => ArriveKeepsInv(s, context, wait);
    case Go(t) =>
      if RoleOf(s, t).Awake? {
        GoKeepsInv(s, t);
      }
    case Publish(t, throws) => PublishKeepsInv(s, t, throws);
    case Settle(t) => SettleKeepsInv(s, t);
    case Wake(t) => EndKeepsInv(s, t);
    case Abort => AbortKeepsInv(s);
    case Shut => ShutKeepsInv(s);
  }

  // ---------------------------------------------------------------- main results

  lemma {:induction false} EveryRunKeepsInv(events: seq<Event>)
    ensures Inv(Run(events))
  {
    if events != [] {
      EveryRunKeepsInv(events[..|events| - 1]);
      StepKeepsInv(Run(events[..|events| - 1]), events[|events| - 1]);
    }
  }

  /** At most one top-level operation occupies the slot; while it is open, none does while a waiter is promised it, and
    * at most one waiter is. */
  lemma OneOwner(events: seq<Event>, t: Ticket, u: Ticket)
    ensures var s := Run(events);
            && (RoleOf(s, t).Occupant? && RoleOf(s, u).Occupant? ==> t == u)
            && (!s.slot.closed && (RoleOf(s, t).Booked? || RoleOf(s, t).Awake?) ==>
                  && !RoleOf(s, u).Occupant? && s.slot.granted
                  && (RoleOf(s, u).Booked? || RoleOf(s, u).Awake? ==> t == u))
  {
    EveryRunKeepsInv(events);
  }

  /** Waiters begin in arrival order, however many claims come and go and whichever listener throws. */
  lemma WaitersBeginInArrivalOrder(events: seq<Event>, j: nat, k: nat)
    requires j < k < |Run(events).begun|
    requires Run(events).begun[j] in Run(events).waited && Run(events).begun[k] in Run(events).waited
    ensures Run(events).begun[j] < Run(events).begun[k]
  {
    EveryRunKeepsInv(events);
  }

  /** While a waiter is promised the slot, no arriving claim begins: an observer that claims inside the end publish is
    * refused or queued behind it. */
  lemma NobodyOvertakesThePromised(events: seq<Event>, t: Ticket, context: Option<nat>, wait: bool)
    requires RoleOf(Run(events), t).Booked? || RoleOf(Run(events), t).Awake?
    ensures !Outcome(Run(events).slot, context, wait).Began?
  {
    EveryRunKeepsInv(events);
  }

  /** Nested work enters only the operation its own context belongs to, while that operation occupies the slot and has
    * not been cancelled. */
  lemma NestedOnlyInItsOwner(events: seq<Event>, context: Option<nat>, wait: bool)
    requires Outcome(Run(events).slot, context, wait).Joined?
    ensures var s := Run(events);
            && s.occupant.Some? && RoleOf(s, s.occupant.value).Occupant?
            && context == Some(s.phases[s.occupant.value].id) && s.phases[s.occupant.value].id !in s.slot.aborted
  {
    EveryRunKeepsInv(events);
    assert RoleOf(Run(events), Run(events).occupant.value).Occupant?;
  }

  /** Operation numbers are never used twice: the k-th operation to begin is number k. */
  lemma NewestOperation(events: seq<Event>)
    ensures var s := Run(events);
            && |s.begun| == s.slot.sequence
            && (s.slot.current.Some? ==> s.slot.current.value == |s.begun|)
  {
    EveryRunKeepsInv(events);
  }

  /** A context inherited from an operation that has left the slot never enters a later one. */
  lemma StaleContextStaysOut(events: seq<Event>, e: Event, id: nat, wait: bool)
    requires Run(events).slot.current == Some(id) && Step(Run(events), e).slot.current != Some(id)
    ensures forall later: seq<Event> :: !Outcome(Run(events + [e] + later).slot, Some(id), wait).Joined?
  {
    NewestOperation(events);
    var s, n := Run(events), Step(Run(events), e);
    assert (events + [e])[..|events|] == events;
    assert n.slot.current.None? by {
      EveryRunKeepsInv(events);
      EveryRunKeepsInv(events + [e]);
      CurrentIsKeptOrLeft(s, e);
    }
    forall later: seq<Event>
      ensures !Outcome(Run(events + [e] + later).slot, Some(id), wait).Joined?
    {
      GoneForever(events + [e], id, later);
    }
  }

  /** While an operation occupies the slot, a step either keeps it or empties the slot. */
  lemma CurrentIsKeptOrLeft(s: System, e: Event)
    requires Inv(s) && s.slot.current.Some?
    ensures Step(s, e).slot.current == s.slot.current || Step(s, e).slot.current.None?
    ensures Step(s, e).slot.sequence == s.slot.sequence
  {
    assert !s.slot.closed ==> forall t: Ticket :: !RoleOf(s, t).Awake?;
  }

  /** An operation number that has left the slot does not come back in one step. */
  lemma GoneOneStep(s: System, e: Event, id: nat)
    requires Inv(s) && s.slot.current != Some(id) && id <= s.slot.sequence
    ensures Step(s, e).slot.current != Some(id) && id <= Step(s, e).slot.sequence
  {
    if s.slot.current.Some? {
      CurrentIsKeptOrLeft(s, e);
    }
  }

  lemma RunSnoc(events: seq<Event>, e: Event)
    ensures Run(events + [e]) == Step(Run(events), e)
  {
    assert (events + [e])[..|events|] == events;
  }

  lemma {:induction false} GoneForever(events: seq<Event>, id: nat, later: seq<Event>)
    requires Run(events).slot.current.None? && id <= Run(events).slot.sequence
    ensures var s := Run(events + later).slot; s.current != Some(id) && id <= s.sequence
  {
    if later == [] {
      assert events + later == events;
    } else {
      var front, e := later[..|later| - 1], later[|later| - 1];
      GoneForever(events, id, front);
      Regroup(events, front, [e], later);
      RunSnoc(events + front, e);
      EveryRunKeepsInv(events + front);
      GoneOneStep(Run(events + front), e, id);
    }
  }

  /** A closed slot starts nothing any more. */
  lemma NothingBeginsAfterClose(events: seq<Event>, e: Event)
    requires Run(events).slot.closed
    ensures Step(Run(events), e).slot.closed && Step(Run(events), e).begun == Run(events).begun
  {
  }

  /** An operation cancelled while its begin was being published never starts its work. */
  lemma CancelledBeforeWorkNeverWorks(events: seq<Event>, t: Ticket, throws: bool)
    requires var s := Run(events); t < |s.phases| && s.phases[t].Publishing? && s.phases[t].id in s.slot.aborted
    ensures Step(Run(events), Publish(t, throws)).phases[t].Ending?
  {
    EveryRunKeepsInv(events);
    assert RoleOf(Run(events), t).Occupant?;
    LeaveMoves(Run(events), t);
  }

  /** No wakeup is lost: while a claim waits the slot is open and some claim's next step is on the way to releasing it -
    * an occupant, the promised waiter, or the ending operation that owes that waiter its wake. */
  lemma NoLostWakeup(events: seq<Event>, t: Ticket)
    requires RoleOf(Run(events), t).Waiter?
    ensures var s := Run(events);
            && !s.slot.closed
            && exists u: Ticket :: RoleOf(s, u).Occupant? || RoleOf(s, u).Awake? || (RoleOf(s, u).Owing? && s.phases[u].next == s.reserved)
  {
    EveryRunKeepsInv(events);
    var s := Run(events);
    assert t in s.slot.waiters;
    if s.slot.current.Some? {
      assert RoleOf(s, s.occupant.value).Occupant?;
    } else if s.woken.Some? {
      assert RoleOf(s, s.woken.value).Awake?;
    } else {
      assert RoleOf(s, s.reserver).Owing?;
    }
  }

  /** An end that took a waiter off the queue wakes exactly that waiter, whether or not its publish threw. */
  lemma EveryEndWakesItsWaiter(events: seq<Event>, t: Ticket)
    requires RoleOf(Run(events), t).Owing?
    ensures var s := Run(events);
            && RoleOf(s, s.phases[t].next.value).Booked?
            && RoleOf(Step(s, Wake(t)), s.phases[t].next.value).Awake?
  {
    EveryRunKeepsInv(events);
    WakeMoves(Run(events), t);
  }

  /** Steps a claim still has to take. */
  function Owed(p: Phase): nat {
    match p
    case Out => 0
    case Inside(_) => 1
    case Ending(_) => 1
    case Working(_) => 2
    case Publishing(_) => 3
    case Woken => 4
    case Reserved => 5
    case Waiting => 6
  }

  function Work(phases: seq<Phase>): nat {
    if phases == [] then 0 else Work(phases[..|phases| - 1]) + Owed(phases[|phases| - 1])
  }

  lemma {:induction false} WorkOfChange(phases: seq<Phase>, t: Ticket, p: Phase)
    requires t < |phases|
    ensures Work(phases[t := p]) == Work(phases) - Owed(phases[t]) + Owed(p)
  {
    var front := phases[..|phases| - 1];
    if t == |front| {
      assert phases[t := p][..|front|] == front;
    } else {
      assert phases[t := p][..|front|] == front[t := p];
      WorkOfChange(front, t, p);
    }
  }

  predicate Advances(e: Event) {
    e.Go? || e.Publish? || e.Settle? || e.Wake?
  }

  lemma LeaveUsesWork(s: System, t: Ticket)
    requires Inv(s) && RoleOf(s, t).Occupant?
    ensures Work(LeaveStep(s, t).phases) < Work(s.phases)
  {
    LeaveMoves(s, t);
    var w := s.slot.waiters;
    if w == [] {
      WorkOfChange(s.phases, t, Ending(None));
    } else {
      var first := w[0];
      assert first in w;
      assert RoleOf(s, first).Waiter?;
      assert first != t && first < |s.phases| && s.phases[first] == Waiting;
      var ended := s.phases[t := Ending(Some(first))];
      WorkOfChange(s.phases, t, Ending(Some(first)));
      WorkOfChange(ended, first, Reserved);
    }
  }

  lemma WakeUsesWork(s: System, t: Ticket)
    requires Inv(s) && RoleOf(s, t).Owing?
    ensures Work(WakeStep(s, t).phases) < Work(s.phases)
  {
    WakeMoves(s, t);
    assert RoleOf(s, s.reserved.value).Booked?;
    WorkOfChange(s.phases, t, Out);
    WorkOfChange(s.phases[t := Out], s.reserved.value, Woken);
  }

  lemma AdvanceUsesWork(s: System, e: Event)
    requires Inv(s) && Advances(e) && Step(s, e) != s
    ensures Work(Step(s, e).phases) < Work(s.phases)
  {
    var t := e.ticket;
    match e
    case Go(_) => WorkOfChange(s.phases, t, Step(s, e).phases[t]);
    case Publish(_, throws) =>
      if throws || s.phases[t].id in s.slot.aborted {
        LeaveUsesWork(s, t);
      } else {
        WorkOfChange(s.phases, t, Working(s.phases[t].id));
      }
    case Settle(_) =>
      if s.phases[t].Working? {
        LeaveUsesWork(s, t);
      } else {
        WorkOfChange(s.phases, t, Out);
      }
    case Wake(_) =>
      if s.phases[t].next.Some? {
        WakeUsesWork(s, t);
      } else {
        WorkOfChange(s.phases, t, Out);
      }
  }

  /** Some claim can still take a step unless every claim is finished. */
  lemma UnfinishedCanAdvance(s: System, t: Ticket)
    requires Inv(s) && t < |s.phases| && !s.phases[t].Out?
    ensures exists e: Event :: Advances(e) && Step(s, e) != s
  {
    if RoleOf(s, t).Waiter? {
      assert t in s.slot.waiters;
      if s.slot.current.Some? {
        CanAdvance(s, s.occupant.value);
      } else if s.woken.Some? {
        CanAdvance(s, s.woken.value);
      } else {
        CanAdvance(s, s.reserver);
      }
    } else if RoleOf(s, t).Booked? {
      CanAdvance(s, s.reserver);
    } else {
      CanAdvance(s, t);
    }
  }

  lemma CanAdvance(s: System, t: Ticket)
    requires Inv(s) && t < |s.phases| && !s.phases[t].Out? && !s.phases[t].Waiting? && !s.phases[t].Reserved?
    ensures exists e: Event :: Advances(e) && Step(s, e) != s
  {
    var e := if s.phases[t].Woken? then Go(t) else if s.phases[t].Publishing? then Publish(t, false)
             else if s.phases[t].Ending? then Wake(t) else Settle(t);
    assert Step(s, e).phases[t] != s.phases[t] by {
      if RoleOf(s, t).Occupant? {
        LeaveMoves(s, t);
      } else if RoleOf(s, t).Owing? {
        WakeMoves(s, t);
      }
    }
    assert Advances(e);
  }

  /** Without new arrivals every claim finishes: each step of a claim uses up work, and while one is unfinished some
    * step is enabled. */
  lemma EveryClaimFinishes(events: seq<Event>)
    ensures var s := Run(events);
            && (forall e: Event :: Advances(e) && Step(s, e) != s ==> Work(Step(s, e).phases) < Work(s.phases))
            && ((forall e: Event :: Advances(e) ==> Step(s, e) == s) ==> forall t: Ticket :: t < |s.phases| ==> s.phases[t].Out?)
  {
    var s := Run(events);
    EveryRunKeepsInv(events);
    forall e: Event | Advances(e) && Step(s, e) != s
      ensures Work(Step(s, e).phases) < Work(s.phases)
    {
      AdvanceUsesWork(s, e);
    }
    if forall e: Event :: Advances(e) ==> Step(s, e) == s {
      forall t: Ticket | t < |s.phases|
        ensures s.phases[t].Out?
      {
        if !s.phases[t].Out? {
          UnfinishedCanAdvance(s, t);
        }
      }
    }
  }
}
