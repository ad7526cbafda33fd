/** What a claim on the foreground slot gets, and which operations are cancelled (src/controller/foreground.ts:41-117), said
  * of what happened before. */
module ForegroundClaims {
  import opened Collections
  import opened ForegroundSlot

  /** The slot was closed. */
  predicate WasShut(events: seq<Event>) {
    Shut in events
  }

  /** The operation was cancelled: an abort, or the close, came while it occupied the slot. */
  ghost predicate WasCancelled(events: seq<Event>, id: nat) {
    exists i :: CancelledAt(events, i, id)
  }

  predicate CancelledAt(events: seq<Event>, i: int, id: nat) {
    && 0 <= i < |events| && (events[i].Abort? || events[i].Shut?) && Run(events[..i]).slot.current == Some(id)
  }

  lemma CancelledSnoc(front: seq<Event>, e: Event, i: int, id: nat)
    ensures CancelledAt(front + [e], i, id)
            <==> if i == |front| then (e.Abort? || e.Shut?) && Run(front).slot.current == Some(id)
                 else CancelledAt(front, i, id)
  {
    var events := front + [e];
    assert events[..|front|] == front;
    if 0 <= i < |front| {
      assert events[..i] == front[..i];
    }
  }

  /** A step cancels exactly the occupant, and only when it is an abort or the close. */
  lemma StepCancels(s: System, e: Event)
    ensures Step(s, e).slot.aborted
            == s.slot.aborted + if (e.Abort? || e.Shut?) && s.slot.current.Some? then {s.slot.current.value} else {}
    ensures Step(s, e).slot.closed <==> s.slot.closed || e.Shut?
  {
  }

  /** An operation counts as cancelled exactly when it was, and the slot as closed exactly when it was closed. */
  lemma {:induction false} CancelledExactlyWhen(events: seq<Event>, id: nat)
    ensures id in Run(events).slot.aborted <==> WasCancelled(events, id)
    ensures Run(events).slot.closed <==> WasShut(events)
  {
    if events != [] {
      var front, e := events[..|events| - 1], events[|events| - 1];
      assert events == front + [e];
      CancelledExactlyWhen(front, id);
      StepCancels(Run(front), e);
      forall i
        ensures CancelledAt(events, i, id)
                <==> if i == |front| then (e.Abort? || e.Shut?) && Run(front).slot.current == Some(id)
                     else CancelledAt(front, i, id)
      {
        CancelledSnoc(front, e, i, id);
      }
      CancelGrows(front, e, id);
    }
  }

  lemma CancelGrows(front: seq<Event>, e: Event, id: nat)
    ensures WasCancelled(front + [e], id)
            <==> WasCancelled(front, id) || ((e.Abort? || e.Shut?) && Run(front).slot.current == Some(id))
  {
    CancelledSnoc(front, e, |front|, id);
    if i :| CancelledAt(front, i, id) {
      CancelledSnoc(front, e, i, id);
    }
    if i :| CancelledAt(front + [e], i, id) {
      CancelledSnoc(front, e, i, id);
    }
  }

  /** Somebody occupies the slot, or is promised it. */
  ghost predicate Taken(s: System) {
    exists u: Ticket :: RoleOf(s, u).Occupant? || RoleOf(s, u).Booked? || RoleOf(s, u).Awake?
  }

  /** The claim comes from inside the operation that occupies the slot. */
  ghost predicate FromWithin(s: System, context: Option<nat>) {
    exists u: Ticket :: OccupiesAs(s, u, context)
  }

  predicate OccupiesAs(s: System, u: Ticket, context: Option<nat>) {
    RoleOf(s, u).Occupant? && u < |s.phases|
    && (s.phases[u].Publishing? || s.phases[u].Working?) && context == Some(s.phases[u].id)
  }

  lemma TakenMeans(s: System, context: Option<nat>)
    requires Inv(s) && !s.slot.closed
    ensures Taken(s) <==> s.slot.current.Some? || s.slot.granted
    ensures FromWithin(s, context) <==> s.slot.current.Some? && context == s.slot.current
  {
    if s.occupant.Some? {
      assert RoleOf(s, s.occupant.value).Occupant?;
      if context == s.slot.current {
        assert OccupiesAs(s, s.occupant.value, context);
      }
    }
    if s.reserved.Some? {
      assert RoleOf(s, s.reserved.value).Booked?;
    }
    if s.woken.Some? {
      assert RoleOf(s, s.woken.value).Awake?;
    }
  }

  /** What an arriving claim gets: on a closed slot nothing; within the occupant its own work, unless that was cancelled; a
    * slot that nobody occupies or is promised at once; and otherwise a place in the queue if it waits, or nothing. */
  lemma ArrivalGets(events: seq<Event>, context: Option<nat>, wait: bool)
    ensures var s, n := Run(events), Run(events + [Arrive(context, wait)]);
            |n.phases| == |s.phases| + 1
            && n.phases[|s.phases|]
               == if WasShut(events) then Out
                  else if FromWithin(s, context) then
                    if context.Some? && !WasCancelled(events, context.value) then Inside(context.value) else Out
                  else if !Taken(s) then Publishing(|s.begun| + 1)
                  else if wait then Waiting else Out
  {
    var s := Run(events);
    assert (events + [Arrive(context, wait)])[..|events|] == events;
    EveryRunKeepsInv(events);
    NewestOperation(events);
    CancelledExactlyWhen(events, if context.Some? then context.value else 0);
    if !s.slot.closed {
      TakenMeans(s, context);
    }
  }

  /** An operation starts its work exactly when its begin was published and it was not cancelled meanwhile; otherwise it
    * leaves the slot at once. */
  lemma WorkStartsExactlyWhen(events: seq<Event>, t: Ticket, throws: bool)
    requires var s := Run(events); t < |s.phases| && s.phases[t].Publishing?
    ensures var s := Run(events);
            var id, n := s.phases[t].id, Step(s, Publish(t, throws));
            && |n.phases| == |s.phases|
            && (n.phases[t] == Working(id) <==> !throws && !WasCancelled(events, id))
            && (n.phases[t].Working? ==> n.slot == s.slot)
            && (!n.phases[t].Working? ==> n.phases[t].Ending? && n.slot.current.None?)
  {
    var s := Run(events);
    EveryRunKeepsInv(events);
    CancelledExactlyWhen(events, s.phases[t].id);
    if throws || s.phases[t].id in s.slot.aborted {
      assert RoleOf(s, t).Occupant?;
      LeaveMoves(s, t);
    }
  }
}
