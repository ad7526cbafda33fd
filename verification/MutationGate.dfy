/** Per-session admission order of mutations (src/session/mutation-gate.ts).
  *
  * An admission arrives, waits for its session's gate, is granted it, dispatches one section and hands the gate on.
  * Each of those is one atomic step; any interleaving of the steps of any number of admissions is a run. */
module MutationGate {
  import opened Collections

  datatype Lane = Normal | Control

  /** An admission is known by its arrival number. */
  type Ticket = nat

  /** One session's queue object. The map of sessions refers to it by identity, as the source does. */
  datatype Queue = Queue(busy: bool, control: seq<Ticket>, normal: seq<Ticket>)

  /** The gate's own fields: the queue objects made so far, and which one each session currently uses. */
  datatype Gate = Gate(objects: seq<Queue>, lanes: map<string, nat>)
  {
    ghost predicate Refers() {
      forall session :: session in lanes ==> lanes[session] < |objects|
    }
  }

  const Idle := Queue(false, [], [])

  /** The session's queue object, made on first use. */
  function Opened(g: Gate, session: string): Gate {
    if session in g.lanes then g else Gate(g.objects + [Idle], g.lanes[session := |g.objects|])
  }

  /** Join a queue, or take the gate when it is free. */
  function Acquire(q: Queue, lane: Lane, ticket: Ticket): Queue {
    if !q.busy then q.(busy := true)
    else if lane.Control? then q.(control := q.control + [ticket])
    else q.(normal := q.normal + [ticket])
  }

  /** The waiter a release wakes: a control one before any normal one. */
  function Next(q: Queue): Option<Ticket> {
    if q.control != [] then Some(q.control[0]) else if q.normal != [] then Some(q.normal[0]) else None
  }

  /** A release hands the gate to the next waiter, or frees the queue and forgets it when it is still the session's. */
  function Release(g: Gate, session: string, id: nat): Gate
    requires id < |g.objects|
  {
    var q := g.objects[id];
    if q.control != [] then g.(objects := g.objects[id := q.(control := q.control[1..])])
    else if q.normal != [] then g.(objects := g.objects[id := q.(normal := q.normal[1..])])
    else
      Gate(g.objects[id := q.(busy := false)],
           if session in g.lanes && g.lanes[session] == id then g.lanes - {session} else g.lanes)
  }

  class SessionMutationGate {
    var objects: seq<Queue>
    var lanes: map<string, nat>

    constructor ()
      ensures State() == Gate([], map[])
    {
      objects, lanes := [], map[];
    }

    ghost function State(): Gate
      reads this
    {
      Gate(objects, lanes)
    }

    /** The part of an admission before it waits: find the queue, then take the gate or join. */
    method Admit(session: string, lane: Lane, ticket: Ticket) returns (id: nat, granted: bool)
      requires State().Refers()
      modifies this
      ensures var joined := Opened(old(State()), session);
              && session in joined.lanes && id == joined.lanes[session] < |joined.objects|
              && State() == joined.(objects := joined.objects[id := Acquire(joined.objects[id], lane, ticket)])
              && granted == !joined.objects[id].busy
    {
      if session !in lanes {
        lanes := lanes[session := |objects|];
        objects := objects + [Idle];
      }
      id := lanes[session];
      var queue := objects[id];
      granted := !queue.busy;
      if granted {
        queue := queue.(busy := true);
      } else if lane == Control {
        queue := queue.(control := queue.control + [ticket]);
      } else {
        queue := queue.(normal := queue.normal + [ticket]);
      }
      objects := objects[id := queue];
    }

    /** The part after the section returned or threw. */
    method HandOn(session: string, id: nat) returns (woken: Option<Ticket>)
      requires id < |objects|
      modifies this
      ensures State() == Release(old(State()), session, id)
      ensures woken == Next(old(objects)[id])
    {
      var queue := objects[id];
      if queue.control != [] {
        woken := Some(queue.control[0]);
        objects := objects[id := queue.(control := queue.control[1..])];
        return;
      }
      if queue.normal != [] {
        woken := Some(queue.normal[0]);
        objects := objects[id := queue.(normal := queue.normal[1..])];
        return;
      }
      woken := None;
      objects := objects[id := queue.(busy := false)];
      if session in lanes && lanes[session] == id {
        lanes := lanes - {session};
      }
    }
  }

  // ---------------------------------------------------------------- all interleavings

  datatype Phase = Waiting | Granted | Running | Done

  datatype Admission = Admission(session: string, lane: Lane, id: nat, phase: Phase)

  /** The gate, every admission that ever arrived, and the order their sections were dispatched in. */
  datatype System = System(gate: Gate, admissions: seq<Admission>, dispatched: seq<Ticket>)

  datatype Event =
    | Arrive(session: string, lane: Lane)
    | Dispatch(ticket: Ticket)
    | Return(ticket: Ticket)

  const Init := System(Gate([], map[]), [], [])

  function SetPhase(admissions: seq<Admission>, t: Ticket, phase: Phase): seq<Admission> {
    if t < |admissions| then admissions[t := admissions[t].(phase := phase)] else admissions
  }

  function ArriveStep(s: System, session: string, lane: Lane): System {
    var joined := Opened(s.gate, session);
    var id := joined.lanes[session];
    if id >= |joined.objects| then s
    else
      var q := joined.objects[id];
      s.(gate := joined.(objects := joined.objects[id := Acquire(q, lane, |s.admissions|)]),
         admissions := s.admissions + [Admission(session, lane, id, if q.busy then Waiting else Granted)])
  }

  function ReturnStep(s: System, t: Ticket): System
    requires t < |s.admissions|
  {
    var a := s.admissions[t];
    if a.id >= |s.gate.objects| then s
    else
      var done := SetPhase(s.admissions, t, Done);
      var next := Next(s.gate.objects[a.id]);
      s.(gate := Release(s.gate, a.session, a.id),
         admissions := if next.Some? then SetPhase(done, next.value, Granted) else done)
  }

  /** One atomic step; an event that is not enabled changes nothing. */
  function Step(s: System, e: Event): System {
    match e
    case Arrive(session, lane) => ArriveStep(s, session, lane)
    case Dispatch(t) =>
      if t < |s.admissions| && s.admissions[t].phase == Granted
      then s.(admissions := SetPhase(s.admissions, t, Running), dispatched := s.dispatched + [t])
      else s
    case Return(t) =>
      if t < |s.admissions| && s.admissions[t].phase == Running then ReturnStep(s, t) else s
  }

  function Run(events: seq<Event>): System {
    if events == [] then Init else Step(Run(events[..|events| - 1]), events[|events| - 1])
  }

  // ---------------------------------------------------------------- the invariant

  predicate Holds(s: System, t: Ticket) {
    t < |s.admissions| && (s.admissions[t].phase == Granted || s.admissions[t].phase == Running)
  }

  predicate Waits(s: System, t: Ticket) {
    t < |s.admissions| && s.admissions[t].phase == Waiting
  }

  /** A queue lists waiting admissions of one session and lane in arrival order. */
  ghost predicate Lists(s: System, tickets: seq<Ticket>, session: string, lane: Lane, id: nat) {
    && (forall k :: 0 <= k < |tickets| ==> Waits(s, tickets[k]) && s.admissions[tickets[k]] == Admission(session, lane, id, Waiting))
    && (forall j, k :: 0 <= j < k < |tickets| ==> tickets[j] < tickets[k])
  }

  ghost predicate LaneOk(s: System, session: string)
    requires s.gate.Refers() && session in s.gate.lanes
  {
    var id := s.gate.lanes[session];
    var q := s.gate.objects[id];
    q.busy && Lists(s, q.control, session, Control, id) && Lists(s, q.normal, session, Normal, id)
  }

  /** The gate of every listed session is busy, its queues list its waiters, and no two sessions share one. */
  ghost predicate LanesOk(s: System) {
    && s.gate.Refers()
    && (forall session :: session in s.gate.lanes ==> LaneOk(s, session))
    && (forall a, b :: a in s.gate.lanes && b in s.gate.lanes && s.gate.lanes[a] == s.gate.lanes[b] ==> a == b)
  }

  /** The admission uses its session's current queue, and is in it while it waits. */
  ghost predicate TicketOk(s: System, t: Ticket)
    requires t < |s.admissions|
  {
    var a := s.admissions[t];
    && a.session in s.gate.lanes && s.gate.lanes[a.session] == a.id < |s.gate.objects|
    && (a.phase == Waiting ==> t in (if a.lane.Control? then s.gate.objects[a.id].control else s.gate.objects[a.id].normal))
  }

  ghost predicate TicketsOk(s: System) {
    forall t: Ticket :: Holds(s, t) || Waits(s, t) ==> TicketOk(s, t)
  }

  /** Mutual exclusion: one holder per session. */
  ghost predicate OneHolder(s: System) {
    forall t: Ticket, u: Ticket :: Holds(s, t) && Holds(s, u) && s.admissions[t].session == s.admissions[u].session ==> t == u
  }

  ghost predicate HolderOf(s: System, session: string) {
    exists t: Ticket :: Holds(s, t) && s.admissions[t].session == session
  }

  /** Every listed session has a holder, who will hand the gate on. */
  ghost predicate SomeHolder(s: System) {
    forall session :: session in s.gate.lanes ==> HolderOf(s, session)
  }

  predicate SameQueue(s: System, t: Ticket, u: Ticket) {
    t < |s.admissions| && u < |s.admissions|
    && s.admissions[t].session == s.admissions[u].session && s.admissions[t].lane == s.admissions[u].lane
  }

  /** Arrival order: once an admission is past waiting, every earlier one of its session and lane is done. */
  ghost predicate ArrivalOrder(s: System) {
    forall t: Ticket, u: Ticket :: t < u && SameQueue(s, t, u) && s.admissions[u].phase != Waiting ==> s.admissions[t].phase == Done
  }

  /** The dispatch log holds exactly the running and finished sections, in arrival order per session and lane. */
  ghost predicate LogOk(s: System) {
    && (forall t: Ticket :: t in s.dispatched <==> t < |s.admissions| && (s.admissions[t].phase == Running || s.admissions[t].phase == Done))
    && (forall j, k :: 0 <= j < k < |s.dispatched| && SameQueue(s, s.dispatched[j], s.dispatched[k]) ==> s.dispatched[j] < s.dispatched[k])
  }

  ghost predicate Inv(s: System) {
    LanesOk(s) && TicketsOk(s) && OneHolder(s) && SomeHolder(s) && ArrivalOrder(s) && LogOk(s)
  }

  /** The admission's session is listed, its gate is busy, and it is queued there while it waits. */
  predicate Listed(s: System, t: Ticket) {
    t < |s.admissions| &&
    var a := s.admissions[t];
    && a.session in s.gate.lanes && s.gate.lanes[a.session] == a.id < |s.gate.objects| && s.gate.objects[a.id].busy
    && (a.phase == Waiting ==> t in (if a.lane.Control? then s.gate.objects[a.id].control else s.gate.objects[a.id].normal))
  }

  lemma UnfinishedAreListed(s: System)
    requires Inv(s)
    ensures forall t: Ticket :: Holds(s, t) || Waits(s, t) ==> Listed(s, t)
  {
    forall t: Ticket | Holds(s, t) || Waits(s, t) ensures Listed(s, t) {
      assert TicketOk(s, t) && LaneOk(s, s.admissions[t].session);
    }
  }

  lemma ControlIsNext(q: Queue)
    ensures q.control != [] ==> Next(q) == Some(q.control[0])
  {
  }

  // ---------------------------------------------------------------- arrivals

  /** What an arrival changes: the session's own queue, and one more admission. */
  lemma ArriveMoves(s: System, session: string, lane: Lane)
    requires s.gate.Refers()
    ensures var n, last := ArriveStep(s, session, lane), |s.admissions|;
            && n.gate.Refers() && session in n.gate.lanes
            && |n.admissions| == last + 1 && n.admissions[..last] == s.admissions
            && (forall other :: other in n.gate.lanes && other != session ==>
                  other in s.gate.lanes && n.gate.lanes[other] == s.gate.lanes[other])
            && (forall other :: other in s.gate.lanes ==> other in n.gate.lanes && n.gate.lanes[other] == s.gate.lanes[other])
            && (forall id :: 0 <= id < |s.gate.objects| && id != n.gate.lanes[session] ==>
                  id < |n.gate.objects| && n.gate.objects[id] == s.gate.objects[id])
            && var q := if session in s.gate.lanes then s.gate.objects[s.gate.lanes[session]] else Idle;
               && n.gate.objects[n.gate.lanes[session]] == Acquire(q, lane, last)
               && n.admissions[last] == Admission(session, lane, n.gate.lanes[session], if q.busy then Waiting else Granted)
  {
  }

  lemma ListsLonger(s: System, n: System, tickets: seq<Ticket>, session: string, lane: Lane, id: nat)
    requires Lists(s, tickets, session, lane, id) && |s.admissions| <= |n.admissions| && n.admissions[..|s.admissions|] == s.admissions
    ensures Lists(n, tickets, session, lane, id)
  {
    forall k | 0 <= k < |tickets|
      ensures n.admissions[tickets[k]] == s.admissions[tickets[k]]
    {
      assert n.admissions[tickets[k]] == n.admissions[..|s.admissions|][tickets[k]];
    }
  }

  lemma ListsJoined(n: System, tickets: seq<Ticket>, last: Ticket, session: string, lane: Lane, id: nat)
    requires Lists(n, tickets, session, lane, id) && (forall k :: 0 <= k < |tickets| ==> tickets[k] < last)
    requires last < |n.admissions| && n.admissions[last] == Admission(session, lane, id, Waiting)
    ensures Lists(n, tickets + [last], session, lane, id)
  {
  }

  lemma ArriveKeepsLanes(s: System, session: string, lane: Lane)
    requires Inv(s)
    ensures LanesOk(ArriveStep(s, session, lane))
  {
    ArriveMoves(s, session, lane);
    var n := ArriveStep(s, session, lane);
    forall other | other in n.gate.lanes
      ensures LaneOk(n, other)
    {
      if other != session {
        assert LaneOk(s, other) && n.gate.lanes[other] != n.gate.lanes[session];
        var q, id := s.gate.objects[s.gate.lanes[other]], s.gate.lanes[other];
        ListsLonger(s, n, q.control, other, Control, id);
        ListsLonger(s, n, q.normal, other, Normal, id);
      } else if session in s.gate.lanes {
        ArriveKeepsOwnLane(s, session, lane);
      }
    }
  }

  lemma ArriveKeepsOwnLane(s: System, session: string, lane: Lane)
    requires Inv(s) && session in s.gate.lanes && ArriveStep(s, session, lane).gate.Refers()
    requires session in ArriveStep(s, session, lane).gate.lanes
    ensures LaneOk(ArriveStep(s, session, lane), session)
  {
    ArriveMoves(s, session, lane);
    var n, last := ArriveStep(s, session, lane), |s.admissions|;
    assert LaneOk(s, session);
    var q, id := s.gate.objects[s.gate.lanes[session]], s.gate.lanes[session];
    ListsLonger(s, n, q.control, session, Control, id);
    ListsLonger(s, n, q.normal, session, Normal, id);
    if lane.Control? {
      assert forall k :: 0 <= k < |q.control| ==> Waits(s, q.control[k]);
      ListsJoined(n, q.control, last, session, lane, id);
    } else {
      assert forall k :: 0 <= k < |q.normal| ==> Waits(s, q.normal[k]);
      ListsJoined(n, q.normal, last, session, lane, id);
    }
  }

  lemma ArriveKeepsTicket(s: System, session: string, lane: Lane, t: Ticket)
    requires s.gate.Refers() && t < |s.admissions| && TicketOk(s, t)
    ensures |s.admissions| < |ArriveStep(s, session, lane).admissions|
    ensures TicketOk(ArriveStep(s, session, lane), t)
  {
    ArriveMoves(s, session, lane);
    var n := ArriveStep(s, session, lane);
    assert n.admissions[t] == n.admissions[..|s.admissions|][t];
  }

  lemma ArriveKeepsTickets(s: System, session: string, lane: Lane)
    requires s.gate.Refers() && TicketsOk(s)
    ensures TicketsOk(ArriveStep(s, session, lane))
  {
    ArriveMoves(s, session, lane);
    var n, last := ArriveStep(s, session, lane), |s.admissions|;
    forall t: Ticket | Holds(n, t) || Waits(n, t)
      ensures TicketOk(n, t)
    {
      if t < last {
        assert n.admissions[t] == n.admissions[..last][t];
        assert Holds(s, t) || Waits(s, t);
        ArriveKeepsTicket(s, session, lane, t);
      }
    }
  }

  lemma ArriveKeepsHolders(s: System, session: string, lane: Lane)
    requires Inv(s)
    ensures var n := ArriveStep(s, session, lane); OneHolder(n) && SomeHolder(n)
  {
    var n := ArriveStep(s, session, lane);
    var last := |s.admissions|;
    forall t: Ticket | Holds(n, t) && t != last
      ensures Holds(s, t) && n.admissions[t] == s.admissions[t]
    {
    }
    forall other | other in n.gate.lanes
      ensures HolderOf(n, other)
    {
      if other in s.gate.lanes {
        var t: Ticket :| Holds(s, t) && s.admissions[t].session == other;
        assert n.admissions[t] == s.admissions[t];
        assert Holds(n, t);
      } else {
        assert Holds(n, last);
      }
    }
  }

  lemma ArriveKeepsOrder(s: System, session: string, lane: Lane)
    requires Inv(s)
    ensures var n := ArriveStep(s, session, lane); ArrivalOrder(n) && LogOk(n)
  {
    var n := ArriveStep(s, session, lane);
    UnfinishedAreListed(s);
    forall t: Ticket, u: Ticket | t < u && SameQueue(n, t, u) && n.admissions[u].phase != Waiting
      ensures n.admissions[t].phase == Done
    {
      if u < |s.admissions| {
        assert SameQueue(s, t, u);
      } else {
        assert Holds(s, t) || Waits(s, t) ==> Listed(s, t);
      }
    }
    forall j, k | 0 <= j < k < |n.dispatched| && SameQueue(n, n.dispatched[j], n.dispatched[k])
      ensures n.dispatched[j] < n.dispatched[k]
    {
      assert n.dispatched[j] in s.dispatched && n.dispatched[k] in s.dispatched;
      assert SameQueue(s, s.dispatched[j], s.dispatched[k]);
    }
  }

  // ---------------------------------------------------------------- dispatches

  /** A change that leaves the gate and every waiting admission alone leaves the queues in order. */
  lemma LanesUntouched(s: System, n: System)
    requires LanesOk(s) && n.gate == s.gate && |n.admissions| == |s.admissions|
    requires forall u: Ticket :: Waits(s, u) ==> n.admissions[u] == s.admissions[u]
    ensures LanesOk(n)
  {
    forall session | session in n.gate.lanes
      ensures LaneOk(n, session)
    {
      assert LaneOk(s, session);
    }
  }

  lemma DispatchMoves(s: System, t: Ticket)
    requires t < |s.admissions| && s.admissions[t].phase == Granted
    ensures var n := Step(s, Dispatch(t));
            && n.gate == s.gate && |n.admissions| == |s.admissions| && n.dispatched == s.dispatched + [t]
            && (forall u: Ticket :: Holds(n, u) == Holds(s, u) && Waits(n, u) == Waits(s, u))
            && (forall u: Ticket :: u < |s.admissions| ==>
                  n.admissions[u] == s.admissions[u].(phase := if u == t then Running else s.admissions[u].phase))
  {
  }

  /** Admissions that keep their session, queue and standing keep what the standing means. */
  ghost predicate SameStanding(s: System, n: System) {
    && n.gate == s.gate && |n.admissions| == |s.admissions|
    && (forall u: Ticket :: u < |s.admissions| ==>
          && n.admissions[u].session == s.admissions[u].session && n.admissions[u].lane == s.admissions[u].lane
          && n.admissions[u].id == s.admissions[u].id && Holds(n, u) == Holds(s, u) && Waits(n, u) == Waits(s, u))
  }

  lemma StandingKeepsTickets(s: System, n: System)
    requires TicketsOk(s) && SameStanding(s, n)
    ensures TicketsOk(n)
  {
    forall u: Ticket | Holds(n, u) || Waits(n, u)
      ensures TicketOk(n, u)
    {
      assert TicketOk(s, u);
    }
  }

  lemma StandingKeepsHolders(s: System, n: System)
    requires OneHolder(s) && SomeHolder(s) && SameStanding(s, n)
    ensures OneHolder(n) && SomeHolder(n)
  {
    forall session | session in n.gate.lanes
      ensures HolderOf(n, session)
    {
      assert HolderOf(s, session);
      var u: Ticket :| Holds(s, u) && s.admissions[u].session == session;
      assert Holds(n, u);
    }
  }

  lemma DispatchKeepsInv(s: System, t: Ticket)
    requires Inv(s)
    ensures Inv(Step(s, Dispatch(t)))
  {
    if t < |s.admissions| && s.admissions[t].phase == Granted {
      DispatchMoves(s, t);
      var n := Step(s, Dispatch(t));
      LanesUntouched(s, n);
      StandingKeepsTickets(s, n);
      StandingKeepsHolders(s, n);
      DispatchKeepsOrder(s, t);
    }
  }

  lemma DispatchKeepsOrder(s: System, t: Ticket)
    requires Inv(s) && t < |s.admissions| && s.admissions[t].phase == Granted
    ensures var n := Step(s, Dispatch(t)); ArrivalOrder(n) && LogOk(n)
  {
    var n := Step(s, Dispatch(t));
    assert forall u: Ticket, v: Ticket :: SameQueue(n, u, v) ==> SameQueue(s, u, v);
    forall j, k | 0 <= j < k < |n.dispatched| && SameQueue(n, n.dispatched[j], n.dispatched[k])
      ensures n.dispatched[j] < n.dispatched[k]
    {
      var earlier := n.dispatched[j];
      assert earlier in s.dispatched;
      if k == |s.dispatched| {
        assert SameQueue(s, t, earlier);
        assert earlier != t;
      }
    }
  }

  // ---------------------------------------------------------------- returns

  /** The admissions after a return: the holder is done, and the next waiter, when there is one, is granted. */
  lemma ReturnMoves(s: System, t: Ticket)
    requires Inv(s) && t < |s.admissions| && s.admissions[t].phase == Running
    ensures var a := s.admissions[t];
            && a.session in s.gate.lanes && s.gate.lanes[a.session] == a.id < |s.gate.objects|
    ensures var n, next := ReturnStep(s, t), Next(s.gate.objects[s.admissions[t].id]);
            && |n.admissions| == |s.admissions|
            && (next.Some? ==> Waits(s, next.value) && next.value != t && s.admissions[next.value].session == s.admissions[t].session)
            && (forall u: Ticket :: u < |s.admissions| ==>
                  n.admissions[u] == s.admissions[u].(phase :=
                    if u == t then Done else if next == Some(u) then Granted else s.admissions[u].phase))
  {
    assert Holds(s, t);
    var a := s.admissions[t];
    var q := s.gate.objects[a.id];
    assert LaneOk(s, a.session);
  }

  lemma ReturnKeepsLanes(s: System, t: Ticket)
    requires Inv(s) && t < |s.admissions| && s.admissions[t].phase == Running
    ensures LanesOk(ReturnStep(s, t))
  {
    ReturnMoves(s, t);
    var n := ReturnStep(s, t);
    var a := s.admissions[t];
    forall other | other in n.gate.lanes
      ensures LaneOk(n, other)
    {
      if other != a.session {
        assert LaneOk(s, other) && s.gate.lanes[other] != a.id;
        var q, id := s.gate.objects[s.gate.lanes[other]], s.gate.lanes[other];
        ListsUnchanged(s, n, q.control, other, Control, id, a.session);
        ListsUnchanged(s, n, q.normal, other, Normal, id, a.session);
      } else {
        ReturnKeepsOwnLane(s, t);
      }
    }
  }

  lemma ListsUnchanged(s: System, n: System, tickets: seq<Ticket>, session: string, lane: Lane, id: nat, other: string)
    requires Lists(s, tickets, session, lane, id) && other != session && |n.admissions| == |s.admissions|
    requires forall u: Ticket :: u < |s.admissions| && s.admissions[u].session != other ==> n.admissions[u] == s.admissions[u]
    ensures Lists(n, tickets, session, lane, id)
  {
  }

  lemma ReturnKeepsOwnLane(s: System, t: Ticket)
    requires Inv(s) && t < |s.admissions| && s.admissions[t].phase == Running
    requires ReturnStep(s, t).gate.Refers() && s.admissions[t].session in ReturnStep(s, t).gate.lanes
    ensures LaneOk(ReturnStep(s, t), s.admissions[t].session)
  {
    ReturnMoves(s, t);
    assert LaneOk(s, s.admissions[t].session);
  }

  lemma ReturnKeepsTickets(s: System, t: Ticket)
    requires Inv(s) && t < |s.admissions| && s.admissions[t].phase == Running
    ensures TicketsOk(ReturnStep(s, t))
  {
    ReturnMoves(s, t);
    var n, a := ReturnStep(s, t), s.admissions[t];
    assert Holds(s, t);
    forall u: Ticket | Holds(n, u) || Waits(n, u)
      ensures TicketOk(n, u)
    {
      assert u != t && (Holds(s, u) || Waits(s, u));
      assert TicketOk(s, u);
      assert s.admissions[u].session == a.session ==> Waits(s, u);
    }
  }

  lemma ReturnKeepsHolders(s: System, t: Ticket)
    requires Inv(s) && t < |s.admissions| && s.admissions[t].phase == Running
    ensures var n := ReturnStep(s, t); OneHolder(n) && SomeHolder(n)
  {
    ReturnMoves(s, t);
    var n := ReturnStep(s, t);
    var a := s.admissions[t];
    var next := Next(s.gate.objects[a.id]);
    forall u: Ticket | Holds(n, u)
      ensures next == Some(u) || (Holds(s, u) && u != t)
    {
    }
    assert Holds(s, t);
    forall session | session in n.gate.lanes
      ensures HolderOf(n, session)
    {
      if session == a.session {
        assert next.Some?;
        assert Holds(n, next.value);
      } else {
        var u: Ticket :| Holds(s, u) && s.admissions[u].session == session;
        assert Holds(n, u);
      }
    }
  }

  lemma ReturnKeepsOrder(s: System, t: Ticket)
    requires Inv(s) && t < |s.admissions| && s.admissions[t].phase == Running
    ensures var n := ReturnStep(s, t); ArrivalOrder(n) && LogOk(n)
  {
    ReturnMoves(s, t);
    var n := ReturnStep(s, t);
    var a := s.admissions[t];
    var next := Next(s.gate.objects[a.id]);
    forall u: Ticket, v: Ticket | u < v && SameQueue(n, u, v) && n.admissions[v].phase != Waiting
      ensures n.admissions[u].phase == Done
    {
      assert SameQueue(s, u, v);
      if next == Some(v) && u != t {
        NothingEarlierWaits(s, t, v, u);
      }
    }
    assert forall u: Ticket, v: Ticket :: SameQueue(n, u, v) ==> SameQueue(s, u, v);
  }

  /** When the gate goes to `v`, an earlier admission of the same lane is neither waiting nor holding. */
  lemma NothingEarlierWaits(s: System, t: Ticket, v: Ticket, u: Ticket)
    requires Inv(s) && t < |s.admissions| && s.admissions[t].phase == Running
    requires s.admissions[t].id < |s.gate.objects| && Next(s.gate.objects[s.admissions[t].id]) == Some(v)
    requires u < v && u != t && SameQueue(s, u, v)
    ensures s.admissions[u].phase == Done
  {
    ReturnMoves(s, t);
    var a := s.admissions[t];
    var q := s.gate.objects[a.id];
    assert LaneOk(s, a.session);
    assert Holds(s, t);
    var tickets := if s.admissions[v].lane.Control? then q.control else q.normal;
    assert forall w :: w in tickets ==> tickets[0] <= w;
    assert TicketsOk(s);
  }

  // ---------------------------------------------------------------- main results

  lemma StepKeepsInv(s: System, e: Event)
    requires Inv(s)
    ensures Inv(Step(s, e))
  {
    match e
    case Arrive(session, lane) =>
      ArriveKeepsLanes(s, session, lane);
      ArriveKeepsTickets(s, session, lane);
      ArriveKeepsHolders(s, session, lane);
      ArriveKeepsOrder(s, session, lane);
    case Dispatch(t) => DispatchKeepsInv(s, t);
    case Return(t) =>
      if t < |s.admissions| && s.admissions[t].phase == Running {
        ReturnKeepsLanes(s, t);
        ReturnKeepsTickets(s, t);
        ReturnKeepsHolders(s, t);
        ReturnKeepsOrder(s, t);
      }
  }

  /** In every reachable state: sections are mutually exclusive per session, each lane is served in arrival order, the
    * sessions listed are exactly those whose gate is held, and every waiting admission is in its session's queue. */
  lemma {:induction false} EveryRunIsOrdered(events: seq<Event>)
    ensures Inv(Run(events))
  {
    if events != [] {
      EveryRunIsOrdered(events[..|events| - 1]);
      StepKeepsInv(Run(events[..|events| - 1]), events[|events| - 1]);
    }
  }

  /** The lane map holds exactly the sessions with an admission that holds the gate. */
  lemma LanesAreTheBusySessions(events: seq<Event>, session: string)
    ensures session in Run(events).gate.lanes <==> HolderOf(Run(events), session)
  {
    EveryRunIsOrdered(events);
  }

  /** An arrival is granted at once only where nobody waits. */
  lemma ArrivalIsGrantedAlone(s: System, session: string, lane: Lane, u: Ticket)
    requires Inv(s) && u < |s.admissions| && s.admissions[u].session == session
    requires var n := ArriveStep(s, session, lane);
             |n.admissions| == |s.admissions| + 1 && n.admissions[|s.admissions|].phase == Granted
    ensures s.admissions[u].phase != Waiting
  {
    ArriveMoves(s, session, lane);
    UnfinishedAreListed(s);
    assert Waits(s, u) ==> Listed(s, u);
  }

  /** A return grants a normal admission only when no control admission of its session waits. */
  lemma ReturnGrantsControlFirst(s: System, r: Ticket, t: Ticket, u: Ticket)
    requires Inv(s) && r < |s.admissions| && s.admissions[r].phase == Running
    requires Waits(s, t) && s.admissions[t].lane == Normal
    requires t < |ReturnStep(s, r).admissions| && ReturnStep(s, r).admissions[t].phase == Granted
    requires u < |s.admissions| && s.admissions[u].lane == Control && s.admissions[u].session == s.admissions[t].session
    ensures s.admissions[u].phase != Waiting
  {
    ReturnMoves(s, r);
    var a := s.admissions[r];
    var q := s.gate.objects[a.id];
    assert LaneOk(s, a.session);
    UnfinishedAreListed(s);
    assert Waits(s, u) ==> Listed(s, u);
    ControlIsNext(q);
  }

  /** No normal admission is granted while a control admission of its session waits. */
  lemma ControlGoesFirst(events: seq<Event>, e: Event, t: Ticket, u: Ticket)
    requires var s, n := Run(events), Step(Run(events), e);
             && t < |n.admissions| && n.admissions[t].lane == Normal && n.admissions[t].phase == Granted
             && (t < |s.admissions| ==> s.admissions[t].phase == Waiting)
    ensures var n := Step(Run(events), e);
            u < |n.admissions| && n.admissions[u].lane == Control && n.admissions[u].session == n.admissions[t].session ==>
            n.admissions[u].phase != Waiting
  {
    var s, n := Run(events), Step(Run(events), e);
    EveryRunIsOrdered(events);
    if e.Arrive? {
      ArriveMoves(s, e.session, e.lane);
      assert n.admissions[..|s.admissions|] == s.admissions;
      if u < |s.admissions| && s.admissions[u].session == e.session && t == |s.admissions| {
        ArrivalIsGrantedAlone(s, e.session, e.lane, u);
      }
    } else if e.Return? && e.ticket < |s.admissions| && s.admissions[e.ticket].phase == Running {
      ReturnMoves(s, e.ticket);
      if u < |s.admissions| && s.admissions[u].lane == Control && s.admissions[u].session == s.admissions[t].session {
        ReturnGrantsControlFirst(s, e.ticket, t, u);
      }
    }
  }

  /** No wakeup is lost: a waiting admission's session has a holder whose next step is enabled, and when that holder
    * returns, one waiter of that session is granted the gate. */
  lemma NoLostWakeup(events: seq<Event>, u: Ticket) returns (holder: Ticket)
    requires Waits(Run(events), u)
    ensures var s := Run(events);
            && Holds(s, holder) && s.admissions[holder].session == s.admissions[u].session
            && (s.admissions[holder].phase == Running ==>
                  exists v: Ticket :: Waits(s, v) && s.admissions[v].session == s.admissions[u].session
                                      && Holds(Step(s, Return(holder)), v))
  {
    EveryRunIsOrdered(events);
    var s := Run(events);
    var session := s.admissions[u].session;
    assert HolderOf(s, session);
    holder :| Holds(s, holder) && s.admissions[holder].session == session;
    if s.admissions[holder].phase == Running {
      ReturnMoves(s, holder);
      var next := Next(s.gate.objects[s.admissions[holder].id]);
      assert next.Some?;
      assert Holds(Step(s, Return(holder)), next.value);
    }
  }

  /** Steps an admission still has to take. */
  function Owed(phase: Phase): nat {
    match phase case Waiting => 3 case Granted => 2 case Running => 1 case Done => 0
  }

  function Work(admissions: seq<Admission>): nat {
    if admissions == [] then 0 else Work(admissions[..|admissions| - 1]) + Owed(admissions[|admissions| - 1].phase)
  }

  lemma {:induction false} WorkOfChange(admissions: seq<Admission>, t: Ticket, phase: Phase)
    requires t < |admissions|
    ensures Work(SetPhase(admissions, t, phase)) == Work(admissions) - Owed(admissions[t].phase) + Owed(phase)
  {
    var changed := SetPhase(admissions, t, phase);
    var front := admissions[..|admissions| - 1];
    if t == |front| {
      assert changed[..|front|] == front;
    } else {
      assert changed[..|front|] == SetPhase(front, t, phase);
      WorkOfChange(front, t, phase);
    }
  }

  /** Without new arrivals the gate drains: every enabled step uses up work, and while any admission is unfinished
    * some step is enabled. */
  lemma EveryAdmissionCompletes(events: seq<Event>)
    ensures var s := Run(events);
            forall e: Event :: !e.Arrive? && Step(s, e) != s ==> Work(Step(s, e).admissions) < Work(s.admissions)
    ensures var s := Run(events);
            (forall e: Event :: !e.Arrive? ==> Step(s, e) == s) ==> forall t: Ticket :: t < |s.admissions| ==> s.admissions[t].phase == Done
  {
    var s := Run(events);
    EveryRunIsOrdered(events);
    forall e: Event | !e.Arrive? && Step(s, e) != s
      ensures Work(Step(s, e).admissions) < Work(s.admissions)
    {
      EnabledStepUsesWork(s, e);
    }
    if forall e: Event :: !e.Arrive? ==> Step(s, e) == s {
      forall t: Ticket | t < |s.admissions|
        ensures s.admissions[t].phase == Done
      {
        StuckMeansDone(s, t);
      }
    }
  }

  lemma EnabledStepUsesWork(s: System, e: Event)
    requires Inv(s) && !e.Arrive? && Step(s, e) != s
    ensures Work(Step(s, e).admissions) < Work(s.admissions)
  {
    match e
    case Dispatch(t) => WorkOfChange(s.admissions, t, Running);
    case Return(t) =>
      ReturnMoves(s, t);
      WorkOfChange(s.admissions, t, Done);
      var next := Next(s.gate.objects[s.admissions[t].id]);
      if next.Some? {
        WorkOfChange(SetPhase(s.admissions, t, Done), next.value, Granted);
      }
  }

  lemma HolderCanMove(s: System, h: Ticket)
    requires Inv(s) && Holds(s, h)
    ensures Step(s, Dispatch(h)) != s || Step(s, Return(h)) != s
  {
    if s.admissions[h].phase == Granted {
      assert Step(s, Dispatch(h)).admissions[h].phase == Running;
    } else {
      ReturnMoves(s, h);
      assert Step(s, Return(h)).admissions[h].phase == Done;
    }
  }

  lemma StuckMeansDone(s: System, t: Ticket)
    requires Inv(s) && t < |s.admissions|
    requires forall e: Event :: !e.Arrive? ==> Step(s, e) == s
    ensures s.admissions[t].phase == Done
  {
    forall h: Ticket
      ensures !Holds(s, h)
    {
      assert Step(s, Dispatch(h)) == s && Step(s, Return(h)) == s;
      if Holds(s, h) {
        HolderCanMove(s, h);
      }
    }
    assert !HolderOf(s, s.admissions[t].session);
    assert Waits(s, t) ==> TicketOk(s, t);
  }
}
