/** Host requests waiting for the operator, and the one response each may get (src/session/interactions.ts).
  *
  * A response is reserved at once, admitted by the session's gate some time later, replies, and is released. Requests
  * may be withdrawn, replaced by a replay or cleared between any two of those steps. */
module Interactions {
  import opened Collections

  /** One delivery of a request is one instance; a replay under the same event identity is another. */
  type Instance = nat

  /** A response is known by its creation number. */
  type Ticket = nat

  datatype Book = Book(entries: map<string, Instance>, responding: map<Instance, Ticket>)

  class SessionInteractions {
    var entries: map<string, Instance>
    var responding: map<Instance, Ticket>

    constructor ()
      ensures State() == Book(map[], map[])
    {
      entries, responding := map[], map[];
    }

    ghost function State(): Book
      reads this
    {
      Book(entries, responding)
    }

    method Clear()
      modifies this
      ensures State() == old(State()).(entries := map[])
    {
      entries := map[];
    }

    method Accept(eventId: string, instance: Instance)
      modifies this
      ensures State() == old(State()).(entries := old(entries)[eventId := instance])
    {
      entries := entries[eventId := instance];
    }

    method Cancelled(eventId: string)
      modifies this
      ensures State() == old(State()).(entries := old(entries) - {eventId})
    {
      entries := entries - {eventId};
    }

    /** Join the response in flight for this instance, or reserve a new one. */
    method Respond(instance: Instance, next: Ticket) returns (response: Ticket)
      modifies this
      ensures instance in old(responding) ==> response == old(responding)[instance] && State() == old(State())
      ensures instance !in old(responding) ==>
                response == next && State() == old(State()).(responding := old(responding)[instance := next])
    {
      if instance in responding {
        return responding[instance];
      }
      responding := responding[instance := next];
      return next;
    }

    /** The admitted section: it replies only while this instance is still the retained one. */
    method Dispatch(eventId: string, instance: Instance) returns (replies: bool)
      ensures replies == Retains(State(), eventId, instance)
    {
      replies := eventId in entries && entries[eventId] == instance;
    }

    /** A successful reply removes the instance it answered, and only that one. */
    method Settled(eventId: string, instance: Instance)
      modifies this
      ensures State() == Settle(old(State()), eventId, instance)
    {
      if eventId in entries && entries[eventId] == instance {
        entries := entries - {eventId};
      }
    }

    method Release(instance: Instance)
      modifies this
      ensures State() == old(State()).(responding := old(responding) - {instance})
    {
      responding := responding - {instance};
    }
  }

  predicate Retains(b: Book, eventId: string, instance: Instance) {
    eventId in b.entries && b.entries[eventId] == instance
  }

  function Settle(b: Book, eventId: string, instance: Instance): Book {
    if Retains(b, eventId, instance) then b.(entries := b.entries - {eventId}) else b
  }

  // ---------------------------------------------------------------- all interleavings

  datatype Phase =
    | Reserved // waiting for the session's gate
    | Replying // the host has the reply
    | Answered // the host accepted it; the instance is about to be removed
    | Removed  // settled; the reservation is about to be released
    | Failed   // refused or rejected; the reservation is about to be released
    | Over

  datatype Response = Response(instance: Instance, phase: Phase)

  /** The book, the event identity of every instance, every response, and the instances whose reply the host accepted. */
  datatype System = System(book: Book, names: seq<string>, responses: seq<Response>, accepted: seq<Instance>)

  const Init := System(Book(map[], map[]), [], [], [])

  datatype Event =
    | Deliver(eventId: string)
    | Withdraw(eventId: string)
    | Drop
    | Answer(instance: Instance) // an answer, an approval or a dismissal
    | Admit(response: Ticket)
    | ReplyOk(response: Ticket)
    | ReplyFails(response: Ticket)
    | AfterReply(response: Ticket)
    | Free(response: Ticket)

  function SetPhase(s: System, r: Ticket, phase: Phase): System
    requires r < |s.responses|
  {
    s.(responses := s.responses[r := s.responses[r].(phase := phase)])
  }

  predicate At(s: System, r: Ticket, phase: Phase) {
    r < |s.responses| && s.responses[r].phase == phase && s.responses[r].instance < |s.names|
  }

  /** One atomic step; an event that is not enabled changes nothing. */
  function Step(s: System, e: Event): System {
    match e
    case Deliver(eventId) =>
      s.(book := s.book.(entries := s.book.entries[eventId := |s.names|]), names := s.names + [eventId])
    case Withdraw(eventId) => s.(book := s.book.(entries := s.book.entries - {eventId}))
    case Drop => s.(book := s.book.(entries := map[]))
    case Answer(i) =>
      if i >= |s.names| || i in s.book.responding then s
      else s.(book := s.book.(responding := s.book.responding[i := |s.responses|]),
              responses := s.responses + [Response(i, Reserved)])
    case Admit(r) =>
      if !At(s, r, Reserved) then s
      else
        var i := s.responses[r].instance;
        SetPhase(s, r, if Retains(s.book, s.names[i], i) then Replying else Failed)
    case ReplyOk(r) =>
      if !At(s, r, Replying) then s
      else SetPhase(s, r, Answered).(accepted := s.accepted + [s.responses[r].instance])
    case ReplyFails(r) => if !At(s, r, Replying) then s else SetPhase(s, r, Failed)
    case AfterReply(r) =>
      if !At(s, r, Answered) then s
      else
        var i := s.responses[r].instance;
        SetPhase(s, r, Removed).(book := Settle(s.book, s.names[i], i))
    case Free(r) =>
      if !At(s, r, Removed) && !At(s, r, Failed) then s
      else SetPhase(s, r, Over).(book := s.book.(responding := s.book.responding - {s.responses[r].instance}))
  }

  function Run(events: seq<Event>): System {
    if events == [] then Init else Step(Run(events[..|events| - 1]), events[|events| - 1])
  }

  // ---------------------------------------------------------------- the invariant

  /** What a response is doing, and for which instance. */
  function PhaseOf(s: System, r: Ticket): Phase {
    if r < |s.responses| then s.responses[r].phase else Over
  }

  /** A retained entry is an instance of its own event identity. */
  ghost predicate EntriesOk(s: System) {
    forall eventId :: eventId in s.book.entries ==>
      s.book.entries[eventId] < |s.names| && s.names[s.book.entries[eventId]] == eventId
  }

  /** The reservation map holds exactly the responses that are not over, one per instance. */
  ghost predicate RespondingOk(s: System) {
    && (forall r: Ticket :: PhaseOf(s, r) != Over ==>
          s.responses[r].instance in s.book.responding && s.book.responding[s.responses[r].instance] == r)
    && (forall i :: i in s.book.responding ==>
          PhaseOf(s, s.book.responding[i]) != Over && s.responses[s.book.responding[i]].instance == i)
    && (forall r: Ticket :: r < |s.responses| ==> s.responses[r].instance < |s.names|)
  }

  /** An instance whose reply was accepted is retained only until its own response removes it. */
  ghost predicate AcceptedOk(s: System) {
    && (forall i :: i in s.accepted ==>
          i < |s.names| && (Retains(s.book, s.names[i], i) ==>
            i in s.book.responding && PhaseOf(s, s.book.responding[i]) == Answered))
    && (forall r: Ticket :: PhaseOf(s, r) == Replying ==> s.responses[r].instance !in s.accepted)
    && (forall j, k :: 0 <= j < k < |s.accepted| ==> s.accepted[j] != s.accepted[k])
  }

  ghost predicate Inv(s: System) {
    EntriesOk(s) && RespondingOk(s) && AcceptedOk(s)
  }

  lemma EntryEventsKeepInv(s: System, e: Event)
    requires Inv(s) && (e.Deliver? || e.Withdraw? || e.Drop?)
    ensures Inv(Step(s, e))
  {
    var n := Step(s, e);
    assert forall r: Ticket :: PhaseOf(n, r) == PhaseOf(s, r);
    forall i | i in n.accepted && Retains(n.book, n.names[i], i)
      ensures i in n.book.responding && PhaseOf(n, n.book.responding[i]) == Answered
    {
      assert Retains(s.book, s.names[i], i);
    }
  }

  lemma AnswerKeepsInv(s: System, i: Instance)
    requires Inv(s)
    ensures Inv(Step(s, Answer(i)))
  {
    var n := Step(s, Answer(i));
    assert forall r: Ticket :: r != |s.responses| ==> PhaseOf(n, r) == PhaseOf(s, r);
  }

  lemma ResponseMoves(s: System, r: Ticket, phase: Phase)
    requires r < |s.responses|
    ensures forall u: Ticket :: PhaseOf(SetPhase(s, r, phase), u) == if u == r then phase else PhaseOf(s, u)
  {
  }

  lemma ReplyEventsKeepInv(s: System, e: Event)
    requires Inv(s) && (e.Admit? || e.ReplyOk? || e.ReplyFails?)
    ensures Inv(Step(s, e))
  {
    var r, n := e.response, Step(s, e);
    if r < |s.responses| {
      ResponseMoves(s, r, PhaseOf(n, r));
      assert forall u: Ticket :: PhaseOf(n, u) == if u == r then PhaseOf(n, r) else PhaseOf(s, u);
    }
  }

  lemma AfterReplyKeepsInv(s: System, r: Ticket)
    requires Inv(s)
    ensures Inv(Step(s, AfterReply(r)))
  {
    if At(s, r, Answered) {
      ResponseMoves(s, r, Removed);
    }
  }

  lemma FreeKeepsInv(s: System, r: Ticket)
    requires Inv(s)
    ensures Inv(Step(s, Free(r)))
  {
    if At(s, r, Removed) || At(s, r, Failed) {
      ResponseMoves(s, r, Over);
    }
  }

  lemma StepKeepsInv(s: System, e: Event)
    requires Inv(s)
    ensures Inv(Step(s, e))
  {
    match e
    case Answer(i) => AnswerKeepsInv(s, i);
    case AfterReply(r) => AfterReplyKeepsInv(s, r);
    case Free(r) => FreeKeepsInv(s, r);
    case Admit(_) => ReplyEventsKeepInv(s, e);
    case ReplyOk(_) => ReplyEventsKeepInv(s, e);
    case ReplyFails(_) => ReplyEventsKeepInv(s, e);
    case _ => EntryEventsKeepInv(s, e);
  }

  lemma {:induction false} EveryRunKeepsInv(events: seq<Event>)
    ensures Inv(Run(events))
  {
    if events != [] {
      EveryRunKeepsInv(events[..|events| - 1]);
      StepKeepsInv(Run(events[..|events| - 1]), events[|events| - 1]);
    }
  }

  // ---------------------------------------------------------------- main results

  /** Under any interleaving the host accepts at most one reply per instance. */
  lemma AtMostOneAcceptedReply(events: seq<Event>, j: nat, k: nat)
    requires j < k < |Run(events).accepted|
    ensures Run(events).accepted[j] != Run(events).accepted[k]
  {
    EveryRunKeepsInv(events);
  }

  /** And at most one reply is in flight per instance: concurrent answers join the first. */
  lemma OneReplyInFlight(events: seq<Event>, r: Ticket, u: Ticket)
    requires var s := Run(events);
             && PhaseOf(s, r) != Over && PhaseOf(s, u) != Over && s.responses[r].instance == s.responses[u].instance
    ensures r == u
    ensures var s := Run(events); Step(s, Answer(s.responses[r].instance)) == s
  {
    EveryRunKeepsInv(events);
  }

  /** A reply is sent only for the instance that is retained at that moment. */
  lemma RepliesOnlyWhileRetained(events: seq<Event>, e: Event, r: Ticket)
    requires PhaseOf(Run(events), r) != Replying && PhaseOf(Step(Run(events), e), r) == Replying
    ensures var s := Run(events);
            && e == Admit(r) && s.responses[r].instance < |s.names|
            && Retains(s.book, s.names[s.responses[r].instance], s.responses[r].instance)
  {
  }

  /** An instance is retained from its delivery until it is withdrawn, replaced by a replay, cleared with the book, or
    * removed by its own reply, which the host accepted; a reply to the instance it replaced does not touch it. */
  lemma RetainedExactlyWhen(events: seq<Event>, e: Event, eventId: string, i: Instance)
    ensures var s := Run(events);
            Retains(Step(s, e).book, eventId, i) <==>
              || (e == Deliver(eventId) && i == |s.names|)
              || (Retains(s.book, eventId, i) && e != Deliver(eventId) && e != Withdraw(eventId) && e != Drop
                  && !(e.AfterReply? && At(s, e.response, Answered) && s.responses[e.response].instance == i))
    ensures var s := Run(events);
            e.AfterReply? && At(s, e.response, Answered) && s.responses[e.response].instance == i ==> i in s.accepted
  {
    EveryRunKeepsInv(events);
    if e.AfterReply? {
      AnsweredIsAccepted(events, e.response);
    }
  }

  predicate AnsweredOk(s: System, r: Ticket) {
    PhaseOf(s, r) == Answered || PhaseOf(s, r) == Removed ==> s.responses[r].instance in s.accepted
  }

  lemma StepKeepsAnswered(s: System, e: Event, r: Ticket)
    requires AnsweredOk(s, r)
    ensures AnsweredOk(Step(s, e), r)
  {
  }

  /** A response past its reply was accepted by the host. */
  lemma {:induction false} AnsweredIsAccepted(events: seq<Event>, r: Ticket)
    ensures AnsweredOk(Run(events), r)
  {
    if events != [] {
      AnsweredIsAccepted(events[..|events| - 1], r);
      StepKeepsAnswered(Run(events[..|events| - 1]), events[|events| - 1], r);
    }
  }

  /** A failed reply leaves the instance answerable: once the reservation is released, a new answer is reserved, and its
    * admission replies. */
  lemma FailedReplyStaysAnswerable(events: seq<Event>, r: Ticket)
    requires var s := Run(events);
             At(s, r, Replying) && Retains(s.book, s.names[s.responses[r].instance], s.responses[r].instance)
    ensures var i, next := Run(events).responses[r].instance, |Run(events).responses|;
            var retried := Step(Step(Step(Step(Run(events), ReplyFails(r)), Free(r)), Answer(i)), Admit(next));
            At(retried, next, Replying) && retried.responses[next].instance == i
  {
    EveryRunKeepsInv(events);
    var s := Run(events);
    var i, next := s.responses[r].instance, |s.responses|;
    var failed := Step(s, ReplyFails(r));
    var freed := Step(failed, Free(r));
    assert failed.responses[r] == Response(i, Failed) && freed.book.entries == s.book.entries && i !in freed.book.responding;
    var reserved := Step(freed, Answer(i));
    assert reserved.responses[next] == Response(i, Reserved);
  }

  /** An answer that is admitted replies exactly while its instance is retained, and fails otherwise. */
  lemma AdmittedRepliesExactlyWhenRetained(events: seq<Event>, r: Ticket)
    requires At(Run(events), r, Reserved)
    ensures var s, i := Run(events), Run(events).responses[r].instance;
            PhaseOf(Step(s, Admit(r)), r)
            == if s.names[i] in s.book.entries && s.book.entries[s.names[i]] == i then Replying else Failed
  {
  }

  lemma AnswerSteps(s: System, i: Instance)
    requires Inv(s) && i < |s.names| && Retains(s.book, s.names[i], i) && i !in s.book.responding
    ensures var r := |s.responses|;
            var told := Step(Step(Step(s, Answer(i)), Admit(r)), ReplyOk(r));
            && At(told, r, Answered) && told.responses[r].instance == i && told.names == s.names
            && told.book == Book(s.book.entries, s.book.responding[i := r]) && told.accepted == s.accepted + [i]
  {
    var r := |s.responses|;
    assert At(Step(s, Answer(i)), r, Reserved);
    assert At(Step(Step(s, Answer(i)), Admit(r)), r, Replying);
  }

  lemma ReplySteps(told: System, r: Ticket, responding: map<Instance, Ticket>)
    requires At(told, r, Answered)
    requires var i := told.responses[r].instance;
             && Retains(told.book, told.names[i], i) && i !in responding && told.book.responding == responding[i := r]
    ensures var i, done := told.responses[r].instance, Step(Step(told, AfterReply(r)), Free(r));
            done.book == Book(told.book.entries - {told.names[i]}, responding) && done.accepted == told.accepted
  {
    var i := told.responses[r].instance;
    assert responding[i := r] - {i} == responding;
  }

  /** A retained instance that nobody answers yet is answered by reserving, admitting and one accepted reply; then it is
    * gone, every other entry and reservation is what it was, and its acceptance stays on record. */
  lemma AnswerGoesThrough(events: seq<Event>, i: Instance)
    requires var s := Run(events); i < |s.names| && Retains(s.book, s.names[i], i) && i !in s.book.responding
    ensures var s, r := Run(events), |Run(events).responses|;
            var answered := Run(events + [Answer(i)] + [Admit(r)] + [ReplyOk(r)] + [AfterReply(r)] + [Free(r)]);
            && answered.book == Book(s.book.entries - {s.names[i]}, s.book.responding)
            && answered.accepted == s.accepted + [i]
  {
    var s, r := Run(events), |Run(events).responses|;
    EveryRunKeepsInv(events);
    var reserved := events + [Answer(i)];
    RunNext(events, Answer(i));
    RunNext(reserved, Admit(r));
    RunNext(reserved + [Admit(r)], ReplyOk(r));
    RunNext(reserved + [Admit(r)] + [ReplyOk(r)], AfterReply(r));
    RunNext(reserved + [Admit(r)] + [ReplyOk(r)] + [AfterReply(r)], Free(r));
    AnswerSteps(s, i);
    ReplySteps(Run(reserved + [Admit(r)] + [ReplyOk(r)]), r, s.book.responding);
  }

  lemma RunNext(events: seq<Event>, e: Event)
    ensures Run(events + [e]) == Step(Run(events), e)
  {
    assert (events + [e])[..|events|] == events;
  }
}
