/** `BaseFunctionAgentAi.call_agent`: the bounded loop of an agent that calls functions. Each
    attempt streams one model response; a function success sends its output back, a function
    error sends the error back with a request to fix the code, and the loop stops on a plain
    answer, after five errors or after ten calls. The model's responses and the events the
    subclass's function handler emits are inputs of the model. */
module FunctionAgent {
  import opened Wrappers
  import opened ChatMessages
  import opened AgentEvents
  import opened Seqs

  const MAX_CONSECUTIVE_ERRORS: nat := 5
  const MAX_CONSECUTIVE_CALLS: nat := 10

  /** An event of the model's response stream; `RawItemDone` carries the events the function
      handler emits for a finished function-call item. */
  datatype RawEvent =
    | RawTextDelta(delta: string)
    | RawCreated(id: string)
    | RawCompleted(id: string)
    | RawItemDone(handled: seq<AgentEvent>)
    | RawOther

  /** The input of an attempt: the user query, a function output, or a function error
      followed by "Can you fix the code?". */
  datatype AgentInput =
    | UserInput(query: string)
    | SuccessOutput(callId: string, functionResponse: string)
    | ErrorOutput(callId: string, message: string)

  /** One request to the model: its input and the response it continues. */
  datatype Request = Request(input: AgentInput, previousResponseId: Option<string>)

  const MaxErrorsEvent := ErrorEvent("Maximum consecutive errors (5) reached", "max_errors_reached")
  const MaxCallsEvent := ErrorEvent("Maximum consecutive calls (10) reached", "max_calls_reached")

  // ---------------------------------------------------------------- one attempt

  /** What an attempt has produced so far: the events, the last response id, and the last
      success and error of the current response. */
  datatype AttemptState = AttemptState(events: seq<AgentEvent>, last: Option<string>,
                                       success: Option<SuccessInfo>, error: Option<ErrorInfo>)

  /** What `call_agent` keeps of a success and of an error event. */
  datatype SuccessInfo = SuccessInfo(callId: string, functionResponse: string)
  datatype ErrorInfo = ErrorInfo(callId: Option<string>, message: string)

  /** The result check of `call_agent` on one emitted event: only a result of the current
      response counts, and a later one replaces an earlier one. */
  function NoteResult(s: AttemptState, e: AgentEvent): (r: AttemptState)
    ensures r.events == s.events && r.last == s.last
    ensures e.FunctionSuccess? && ResponseIdOf(e) == s.last ==>
              r.success == Some(SuccessInfo(e.callId, e.functionResponse)) && r.error == s.error
    ensures e.FunctionError? && ResponseIdOf(e) == s.last ==>
              r.error == Some(ErrorInfo(e.errorCallId, e.message)) && r.success == s.success
    ensures !((e.FunctionSuccess? || e.FunctionError?) && ResponseIdOf(e) == s.last) ==> r == s
  {
    if e.FunctionError? && ResponseIdOf(e) == s.last then s.(error := Some(ErrorInfo(e.errorCallId, e.message)))
    else if e.FunctionSuccess? && ResponseIdOf(e) == s.last then s.(success := Some(SuccessInfo(e.callId, e.functionResponse)))
    else s
  }

  /** The handler's events appended and checked one by one. */
  function NoteAll(s: AttemptState, handled: seq<AgentEvent>): (r: AttemptState)
    ensures r.events == s.events + handled && r.last == s.last
    decreases |handled|
  {
    if |handled| == 0 then s
    else
      var n := |handled| - 1;
      var before := NoteAll(s, handled[..n]);
      assert handled[..n] + [handled[n]] == handled;
      NoteResult(before.(events := before.events + [handled[n]]), handled[n])
  }

  /** `_generate_stream_internal` on one stream event, with the checks of `call_agent`:
      a created or completed response becomes the last response id. */
  function AttemptStep(agentId: string, s: AttemptState, raw: RawEvent): (r: AttemptState)
    ensures raw.RawCreated? ==> r.last == Some(raw.id)
    ensures raw.RawCompleted? ==> r.last == Some(raw.id)
    ensures !(raw.RawCreated? || raw.RawCompleted?) ==> r.last == s.last
  {
    match raw
    case RawTextDelta(d) => s.(events := s.events + [TextDelta(d)])
    case RawCreated(id) => s.(events := s.events + [ResponseCreated(agentId, id)], last := Some(id))
    case RawCompleted(id) => s.(events := s.events + [ResponseCompleted(agentId, Some(id))], last := Some(id))
    case RawItemDone(handled) => NoteAll(s, handled)
    case RawOther => s
  }

  /** One attempt over the stream of one model response. */
  function Attempt(agentId: string, last: Option<string>, raws: seq<RawEvent>): AttemptState
    decreases |raws|
  {
    if |raws| == 0 then AttemptState([], last, None, None)
    else AttemptStep(agentId, Attempt(agentId, last, raws[..|raws| - 1]), raws[|raws| - 1])
  }

  /** The stream the model answers attempt k with; none at all past the given ones. */
  function AttemptAt(attempts: seq<seq<RawEvent>>, k: nat): seq<RawEvent>
  {
    if k < |attempts| then attempts[k] else []
  }

  // ---------------------------------------------------------------- the loop

  /** The run of the loop: its events, its requests, the last response id, the error and call
      counts, and whether it ended at the loop guard (rather than by a break). */
  datatype LoopRun = LoopRun(events: seq<AgentEvent>, requests: seq<Request>, last: Option<string>,
                             errors: nat, calls: nat, capped: bool)

  /** The first events and requests of a run followed by the rest of it. */
  function Prepend(events: seq<AgentEvent>, requests: seq<Request>, rest: LoopRun): LoopRun
  {
    rest.(events := events + rest.events, requests := requests + rest.requests)
  }

  /** The state after an attempt: the error count, the next input, and whether the loop
      breaks. */
  datatype Next = Next(errors: nat, input: AgentInput, stop: bool)

  /** A success sends its output; an error counts and sends its message, or breaks the loop
      when it has no call id; an attempt with neither breaks the loop. */
  function NextAfter(a: AttemptState, errors: nat, input: AgentInput): (n: Next)
    ensures n.stop <==> a.success.None? && (a.error.None? || !Truthy(a.error.value.callId))
    ensures n.errors == if a.success.None? && a.error.Some? then errors + 1 else errors
  {
    if a.success.Some? then Next(errors, SuccessOutput(a.success.value.callId, a.success.value.functionResponse), false)
    else if a.error.Some? then
      if Truthy(a.error.value.callId) then Next(errors + 1, ErrorOutput(a.error.value.callId.value, a.error.value.message), false)
      else Next(errors + 1, input, true)
    else Next(errors, input, true)
  }

  /** The loop of `call_agent` from a given state. */
  function RunLoop(agentId: string, attempts: seq<seq<RawEvent>>, errors: nat, calls: nat,
                   last: Option<string>, input: AgentInput): LoopRun
    decreases MAX_CONSECUTIVE_CALLS - calls
  {
    if errors >= MAX_CONSECUTIVE_ERRORS || calls >= MAX_CONSECUTIVE_CALLS then LoopRun([], [], last, errors, calls, true)
    else
      var a := Attempt(agentId, last, AttemptAt(attempts, calls));
      var n := NextAfter(a, errors, input);
      if n.stop then LoopRun(a.events, [Request(input, last)], a.last, n.errors, calls + 1, false)
      else Prepend(a.events, [Request(input, last)], RunLoop(agentId, attempts, n.errors, calls + 1, a.last, n.input))
  }

  /** The loop never makes more than ten calls nor counts more than five errors; it makes one
      request per call; and it ends at the guard only when a limit is reached. */
  lemma {:induction false} RunLoopBounds(agentId: string, attempts: seq<seq<RawEvent>>, errors: nat, calls: nat,
                                         last: Option<string>, input: AgentInput)
    requires errors <= MAX_CONSECUTIVE_ERRORS && calls <= MAX_CONSECUTIVE_CALLS
    ensures var run := RunLoop(agentId, attempts, errors, calls, last, input);
            && errors <= run.errors <= MAX_CONSECUTIVE_ERRORS
            && calls <= run.calls <= MAX_CONSECUTIVE_CALLS
            && |run.requests| == run.calls - calls
            && (run.capped ==> run.errors >= MAX_CONSECUTIVE_ERRORS || run.calls >= MAX_CONSECUTIVE_CALLS)
    decreases MAX_CONSECUTIVE_CALLS - calls
  {
    if errors < MAX_CONSECUTIVE_ERRORS && calls < MAX_CONSECUTIVE_CALLS {
      var a := Attempt(agentId, last, AttemptAt(attempts, calls));
      var n := NextAfter(a, errors, input);
      if !n.stop {
        RunLoopBounds(agentId, attempts, n.errors, calls + 1, a.last, n.input);
      }
    }
  }

  /** The events `call_agent` yields after the loop, as written: the call limit is reported
      whenever ten calls were made, even when the tenth ended the conversation normally. */
  function FinalEventsAsWritten(run: LoopRun): (r: seq<AgentEvent>)
    ensures MaxCallsEvent in r <==> run.calls >= MAX_CONSECUTIVE_CALLS
    ensures MaxErrorsEvent in r <==> run.errors >= MAX_CONSECUTIVE_ERRORS
  {
    (if run.errors >= MAX_CONSECUTIVE_ERRORS then [MaxErrorsEvent] else []) +
    (if run.calls >= MAX_CONSECUTIVE_CALLS then [MaxCallsEvent] else [])
  }

  /** The events after the loop with the call limit reported only when the loop was stopped
      by it, that is when the tenth call still asked for another one. */
  function FinalEvents(run: LoopRun): (r: seq<AgentEvent>)
    ensures MaxCallsEvent in r <==> run.capped && run.calls >= MAX_CONSECUTIVE_CALLS
    ensures MaxErrorsEvent in r <==> run.errors >= MAX_CONSECUTIVE_ERRORS
  {
    (if run.errors >= MAX_CONSECUTIVE_ERRORS then [MaxErrorsEvent] else []) +
    (if run.capped && run.calls >= MAX_CONSECUTIVE_CALLS then [MaxCallsEvent] else [])
  }

  // ---------------------------------------------------------------- the finding

  const SuccessfulAttempt: seq<RawEvent> :=
    [RawCreated("r"), RawItemDone([FunctionSuccess("agent", "r", "call", "ok", PlainResult)])]
  const FinalAnswerAttempt: seq<RawEvent> := [RawCreated("r"), RawTextDelta("done")]

  /** Nine calls whose function succeeds, then a tenth that answers without calling one. */
  function NineCallsThenAnswer(): (r: seq<seq<RawEvent>>)
    ensures |r| == 10 && r[9] == FinalAnswerAttempt
    ensures forall k :: 0 <= k < 9 ==> r[k] == SuccessfulAttempt
  {
    seq(9, _ => SuccessfulAttempt) + [FinalAnswerAttempt]
  }

  /** From any call before the tenth, the run of `NineCallsThenAnswer` makes ten calls, no
      error, and ends by itself on the tenth. */
  lemma {:induction false} NineCallsThenAnswerRun(k: nat, last: Option<string>, input: AgentInput)
    requires k <= 9
    ensures var run := RunLoop("agent", NineCallsThenAnswer(), 0, k, last, input);
            run.calls == 10 && run.errors == 0 && !run.capped
    decreases 9 - k
  {
    var attempts := NineCallsThenAnswer();
    if k < 9 {
      var s0 := Attempt("agent", last, []);
      assert SuccessfulAttempt[..1] == [RawCreated("r")];
      var s1 := Attempt("agent", last, SuccessfulAttempt[..1]);
      assert s1.last == Some("r");
      var a := Attempt("agent", last, SuccessfulAttempt);
      assert a.success.Some?;
      NineCallsThenAnswerRun(k + 1, a.last, NextAfter(a, 0, input).input);
    } else {
      assert FinalAnswerAttempt[..1] == [RawCreated("r")];
      assert FinalAnswerAttempt[..1][..0] == [];
      var s0 := Attempt("agent", last, []);
      assert s0.success.None? && s0.error.None?;
      var s1 := Attempt("agent", last, FinalAnswerAttempt[..1]);
      assert s1 == AttemptStep("agent", s0, RawCreated("r"));
      var a := Attempt("agent", last, FinalAnswerAttempt);
      assert a.success.None? && a.error.None?;
    }
  }

  /** As written, an agent that answers normally on its tenth call still reports that the
      maximum number of calls was reached. */
  lemma MaxCallsReportedAfterNormalAnswer()
    ensures var run := RunLoop("agent", NineCallsThenAnswer(), 0, 0, None, UserInput("q"));
            !run.capped && MaxCallsEvent in FinalEventsAsWritten(run)
  {
    NineCallsThenAnswerRun(0, None, UserInput("q"));
  }

  /** With the limit reported only when it stopped the loop, the same run ends without
      error events. */
  lemma NoMaxCallsAfterNormalAnswer()
    ensures FinalEvents(RunLoop("agent", NineCallsThenAnswer(), 0, 0, None, UserInput("q"))) == []
  {
    NineCallsThenAnswerRun(0, None, UserInput("q"));
  }

  // ---------------------------------------------------------------- the agent

  class FunctionAgentAi {
    /** The id subclasses stamp on their events. */
    const agentId: string
    /** `_last_response_id`: the response the next request continues. */
    var lastResponseId: Option<string>
    /** `_emitted_events`. */
    var emittedEvents: seq<AgentEvent>
    /** The requests sent to the model so far. */
    var requests: seq<Request>

    constructor (agentId: string)
      ensures this.agentId == agentId && lastResponseId.None? && emittedEvents == [] && requests == []
    {
      this.agentId := agentId;
      lastResponseId := None;
      emittedEvents := [];
      requests := [];
    }

    /** One attempt: the stream of the model's response is read, each event is recorded as
        emitted and checked for a result of the current response. */
    method RunAttempt(input: AgentInput, raws: seq<RawEvent>) returns (a: AttemptState)
      modifies this
      ensures a == Attempt(agentId, old(lastResponseId), raws)
      ensures lastResponseId == a.last
      ensures emittedEvents == old(emittedEvents) + a.events
      ensures requests == old(requests) + [Request(input, old(lastResponseId))]
    {
      requests := requests + [Request(input, lastResponseId)];
      a := AttemptState([], lastResponseId, None, None);
      var i := 0;
      while i < |raws|
        invariant 0 <= i <= |raws|
        invariant a == Attempt(agentId, old(lastResponseId), raws[..i])
        invariant lastResponseId == a.last
        invariant emittedEvents == old(emittedEvents) + a.events
        invariant requests == old(requests) + [Request(input, old(lastResponseId))]
      {
        PrefixSnoc(raws, i);
        match raws[i] {
          case RawTextDelta(d) =>
            ConcatAssoc(old(emittedEvents), a.events, [TextDelta(d)]);
            a := a.(events := a.events + [TextDelta(d)]);
            emittedEvents := emittedEvents + [TextDelta(d)];
          case RawCreated(id) =>
            lastResponseId := Some(id);
            ConcatAssoc(old(emittedEvents), a.events, [ResponseCreated(agentId, id)]);
            a := a.(events := a.events + [ResponseCreated(agentId, id)], last := Some(id));
            emittedEvents := emittedEvents + [ResponseCreated(agentId, id)];
          case RawCompleted(id) =>
            lastResponseId := Some(id);
            ConcatAssoc(old(emittedEvents), a.events, [ResponseCompleted(agentId, Some(id))]);
            a := a.(events := a.events + [ResponseCompleted(agentId, Some(id))], last := Some(id));
            emittedEvents := emittedEvents + [ResponseCompleted(agentId, Some(id))];
          case RawItemDone(handled) =>
            var start := a;
            var j := 0;
            while j < |handled|
              invariant 0 <= j <= |handled|
              invariant a == NoteAll(start, handled[..j])
              invariant lastResponseId == a.last
              invariant emittedEvents == old(emittedEvents) + a.events
              invariant requests == old(requests) + [Request(input, old(lastResponseId))]
            {
              PrefixSnoc(handled, j);
              ConcatAssoc(old(emittedEvents), a.events, [handled[j]]);
              emittedEvents := emittedEvents + [handled[j]];
              a := NoteResult(a.(events := a.events + [handled[j]]), handled[j]);
              j := j + 1;
            }
            assert handled[..j] == handled;
          case RawOther =>
        }
        i := i + 1;
      }
      assert raws[..i] == raws;
    }

    /** `call_agent`: the events of every attempt, in order, then the limit errors as
        written. Every event but those final errors is recorded as emitted. */
    method CallAgentAsWritten(query: string, attempts: seq<seq<RawEvent>>) returns (yielded: seq<AgentEvent>)
      modifies this
      ensures var run := RunLoop(agentId, attempts, 0, 0, old(lastResponseId), UserInput(query));
              && yielded == run.events + FinalEventsAsWritten(run)
              && emittedEvents == old(emittedEvents) + run.events
              && requests == old(requests) + run.requests
              && lastResponseId == run.last
    {
      var run := CallLoop(query, attempts);
      yielded := run.events + FinalEventsAsWritten(run);
    }

    /** `call_agent` with the call limit reported only when it stopped the loop. */
    method CallAgent(query: string, attempts: seq<seq<RawEvent>>) returns (yielded: seq<AgentEvent>)
      modifies this
      ensures var run := RunLoop(agentId, attempts, 0, 0, old(lastResponseId), UserInput(query));
              && yielded == run.events + FinalEvents(run)
              && emittedEvents == old(emittedEvents) + run.events
              && requests == old(requests) + run.requests
              && lastResponseId == run.last
    {
      var run := CallLoop(query, attempts);
      yielded := run.events + FinalEvents(run);
    }

    /** One turn of the loop of `call_agent`: an attempt and what follows from it. The run of
        the loop so far followed by the rest of the loop is the whole run. */
    method Turn(input: AgentInput, attempts: seq<seq<RawEvent>>, errors: nat, calls: nat,
                ghost events: seq<AgentEvent>, ghost sent: seq<Request>, ghost full: LoopRun)
        returns (a: AttemptState, n: Next)
      requires errors < MAX_CONSECUTIVE_ERRORS && calls < MAX_CONSECUTIVE_CALLS
      requires Prepend(events, sent, RunLoop(agentId, attempts, errors, calls, lastResponseId, input)) == full
      modifies this
      ensures n.stop ==> LoopRun(events + a.events, sent + [Request(input, old(lastResponseId))], lastResponseId, n.errors, calls + 1, false) == full
      ensures !n.stop ==> Prepend(events + a.events, sent + [Request(input, old(lastResponseId))],
                                  RunLoop(agentId, attempts, n.errors, calls + 1, lastResponseId, n.input)) == full
      ensures emittedEvents == old(emittedEvents) + a.events
      ensures requests == old(requests) + [Request(input, old(lastResponseId))]
    {
      ghost var last := lastResponseId;
      a := RunAttempt(input, AttemptAt(attempts, calls));
      n := NextAfter(a, errors, input);
      RunLoopStep(agentId, attempts, errors, calls, last, input, a, n);
      if n.stop {
        PrependLast(events, sent, a.events, Request(input, last), a.last, n.errors, calls + 1);
      } else {
        AppendStep(events, sent, a.events, Request(input, last), agentId, attempts, n.errors, calls + 1, a.last, n.input);
      }
    }

    /** The loop of `call_agent`. */
    method CallLoop(query: string, attempts: seq<seq<RawEvent>>) returns (run: LoopRun)
      modifies this
      ensures run == RunLoop(agentId, attempts, 0, 0, old(lastResponseId), UserInput(query))
      ensures emittedEvents == old(emittedEvents) + run.events
      ensures requests == old(requests) + run.requests
      ensures lastResponseId == run.last
    {
      ghost var full := RunLoop(agentId, attempts, 0, 0, lastResponseId, UserInput(query));
      var errors: nat := 0;
      var calls: nat := 0;
      var input := UserInput(query);
      var events: seq<AgentEvent> := [];
      var sent: seq<Request> := [];
      var stop := false;
      PrependNothing(full);
      while !stop && errors < MAX_CONSECUTIVE_ERRORS && calls < MAX_CONSECUTIVE_CALLS
        invariant calls <= MAX_CONSECUTIVE_CALLS
        invariant !stop ==> Prepend(events, sent, RunLoop(agentId, attempts, errors, calls, lastResponseId, input)) == full
        invariant stop ==> LoopRun(events, sent, lastResponseId, errors, calls, false) == full
        invariant emittedEvents == old(emittedEvents) + events
        invariant requests == old(requests) + sent
        decreases MAX_CONSECUTIVE_CALLS - calls
      {
        var request := Request(input, lastResponseId);
        var a, n := Turn(input, attempts, errors, calls, events, sent, full);
        ConcatAssoc(old(emittedEvents), events, a.events);
        ConcatAssoc(old(requests), sent, [request]);
        events := events + a.events;
        sent := sent + [request];
        calls := calls + 1;
        errors := n.errors;
        input := n.input;
        stop := n.stop;
      }
      LoopEnd(events, sent, agentId, attempts, errors, calls, lastResponseId, input, stop, full);
      run := LoopRun(events, sent, lastResponseId, errors, calls, !stop);
    }
  }

  /** Prepending nothing leaves a run as it is. */
  lemma PrependNothing(run: LoopRun)
    ensures Prepend([], [], run) == run
  {
    assert [] + run.events == run.events && [] + run.requests == run.requests;
  }

  /** When the loop ends at its guard, the run so far is the whole run. */
  lemma LoopEnd(events: seq<AgentEvent>, sent: seq<Request>, agentId: string, attempts: seq<seq<RawEvent>>,
                errors: nat, calls: nat, last: Option<string>, input: AgentInput, stop: bool, full: LoopRun)
    requires !stop ==> errors >= MAX_CONSECUTIVE_ERRORS || calls >= MAX_CONSECUTIVE_CALLS
    requires !stop ==> Prepend(events, sent, RunLoop(agentId, attempts, errors, calls, last, input)) == full
    requires stop ==> LoopRun(events, sent, last, errors, calls, false) == full
    ensures LoopRun(events, sent, last, errors, calls, !stop) == full
  {
    if !stop {
      assert events + [] == events && sent + [] == sent;
    }
  }

  /** Prepending to the run of a last turn. */
  lemma PrependLast(events: seq<AgentEvent>, sent: seq<Request>, more: seq<AgentEvent>, request: Request,
                    last: Option<string>, errors: nat, calls: nat)
    ensures Prepend(events, sent, LoopRun(more, [request], last, errors, calls, false))
            == LoopRun(events + more, sent + [request], last, errors, calls, false)
  {
  }

  /** One turn of the loop of `call_agent`, below both limits. */
  lemma RunLoopStep(agentId: string, attempts: seq<seq<RawEvent>>, errors: nat, calls: nat,
                    last: Option<string>, input: AgentInput, a: AttemptState, n: Next)
    requires errors < MAX_CONSECUTIVE_ERRORS && calls < MAX_CONSECUTIVE_CALLS
    requires a == Attempt(agentId, last, AttemptAt(attempts, calls)) && n == NextAfter(a, errors, input)
    ensures n.stop ==> RunLoop(agentId, attempts, errors, calls, last, input)
                       == LoopRun(a.events, [Request(input, last)], a.last, n.errors, calls + 1, false)
    ensures !n.stop ==> RunLoop(agentId, attempts, errors, calls, last, input)
                        == Prepend(a.events, [Request(input, last)], RunLoop(agentId, attempts, n.errors, calls + 1, a.last, n.input))
  {
  }

  /** Prepending in two steps is prepending the concatenation. */
  lemma AppendStep(events: seq<AgentEvent>, sent: seq<Request>, more: seq<AgentEvent>, request: Request,
                   agentId: string, attempts: seq<seq<RawEvent>>, errors: nat, calls: nat, last: Option<string>, input: AgentInput)
    ensures Prepend(events, sent, Prepend(more, [request], RunLoop(agentId, attempts, errors, calls, last, input)))
            == Prepend(events + more, sent + [request], RunLoop(agentId, attempts, errors, calls, last, input))
  {
    var rest := RunLoop(agentId, attempts, errors, calls, last, input);
    assert events + (more + rest.events) == (events + more) + rest.events;
    assert sent + ([request] + rest.requests) == (sent + [request]) + rest.requests;
  }
}
