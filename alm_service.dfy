/** The ALM agent's line protocol: the same routing as the debt agent but
    with no session state. `reset` is only acknowledged; `infer` checks
    that obs is a list of the network's input width and hands it, element
    types unchecked, to the policy network, whose exceptions become error
    responses carrying their message. */
module AlmService {
  import opened Protocol

  /** `agent.obs_dim`: the network is built with four inputs. */
  const AlmObsDim: nat := 4

  /** `agent.act(obs, deterministic=True)`, abstracted: the action, or the
      message of the exception it raised. */
  type Evaluator = seq<Json> -> Result<int, string>

  /** One iteration of the loop in `main`. */
  function Route(parse: Parser, act: Evaluator, line: string): (o: LineOutcome)
    ensures o.Silent? <==> IsBlank(line)
    ensures !IsBlank(line) && parse(Strip(line)).None? ==> o == Emit(Error(InvalidJson))
    ensures o.Abort? <==> !IsBlank(line) && parse(Strip(line)).Some? && !parse(Strip(line)).value.JObject?
    ensures o.Abort? ==> o.exc == AttributeError
  {
    if IsBlank(line) then Silent
    else
      match parse(Strip(line))
      case None => Emit(Error(InvalidJson))
      case Some(payload) =>
        if !payload.JObject? then Abort(AttributeError)
        else
          var cmd := Get(payload, "type");
          if cmd == Some(ResetCommand) then Emit(Status(ResetStatus))
          else if cmd != Some(InferCommand) then Emit(Error(UnknownCommand))
          else
            var obs := Get(payload, "obs");
            if !(obs.Some? && obs.value.JArray? && |obs.value.items| == AlmObsDim) then
              Emit(Error(InvalidObservation))
            else
              match act(obs.value.items)
              case Ok(n) => Emit(Action(n))
              case Err(message) => Emit(Error(message))
  }

  /** `Route` as a step of the shared loop, over the one-element state. */
  function StepFn(parse: Parser, act: Evaluator): (string, ()) -> (LineOutcome, ())
  {
    (line, s) => (Route(parse, act, line), s)
  }

  /** The evaluator is consulted only for an `infer` whose obs is a list of
      the right length: on every other line two evaluators give the same
      outcome. */
  lemma EvaluatorOnlyOnValidInfer(parse: Parser, act1: Evaluator, act2: Evaluator, line: string)
    requires Route(parse, act1, line) != Route(parse, act2, line)
    ensures !IsBlank(line) && parse(Strip(line)).Some?
    ensures var payload := parse(Strip(line)).value;
            payload.JObject? && Get(payload, "type") == Some(InferCommand)
            && Get(payload, "obs").Some? && Get(payload, "obs").value.JArray?
            && |Get(payload, "obs").value.items| == AlmObsDim
            && act1(Get(payload, "obs").value.items) != act2(Get(payload, "obs").value.items)
  {
  }

  /** A command object is answered by its type: `reset` is acknowledged,
      any type but `infer` (or none) is unknown, an obs that is not a list
      of four is invalid, and otherwise the answer is the evaluator's
      action, or its message when it raises. */
  lemma CommandResponses(parse: Parser, act: Evaluator, line: string)
    requires !IsBlank(line) && parse(Strip(line)).Some? && parse(Strip(line)).value.JObject?
    ensures var payload := parse(Strip(line)).value;
            var cmd := Get(payload, "type");
            var obs := Get(payload, "obs");
            && (cmd == Some(ResetCommand) ==> Route(parse, act, line) == Emit(Status(ResetStatus)))
            && (cmd != Some(ResetCommand) && cmd != Some(InferCommand)
                ==> Route(parse, act, line) == Emit(Error(UnknownCommand)))
            && (cmd == Some(InferCommand) && !(obs.Some? && obs.value.JArray? && |obs.value.items| == AlmObsDim)
                ==> Route(parse, act, line) == Emit(Error(InvalidObservation)))
            && (cmd == Some(InferCommand) && obs.Some? && obs.value.JArray? && |obs.value.items| == AlmObsDim
                ==> (forall n :: act(obs.value.items) == Ok(n) <==> Route(parse, act, line) == Emit(Action(n)))
                    && (act(obs.value.items).Err? ==> Route(parse, act, line) == Emit(Error(act(obs.value.items).error))))
  {
  }

  /** The loop answers each non-blank line exactly once until a non-object
      payload ends it. */
  lemma AlmAnswersEachLine(parse: Parser, act: Evaluator, lines: seq<string>)
    ensures |Run(StepFn(parse, act), lines, ()).out| <= CountNonBlank(lines)
    ensures !Run(StepFn(parse, act), lines, ()).aborted
            ==> |Run(StepFn(parse, act), lines, ()).out| == CountNonBlank(lines)
  {
    RunAnswersEachLine(StepFn(parse, act), lines, ());
  }

  /** The loop has no memory: the answers to `a + b` are the answers to
      `a` followed by the answers to `b` on its own. */
  lemma Stateless(parse: Parser, act: Evaluator, a: seq<string>, b: seq<string>)
    requires !Run(StepFn(parse, act), a, ()).aborted
    ensures Run(StepFn(parse, act), a + b, ()).out
            == Run(StepFn(parse, act), a, ()).out + Run(StepFn(parse, act), b, ()).out
    ensures Run(StepFn(parse, act), a + b, ()).aborted == Run(StepFn(parse, act), b, ()).aborted
  {
    RunAppend(StepFn(parse, act), a, b, ());
    var t := Run(StepFn(parse, act), a, ());
    assert t.state == ();
  }

  /** The loop of `main`: the responses written, in order, and whether an
      exception ended it. */
  method Serve(parse: Parser, act: Evaluator, lines: seq<string>) returns (out: seq<Response>, aborted: bool)
    ensures Trace(out, (), aborted) == Run(StepFn(parse, act), lines, ())
  {
    out, aborted := [], false;
    var i := 0;
    while i < |lines| && !aborted
      invariant 0 <= i <= |lines|
      invariant Trace(out, (), aborted) == Run(StepFn(parse, act), lines[..i], ())
    {
      RunSnoc(StepFn(parse, act), lines, i, ());
      var o := Route(parse, act, lines[i]);
      assert StepFn(parse, act)(lines[i], ()) == (o, ());
      match o {
        case Silent =>
        case Emit(response) =>
          out := out + [response];
        case Abort(_) =>
          aborted := true;
      }
      i := i + 1;
    }
    RunStopped(StepFn(parse, act), lines, i, ());
  }
}
