/** The debt agent's line protocol: one session whose state is a dict
    holding at most the key "last_action"; `reset` clears it, `infer`
    validates and converts a ten-element observation, decides with the rule
    chain and records the action. Every other input is answered with an
    error and leaves the state as it was. */
module DebtService {
  import opened Protocol
  import opened DebtEngine

  /** The session dict. Only the key "last_action" is ever written. */
  type State = map<string, int>

  const LastActionKey: string := "last_action"

  /** `state.get("last_action", 1)` */
  function LastAction(s: State): (a: int)
    ensures ValidState(s) ==> a in {1, 2, 3}
    ensures LastActionKey !in s ==> a == DefaultAction
    ensures LastActionKey in s ==> a == s[LastActionKey]
  {
    if LastActionKey in s then s[LastActionKey] else DefaultAction
  }

  /** What every session state satisfies: no key but "last_action", and
      that one, when present, holds an action of the chain. */
  predicate ValidState(s: State)
  {
    (forall k :: k in s ==> k == LastActionKey)
    && (LastActionKey in s ==> s[LastActionKey] in {1, 2, 3})
  }

  /** The two pieces of the Python runtime the handler relies on: the JSON
      parser, and `float()` of a string (`None` where it raises ValueError). */
  datatype Runtime = Runtime(parse: Parser, parseFloat: string -> Option<Float>)

  /** The outcome of a conversion: a value, a TypeError/ValueError (which
      the handler catches), or an OverflowError (which it does not). */
  datatype Converted<T> = Value(v: T) | Rejected | Overflow

  /** The least integer magnitude that `float()` cannot convert:
      2^1024 - 2^970, half way between the largest double and 2^1024. */
  const FloatOverflowBound: int :=
    0xFFFFFFFFFFFFFC00_0000000000000000_0000000000000000_0000000000000000_0000000000000000_0000000000000000_0000000000000000_0000000000000000_0000000000000000_0000000000000000_0000000000000000_0000000000000000_0000000000000000_0000000000000000_0000000000000000_0000000000000000

  /** `float(value)` for one JSON value: numbers and booleans convert,
      strings convert when Python's float syntax accepts them, null, lists
      and objects are rejected. Integer rounding is idealised. */
  function ToFloat(parseFloat: string -> Option<Float>, value: Json): (c: Converted<Float>)
    ensures c.Overflow? <==> value.JInt? && !(-FloatOverflowBound < value.i < FloatOverflowBound)
    ensures c.Rejected? <==> value.JNull? || value.JArray? || value.JObject?
                             || (value.JString? && parseFloat(value.s).None?)
    ensures value.JFloat? ==> c == Value(value.x)
    ensures value.JBool? ==> c == Value(Finite(if value.b then 1.0 else 0.0))
    ensures value.JInt? && c.Value? ==> c.v == Finite(value.i as real)
    ensures value.JString? && parseFloat(value.s).Some? ==> c == Value(parseFloat(value.s).value)
  {
    match value
    case JBool(b) => Value(Finite(if b then 1.0 else 0.0))
    case JInt(i) => if -FloatOverflowBound < i < FloatOverflowBound then Value(Finite(i as real)) else Overflow
    case JFloat(x) => Value(x)
    case JString(s) => (match parseFloat(s) case Some(x) => Value(x) case None => Rejected)
    case _ => Rejected
  }

  /** Converts the elements in order and stops at the first that fails. */
  function ConvertAll(parseFloat: string -> Option<Float>, items: seq<Json>): (c: Converted<seq<Float>>)
    ensures c.Value? ==> |c.v| == |items|
    decreases |items|
  {
    if items == [] then Value([])
    else
      match ConvertAll(parseFloat, items[..|items| - 1])
      case Value(xs) =>
        (match ToFloat(parseFloat, items[|items| - 1])
         case Value(x) => Value(xs + [x])
         case Rejected => Rejected
         case Overflow => Overflow)
      case Rejected => Rejected
      case Overflow => Overflow
  }

  /** Conversion succeeds exactly when every element converts, and then
      yields the elements' values in order. */
  lemma {:induction false} ConvertAllValues(parseFloat: string -> Option<Float>, items: seq<Json>)
    ensures ConvertAll(parseFloat, items).Value?
            <==> forall k :: 0 <= k < |items| ==> ToFloat(parseFloat, items[k]).Value?
    ensures ConvertAll(parseFloat, items).Value? ==>
              |ConvertAll(parseFloat, items).v| == |items|
              && forall k :: 0 <= k < |items| ==> ConvertAll(parseFloat, items).v[k] == ToFloat(parseFloat, items[k]).v
    decreases |items|
  {
    if items != [] {
      var init := items[..|items| - 1];
      ConvertAllValues(parseFloat, init);
      assert forall k :: 0 <= k < |init| ==> init[k] == items[k];
    }
  }

  /** A failed conversion reports the failure of the first element that
      does not convert. */
  lemma {:induction false} ConvertAllFirstFailure(parseFloat: string -> Option<Float>, items: seq<Json>, k: nat)
    requires k < |items|
    requires forall j :: 0 <= j < k ==> ToFloat(parseFloat, items[j]).Value?
    requires !ToFloat(parseFloat, items[k]).Value?
    ensures ConvertAll(parseFloat, items).Rejected? == ToFloat(parseFloat, items[k]).Rejected?
    ensures ConvertAll(parseFloat, items).Overflow? == ToFloat(parseFloat, items[k]).Overflow?
    decreases |items|
  {
    var init := items[..|items| - 1];
    if k < |items| - 1 {
      ConvertAllFirstFailure(parseFloat, init, k);
    } else {
      ConvertAllValues(parseFloat, init);
    }
  }

  /** A failure in a prefix is the failure of the whole. */
  lemma {:induction false} ConvertFailurePersists(parseFloat: string -> Option<Float>, items: seq<Json>, n: nat)
    requires n <= |items|
    requires !ConvertAll(parseFloat, items[..n]).Value?
    ensures ConvertAll(parseFloat, items) == ConvertAll(parseFloat, items[..n])
    decreases |items| - n
  {
    if n < |items| {
      assert items[..|items| - 1][..n] == items[..n];
      ConvertFailurePersists(parseFloat, items[..|items| - 1], n);
    } else {
      assert items[..n] == items;
    }
  }

  /** The conversion loop of `_handle_command`. */
  method ConvertObservation(parseFloat: string -> Option<Float>, items: seq<Json>) returns (c: Converted<seq<Float>>)
    ensures c == ConvertAll(parseFloat, items)
  {
    var numbers: seq<Float> := [];
    var i := 0;
    while i < |items|
      invariant 0 <= i <= |items|
      invariant ConvertAll(parseFloat, items[..i]) == Value(numbers)
      decreases |items| - i
    {
      assert items[..i + 1][..i] == items[..i];
      match ToFloat(parseFloat, items[i]) {
        case Value(x) =>
          numbers := numbers + [x];
        case Rejected =>
          ConvertFailurePersists(parseFloat, items, i + 1);
          return Rejected;
        case Overflow =>
          ConvertFailurePersists(parseFloat, items, i + 1);
          return Overflow;
      }
      i := i + 1;
    }
    assert items[..i] == items;
    c := Value(numbers);
  }

  /** The result of `_handle_command`: its success flag and response, or
      the exception it lets escape. */
  datatype Handled = Handled(success: bool, response: Response) | Raised(exc: Exception)

  /** An `infer` command whose obs is a list of the right length in which
      the first element that does not convert is an integer too large for
      a double. */
  predicate RaisesOverflow(rt: Runtime, payload: Json)
  {
    payload.JObject? && Get(payload, "type") == Some(InferCommand)
    && Get(payload, "obs").Some? && Get(payload, "obs").value.JArray?
    && |Get(payload, "obs").value.items| == ObsDim
    && ConvertAll(rt.parseFloat, Get(payload, "obs").value.items).Overflow?
  }

  /** `_handle_command` on a parsed payload and the session state: the
      outcome and the state afterwards. */
  function Handle(rt: Runtime, payload: Json, s: State): (r: (Handled, State))
    ensures r.0.Handled? ==> (r.0.success <==> !r.0.response.Error?)
    ensures r.0.Raised? || r.0.response.Error? ==> r.1 == s
    ensures r.0 == Handled(true, Status(ResetStatus)) ==> r.1 == map[]
    ensures r.0.Handled? && r.0.response.Action? ==> r.1 == s[LastActionKey := r.0.response.action]
    ensures ValidState(s) ==> ValidState(r.1)
    ensures ValidState(s) && r.0.Handled? && r.0.response.Action? ==> r.0.response.action in {1, 2, 3}
    ensures r.0 == Raised(AttributeError) <==> !payload.JObject?
    ensures r.0 == Raised(OverflowError) <==> RaisesOverflow(rt, payload)
  {
    if !payload.JObject? then (Raised(AttributeError), s)
    else
      var cmd := Get(payload, "type");
      if cmd == Some(ResetCommand) then (Handled(true, Status(ResetStatus)), map[])
      else if cmd != Some(InferCommand) then (Handled(false, Error(UnknownCommand)), s)
      else
        var obs := Get(payload, "obs");
        if !(obs.Some? && obs.value.JArray? && |obs.value.items| == ObsDim) then
          (Handled(false, Error(InvalidObservation)), s)
        else
          match ConvertAll(rt.parseFloat, obs.value.items)
          case Rejected => (Handled(false, Error(InvalidObservation)), s)
          case Overflow => (Raised(OverflowError), s)
          case Value(xs) =>
            ConvertAllValues(rt.parseFloat, obs.value.items);
            var a := Decide(xs, LastAction(s));
            (Handled(true, Action(a)), s[LastActionKey := a])
  }

  /** One iteration of the loop in `main`: blank lines are skipped, a line
      that does not parse is answered with invalid_json, anything else is
      handed to the command handler. */
  function Step(rt: Runtime, line: string, s: State): (r: (LineOutcome, State))
    ensures r.0.Silent? <==> IsBlank(line)
    ensures IsBlank(line) ==> r.1 == s
    ensures !IsBlank(line) && rt.parse(Strip(line)).None? ==> r == (Emit(Error(InvalidJson)), s)
    ensures r.0.Abort? || (r.0.Emit? && r.0.response.Error?) ==> r.1 == s
    ensures r.0 == Abort(AttributeError)
            <==> !IsBlank(line) && rt.parse(Strip(line)).Some? && !rt.parse(Strip(line)).value.JObject?
    ensures r.0 == Abort(OverflowError)
            <==> !IsBlank(line) && rt.parse(Strip(line)).Some? && RaisesOverflow(rt, rt.parse(Strip(line)).value)
    ensures !IsBlank(line) && rt.parse(Strip(line)).Some?
            && Handle(rt, rt.parse(Strip(line)).value, s).0.Handled?
            ==> r == (Emit(Handle(rt, rt.parse(Strip(line)).value, s).0.response),
                      Handle(rt, rt.parse(Strip(line)).value, s).1)
    ensures ValidState(s) ==> ValidState(r.1)
  {
    if IsBlank(line) then (Silent, s)
    else
      match rt.parse(Strip(line))
      case None => (Emit(Error(InvalidJson)), s)
      case Some(payload) =>
        var (h, s') := Handle(rt, payload, s);
        match h
        case Handled(_, response) => (Emit(response), s')
        case Raised(e) => (Abort(e), s')
  }

  function StepFn(rt: Runtime): (string, State) -> (LineOutcome, State)
  {
    (line, s) => Step(rt, line, s)
  }

  /** The debt loop answers each non-blank line exactly once until an
      exception ends it. */
  lemma DebtAnswersEachLine(rt: Runtime, lines: seq<string>, s0: State)
    ensures |Run(StepFn(rt), lines, s0).out| <= CountNonBlank(lines)
    ensures !Run(StepFn(rt), lines, s0).aborted ==> |Run(StepFn(rt), lines, s0).out| == CountNonBlank(lines)
  {
    RunAnswersEachLine(StepFn(rt), lines, s0);
  }

  /** Every state the loop reaches from a valid one is valid: the dict
      never holds anything but an action of the chain. */
  lemma {:induction false} RunKeepsStateValid(rt: Runtime, lines: seq<string>, s0: State)
    requires ValidState(s0)
    ensures ValidState(Run(StepFn(rt), lines, s0).state)
    decreases |lines|
  {
    if lines != [] {
      RunKeepsStateValid(rt, lines[..|lines| - 1], s0);
    }
  }

  /** A line the parser rejects is answered with invalid_json and is
      otherwise as if it had never arrived: the lines after it see the
      state they would have seen without it. */
  lemma BadJsonIsTransparent(rt: Runtime, before: seq<string>, bad: string, after: seq<string>, s0: State)
    requires !IsBlank(bad) && rt.parse(Strip(bad)).None?
    requires !Run(StepFn(rt), before, s0).aborted
    ensures Run(StepFn(rt), before + [bad] + after, s0)
            == (var t := Run(StepFn(rt), before, s0);
                var u := Run(StepFn(rt), after, t.state);
                Trace(t.out + [Error(InvalidJson)] + u.out, u.state, u.aborted))
  {
    RunAppend(StepFn(rt), before + [bad], after, s0);
    assert (before + [bad])[..|before + [bad]| - 1] == before;
  }

  /** `reset` answers `{status: "reset"}` and empties the dict, so the next
      decision sees the default previous action; a second `reset` leaves
      the same empty dict. */
  lemma ResetClears(rt: Runtime, payload: Json, s: State)
    requires payload.JObject? && Get(payload, "type") == Some(ResetCommand)
    ensures Handle(rt, payload, s) == (Handled(true, Status(ResetStatus)), map[])
    ensures Handle(rt, payload, Handle(rt, payload, s).1) == Handle(rt, payload, s)
    ensures LastAction(Handle(rt, payload, s).1) == DefaultAction
  {
  }

  /** Commands other than `reset` and `infer` (or none at all) are answered
      with unknown_command and leave the state alone. */
  lemma UnknownCommandKeepsState(rt: Runtime, payload: Json, s: State)
    requires payload.JObject?
    requires Get(payload, "type") != Some(ResetCommand) && Get(payload, "type") != Some(InferCommand)
    ensures Handle(rt, payload, s) == (Handled(false, Error(UnknownCommand)), s)
  {
  }

  /** An `infer` whose obs is missing, not a list, of the wrong length or
      with an element `float()` rejects is answered with
      invalid_observation and leaves the state alone. */
  lemma BadObservationKeepsState(rt: Runtime, payload: Json, s: State)
    requires payload.JObject? && Get(payload, "type") == Some(InferCommand)
    requires var obs := Get(payload, "obs");
             !(obs.Some? && obs.value.JArray? && |obs.value.items| == ObsDim)
             || exists k :: 0 <= k < |obs.value.items| && ToFloat(rt.parseFloat, obs.value.items[k]).Rejected?
                            && forall j :: 0 <= j < k ==> ToFloat(rt.parseFloat, obs.value.items[j]).Value?
    ensures Handle(rt, payload, s) == (Handled(false, Error(InvalidObservation)), s)
  {
    var obs := Get(payload, "obs");
    if obs.Some? && obs.value.JArray? && |obs.value.items| == ObsDim {
      var k :| 0 <= k < |obs.value.items| && ToFloat(rt.parseFloat, obs.value.items[k]).Rejected?
               && forall j :: 0 <= j < k ==> ToFloat(rt.parseFloat, obs.value.items[j]).Value?;
      ConvertAllFirstFailure(rt.parseFloat, obs.value.items, k);
    }
  }

  /** A well-formed `infer` answers the rule chain's decision on the
      converted observation and the recorded previous action, and records
      the answer as the new previous action. */
  lemma InferDecides(rt: Runtime, payload: Json, s: State, obs: seq<Float>)
    requires payload.JObject? && Get(payload, "type") == Some(InferCommand)
    requires Get(payload, "obs").Some? && Get(payload, "obs").value.JArray?
    requires var items := Get(payload, "obs").value.items;
             |items| == ObsDim == |obs| && forall k :: 0 <= k < |items| ==> ToFloat(rt.parseFloat, items[k]) == Value(obs[k])
    ensures var a := Decide(obs, LastAction(s));
            Handle(rt, payload, s) == (Handled(true, Action(a)), s[LastActionKey := a])
  {
    var items := Get(payload, "obs").value.items;
    ConvertAllValues(rt.parseFloat, items);
    assert ConvertAll(rt.parseFloat, items).v == obs;
  }

  /** The memory works across calls: once a command has been answered with
      an action, a later infer that reaches the fallback with flat slopes
      answers that same action again. */
  lemma HysteresisAcrossCalls(rt: Runtime, p1: Json, p2: Json, s: State, obs2: seq<Float>)
    requires Handle(rt, p1, s).0.Handled? && Handle(rt, p1, s).0.response.Action?
    requires p2.JObject? && Get(p2, "type") == Some(InferCommand)
    requires Get(p2, "obs").Some? && Get(p2, "obs").value.JArray?
    requires var items := Get(p2, "obs").value.items;
             |items| == ObsDim == |obs2| && forall k :: 0 <= k < |items| ==> ToFloat(rt.parseFloat, items[k]) == Value(obs2[k])
    requires Fallback(Sanitise(obs2)) && SlopesFlat(Sanitise(obs2))
    ensures Handle(rt, p2, Handle(rt, p1, s).1).0 == Handled(true, Action(Handle(rt, p1, s).0.response.action))
  {
    var s1 := Handle(rt, p1, s).1;
    InferDecides(rt, p2, s1, obs2);
    Hysteresis(Sanitise(obs2), LastAction(s1));
  }

  /** The run over one more line, when the run so far has not ended and
      the step answered `o` and left `s'`. */
  lemma RunStep(rt: Runtime, lines: seq<string>, i: nat, s0: State,
                out: seq<Response>, s: State, o: LineOutcome, s': State)
    requires i < |lines|
    requires Run(StepFn(rt), lines[..i], s0) == Trace(out, s, false)
    requires Step(rt, lines[i], s) == (o, s')
    ensures Run(StepFn(rt), lines[..i + 1], s0)
            == match o
               case Silent => Trace(out, s', false)
               case Emit(r) => Trace(out + [r], s', false)
               case Abort(_) => Trace(out, s', true)
  {
    RunSnoc(StepFn(rt), lines, i, s0);
    assert StepFn(rt)(lines[i], s) == (o, s');
  }

  /** A debt-agent session: the mutable dict that `main` threads through
      every call, and the runtime pieces it parses with. */
  class DebtAgent {
    const rt: Runtime
    var state: State

    ghost predicate Valid()
      reads this
    {
      ValidState(state)
    }

    constructor (rt: Runtime)
      ensures this.rt == rt && state == map[] && Valid()
    {
      this.rt := rt;
      state := map[];
    }

    /** `_decide_action`: decide and record the action. */
    method DecideAction(obs: seq<Float>) returns (a: int)
      requires |obs| == ObsDim
      requires Valid()
      modifies this
      ensures Valid() && a in {1, 2, 3}
      ensures a == Decide(obs, LastAction(old(state)))
      ensures state == old(state)[LastActionKey := a]
    {
      a := Decide(obs, LastAction(state));
      state := state[LastActionKey := a];
    }

    /** `_handle_command`. */
    method HandleCommand(payload: Json) returns (h: Handled)
      requires Valid()
      modifies this
      ensures Valid()
      ensures (h, state) == Handle(rt, payload, old(state))
    {
      if !payload.JObject? {
        return Raised(AttributeError);
      }
      var cmd := Get(payload, "type");
      if cmd == Some(ResetCommand) {
        state := map[];
        return Handled(true, Status(ResetStatus));
      }
      if cmd != Some(InferCommand) {
        return Handled(false, Error(UnknownCommand));
      }
      var obs := Get(payload, "obs");
      if !(obs.Some? && obs.value.JArray? && |obs.value.items| == ObsDim) {
        return Handled(false, Error(InvalidObservation));
      }
      var numbers := ConvertObservation(rt.parseFloat, obs.value.items);
      match numbers
      case Rejected =>
        h := Handled(false, Error(InvalidObservation));
      case Overflow =>
        h := Raised(OverflowError);
      case Value(xs) =>
        ConvertAllValues(rt.parseFloat, obs.value.items);
        var a := DecideAction(xs);
        h := Handled(true, Action(a));
    }

    /** One iteration of the loop in `main`. */
    method ServeLine(line: string) returns (o: LineOutcome)
      requires Valid()
      modifies this
      ensures Valid()
      ensures (o, state) == Step(rt, line, old(state))
    {
      if IsBlank(line) {
        return Silent;
      }
      match rt.parse(Strip(line))
      case None =>
        o := Emit(Error(InvalidJson));
      case Some(payload) =>
        var h := HandleCommand(payload);
        match h
        case Handled(_, response) =>
          o := Emit(response);
        case Raised(e) =>
          o := Abort(e);
    }

    /** The loop of `main` over the input lines: the responses written, in
        order, and whether an exception ended it. */
    method Serve(lines: seq<string>) returns (out: seq<Response>, aborted: bool)
      requires Valid()
      modifies this
      ensures Valid()
      ensures Trace(out, state, aborted) == Run(StepFn(rt), lines, old(state))
    {
      out, aborted := [], false;
      var i := 0;
      while i < |lines| && !aborted
        invariant 0 <= i <= |lines|
        invariant Valid()
        invariant Trace(out, state, aborted) == Run(StepFn(rt), lines[..i], old(state))
      {
        ghost var before := state;
        var o := ServeLine(lines[i]);
        RunStep(rt, lines, i, old(state), out, before, o, state);
        match o {
          case Silent =>
          case Emit(response) =>
            out := out + [response];
          case Abort(_) =>
            aborted := true;
        }
        i := i + 1;
      }
      RunStopped(StepFn(rt), lines, i, old(state));
    }
  }
}
