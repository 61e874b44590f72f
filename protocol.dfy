/** Vocabulary shared by the two agent front-ends: JSON payloads as the
    parser returns them, the responses written back, the whitespace
    stripping that decides which input lines are blank, and the read-eval
    loop that turns a stream of input lines into a stream of responses. */
module Protocol {

  datatype Option<T> = None | Some(value: T)

  datatype Result<T, E> = Ok(value: T) | Err(error: E)

  /** A Python float as the decision code sees it. Finite floats are
      idealised as reals: rounding at exact thresholds (for instance
      `1.8 + x * 0.4 < 1.9`) is not modelled. NaN and the infinities are
      all `NonFinite`, which is all `math.isfinite` distinguishes. */
  datatype Float = Finite(r: real) | NonFinite

  /** A value as `json.loads` returns it. Integer literals become Python
      ints and the other numbers floats (the parser also accepts `NaN` and
      `Infinity`); an object keeps the last value of a repeated key. */
  datatype Json =
    | JNull
    | JBool(b: bool)
    | JInt(i: int)
    | JFloat(x: Float)
    | JString(s: string)
    | JArray(items: seq<Json>)
    | JObject(fields: map<string, Json>)

  /** The JSON parser, abstracted: a parsed payload, or `None` where
      `json.loads` raises `JSONDecodeError`. */
  type Parser = string -> Option<Json>

  /** `payload.get(key)` on a JSON object. */
  function Get(payload: Json, key: string): Option<Json>
    requires payload.JObject?
  {
    if key in payload.fields then Some(payload.fields[key]) else None
  }

  /** One response line. */
  datatype Response = Action(action: int) | Status(status: string) | Error(error: string)

  const ResetStatus: string := "reset"
  const InvalidJson: string := "invalid_json"
  const UnknownCommand: string := "unknown_command"
  const InvalidObservation: string := "invalid_observation"

  const ResetCommand: Json := JString("reset")
  const InferCommand: Json := JString("infer")

  /** Exceptions that escape the per-line handling and end the process. */
  datatype Exception =
    | AttributeError  // `payload.get` on a payload that is not a JSON object
    | OverflowError   // `float()` of an integer too large for a double

  /** What handling one input line does: nothing, one response line, or
      an uncaught exception that ends the loop. */
  datatype LineOutcome = Silent | Emit(response: Response) | Abort(exc: Exception)

  /** The characters `str.strip()` removes: those for which `str.isspace`
      holds. */
  predicate IsSpace(c: char)
  {
    c == ' ' || '\t' <= c <= '\r' || '\U{1C}' <= c <= '\U{1F}'
    || c == '\U{85}' || c == '\U{A0}' || c == '\U{1680}'
    || '\U{2000}' <= c <= '\U{200A}' || c == '\U{2028}' || c == '\U{2029}'
    || c == '\U{202F}' || c == '\U{205F}' || c == '\U{3000}'
  }

  /** Every character of `s` is whitespace. */
  predicate AllSpace(s: string)
  {
    forall k :: 0 <= k < |s| ==> IsSpace(s[k])
  }

  /** The length of the whitespace run that `s.lstrip()` removes. */
  function LeadingSpace(s: string): (n: nat)
    ensures n <= |s| && AllSpace(s[..n])
    ensures n < |s| ==> !IsSpace(s[n])
  {
    if s != [] && IsSpace(s[0]) then
      var m := LeadingSpace(s[1..]);
      assert s[..1 + m] == [s[0]] + s[1..][..m];
      1 + m
    else 0
  }

  /** The length of the whitespace run that `s.rstrip()` removes. */
  function TrailingSpace(s: string): (n: nat)
    ensures n <= |s| && AllSpace(s[|s| - n..])
    ensures n < |s| ==> !IsSpace(s[|s| - n - 1])
  {
    if s != [] && IsSpace(s[|s| - 1]) then
      var init := s[..|s| - 1];
      var m := TrailingSpace(init);
      assert s[|s| - (m + 1)..] == init[|init| - m..] + [s[|s| - 1]];
      m + 1
    else 0
  }

  /** `s.strip()`: the slice of `s` between its leading and its trailing
      whitespace. It is empty exactly when `s` is all whitespace, and
      otherwise neither starts nor ends with whitespace. */
  function Strip(s: string): (r: string)
    ensures r == [] <==> AllSpace(s)
    ensures |r| <= |s| - LeadingSpace(s) && r == s[LeadingSpace(s)..][..|r|]
    ensures AllSpace(s[..LeadingSpace(s)]) && AllSpace(s[LeadingSpace(s) + |r|..])
    ensures r != [] ==> !IsSpace(r[0]) && !IsSpace(r[|r| - 1])
  {
    var i := LeadingSpace(s);
    var t := TrailingSpace(s);
    if i == |s| then
      assert s[..i] == s;
      []
    else
      assert s[i + (|s| - t - i)..] == s[|s| - t..];
      s[i..|s| - t]
  }

  /** Lines that the loops skip without answering. */
  predicate IsBlank(line: string)
  {
    Strip(line) == []
  }

  /** The number of lines that are not blank. */
  function CountNonBlank(lines: seq<string>): (n: nat)
    ensures n <= |lines|
  {
    if lines == [] then 0
    else CountNonBlank(lines[..|lines| - 1]) + (if IsBlank(lines[|lines| - 1]) then 0 else 1)
  }

  /** What a run of the loop has produced: the responses written so far,
      the session state, and whether an exception has ended the process. */
  datatype Trace<S> = Trace(out: seq<Response>, state: S, aborted: bool)

  /** The `for line in sys.stdin` loop of both front-ends: feed each line
      with the current state to `step`, append its response if it has one,
      and stop at the first exception. */
  function Run<S>(step: (string, S) -> (LineOutcome, S), lines: seq<string>, s0: S): (t: Trace<S>)
    ensures |t.out| <= |lines|
    decreases |lines|
  {
    if lines == [] then Trace([], s0, false)
    else
      var t := Run(step, lines[..|lines| - 1], s0);
      if t.aborted then t
      else
        var (o, s) := step(lines[|lines| - 1], t.state);
        match o
        case Silent => Trace(t.out, s, false)
        case Emit(r) => Trace(t.out + [r], s, false)
        case Abort(_) => Trace(t.out, s, true)
  }

  /** Reading one more line: the run so far, extended by what `step` does
      with that line unless the run has already ended. */
  lemma RunSnoc<S>(step: (string, S) -> (LineOutcome, S), lines: seq<string>, i: nat, s0: S)
    requires i < |lines|
    ensures Run(step, lines[..i + 1], s0)
            == (var t := Run(step, lines[..i], s0);
                if t.aborted then t
                else
                  var (o, s) := step(lines[i], t.state);
                  match o
                  case Silent => Trace(t.out, s, false)
                  case Emit(r) => Trace(t.out + [r], s, false)
                  case Abort(_) => Trace(t.out, s, true))
  {
    assert lines[..i + 1][..i] == lines[..i];
  }

  /** Continues a trace with more lines, unless it has already ended. */
  function Continue<S>(t: Trace<S>, step: (string, S) -> (LineOutcome, S), more: seq<string>): Trace<S>
  {
    if t.aborted then t
    else
      var u := Run(step, more, t.state);
      Trace(t.out + u.out, u.state, u.aborted)
  }

  /** A step function that answers every line but the blank ones, and
      leaves the state alone on a blank line. */
  ghost predicate SkipsBlank<S(!new)>(step: (string, S) -> (LineOutcome, S))
  {
    forall line, s :: (step(line, s).0.Silent? <==> IsBlank(line))
                      && (IsBlank(line) ==> step(line, s).1 == s)
  }

  /** Reading `a` and then `b` is reading `a` and continuing with `b` from
      the state `a` left behind; after an exception, nothing more is read. */
  lemma {:induction false} RunAppend<S>(step: (string, S) -> (LineOutcome, S), a: seq<string>, b: seq<string>, s0: S)
    ensures Run(step, a + b, s0) == Continue(Run(step, a, s0), step, b)
    decreases |b|
  {
    if b == [] {
      assert a + b == a;
    } else {
      var b' := b[..|b| - 1];
      assert (a + b)[..|a + b| - 1] == a + b';
      assert (a + b)[|a + b| - 1] == b[|b| - 1];
      RunAppend(step, a, b', s0);
      var t := Run(step, a, s0);
      if !t.aborted {
        var u' := Run(step, b', t.state);
        if !u'.aborted {
          var (o, s) := step(b[|b| - 1], u'.state);
          match o
          case Silent =>
          case Emit(r) =>
            assert t.out + u'.out + [r] == t.out + (u'.out + [r]);
          case Abort(_) =>
        }
      }
    }
  }

  /** Once an exception has ended the loop, later lines change nothing. */
  lemma AbortIsFinal<S>(step: (string, S) -> (LineOutcome, S), a: seq<string>, b: seq<string>, s0: S)
    requires Run(step, a, s0).aborted
    ensures Run(step, a + b, s0) == Run(step, a, s0)
  {
    RunAppend(step, a, b, s0);
  }

  /** A loop that stops after `i` lines, because the input is exhausted
      or an exception has ended it, has produced the run over all lines. */
  lemma RunStopped<S>(step: (string, S) -> (LineOutcome, S), lines: seq<string>, i: nat, s0: S)
    requires i <= |lines|
    requires i == |lines| || Run(step, lines[..i], s0).aborted
    ensures Run(step, lines, s0) == Run(step, lines[..i], s0)
  {
    if i < |lines| {
      AbortIsFinal(step, lines[..i], lines[i..], s0);
      assert lines[..i] + lines[i..] == lines;
    } else {
      assert lines[..i] == lines;
    }
  }

  /** Exactly one response per non-blank line until an exception ends the
      loop, and never more than one. */
  lemma {:induction false} RunAnswersEachLine<S(!new)>(step: (string, S) -> (LineOutcome, S), lines: seq<string>, s0: S)
    requires SkipsBlank(step)
    ensures |Run(step, lines, s0).out| <= CountNonBlank(lines)
    ensures !Run(step, lines, s0).aborted ==> |Run(step, lines, s0).out| == CountNonBlank(lines)
    decreases |lines|
  {
    if lines != [] {
      var init := lines[..|lines| - 1];
      RunAnswersEachLine(step, init, s0);
      var t := Run(step, init, s0);
      if !t.aborted {
        var line := lines[|lines| - 1];
        assert step(line, t.state).0.Silent? <==> IsBlank(line);
      }
    }
  }

  /** A blank line leaves the whole run as if it had not been there. */
  lemma BlankLineIsInvisible<S(!new)>(step: (string, S) -> (LineOutcome, S), a: seq<string>, line: string, b: seq<string>, s0: S)
    requires SkipsBlank(step)
    requires IsBlank(line)
    ensures Run(step, a + [line] + b, s0) == Run(step, a + b, s0)
  {
    RunAppend(step, a + [line], b, s0);
    RunAppend(step, a, b, s0);
    var t := Run(step, a, s0);
    assert (a + [line])[..|a + [line]| - 1] == a;
    if !t.aborted {
      assert step(line, t.state).0.Silent? && step(line, t.state).1 == t.state;
    }
  }
}
