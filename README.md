# Agent decision services: line protocol and rule-based debt policy

This project models the two agent front-ends of the simulator's agents. Each reads one
JSON command per input line and writes one JSON response per line.

- **Debt agent** (`agents/debt/inference.py`). A deterministic rule-based policy.
  - Ten observation fields are sanitised. Levels are clamped to [0, 1]; the three
    slopes are re-centred to [-1, 1]; non-finite values become 0.
  - A ten-rule, first-match-wins chain picks action 1 (hold), 2 or 3.
  - The session's only memory is a dict that holds at most `last_action`. The
    fallback rule echoes it when both trend slopes are flat (hysteresis).
  - `reset` empties the dict.
  - Every error response (`invalid_json`, `unknown_command`, `invalid_observation`)
    leaves the dict unchanged.
- **ALM agent** (`agents/alm/inference.py`). The same routing with no session state.
  - `infer` checks only that `obs` is a list of four elements.
  - It then hands `obs` to the policy network. The network's exceptions become
    `{error: <message>}`.

Files:

- `protocol.dfy` (module `Protocol`) holds what both front-ends share:
  - the JSON values the parser returns and the responses;
  - `str.strip()` and the blank-line test;
  - the `for line in sys.stdin` loop as a function `Run` over a step function, with
    its lemmas: composition, an exception ends the loop, one response per non-blank
    line, blank lines are invisible.
- `debt_engine.dfy` (module `DebtEngine`) holds the sanitising functions, the rule
  chain as a function, and the lemmas about rule order and hysteresis.
- `debt_service.dfy` (module `DebtService`) holds:
  - the `float()` conversion loop (a method proved against a function);
  - `_handle_command` and one loop iteration as pure functions of the session state;
  - the class `DebtAgent`. Its field `state` is the session dict. Its methods mutate
    it as `_decide_action`, `_handle_command` and `main` do, and are proved equal to
    those functions.
- `alm_service.dfy` (module `AlmService`) holds the per-line routing as a function
  and the loop as a method that accumulates the response sequence.

External collaborators are parameters:

- the JSON parser (`string -> Option<Json>`);
- `float()` of a string (`string -> Option<Float>`);
- the policy network's `act` (`seq<Json> -> Result<int, string>`).

Arithmetic is on `real`. Float rounding at exact thresholds is idealised: for example,
`1.8 + leverage * 0.4 < 1.9` is taken as exact.

Behaviour worth knowing:

- **Some lines do end the process.** A payload that parses but is not a JSON object
  (for example `[1]`) makes `payload.get` raise `AttributeError`, which nothing
  catches. In the debt agent, an integer element too large for a double makes
  `float()` raise `OverflowError`, which the `except (TypeError, ValueError)` does not
  catch. Both are modelled as `Abort`, which ends the loop.
- **The ALM agent does not check element types.** Only the list and its length are
  checked.
- **No state is reset when the evaluator raises.** The ALM agent has no state at all, and
  the debt agent has no evaluator that can raise.

Two observations are proved as lemmas (they are redundancies, not errors):

- Rule 7's `coverage <= 0.42` test can never fire, because rule 2 has already answered
  every coverage below 0.48 (`Rule7CoverageTestIsDead`).
- The fallback's `last_action in (2, 3)` test gives 1 on both branches
  (`Hysteresis`, `MemoryOnlyInHysteresis`).

## Model

| member | source | states |
|---|---|---|
| Protocol.LeadingSpace | agents/debt/inference.py:134-135 | the whitespace run that stripping removes at the front: every character in it is whitespace, and the next character, if any, is not |
| Protocol.TrailingSpace | agents/debt/inference.py:134-135 | the whitespace run that stripping removes at the back: every character in it is whitespace, and the character before it, if any, is not |
| Protocol.Strip | agents/debt/inference.py:134-135 | the stripped line is the slice of the line between a run of leading whitespace and a run of trailing whitespace; it is empty exactly when every character is whitespace, and otherwise it neither starts nor ends with whitespace |
| Protocol.Run | agents/debt/inference.py:133-149 | the `for line in sys.stdin` loop of both front-ends over any per-line step, stopping at the first exception; it writes at most one response per input line |
| Protocol.RunAppend | agents/debt/inference.py:133-149 | reading `a` then `b` is reading `a` and continuing with `b` from the state `a` left; after an exception nothing more is read |
| Protocol.AbortIsFinal | agents/debt/inference.py:152-156 | an uncaught exception ends the loop: later lines change neither the output nor the state |
| Protocol.RunAnswersEachLine | agents/alm/inference.py:27-58 | for any step that is silent exactly on blank lines, the loop writes exactly one response per non-blank line until an exception, and never more |
| Protocol.BlankLineIsInvisible | agents/debt/inference.py:134-136 | a blank line anywhere in the input leaves the whole run (output and state) as if it were absent |
| DebtEngine.ZeroCenter | agents/debt/inference.py:13-17 | result in [-1, 1]; non-finite input gives 0; the result is 0 exactly at 0.5 (or non-finite); on [0, 1] it is the linear map `(x - 0.5) * 2`; below 0 it saturates to -1 and above 1 to 1 |
| DebtEngine.Clamp01 | agents/debt/inference.py:20-23 | result in [0, 1]; identity on [0, 1]; saturates below 0 and above 1; non-finite input gives 0 |
| DebtEngine.Sanitise | agents/debt/inference.py:40-50 | after sanitising, every level field is in [0, 1] and every slope in [-1, 1] |
| DebtEngine.Chain | agents/debt/inference.py:77-101 | the chain answers 1, 2 or 3, or hands back the previous action unchanged |
| DebtEngine.Decide | agents/debt/inference.py:26-104 | if the previous action is in {1, 2, 3}, so is the decision, for every observation including out-of-range and non-finite ones |
| DebtEngine.CoverageWins | agents/debt/inference.py:77-78 | clamped coverage > 0.65 and volatility ratio < 0.9 give 2, whatever the other fields and the previous action are |
| DebtEngine.WeakCoverageOrVolatileYields3 | agents/debt/inference.py:77-80 | when rule 1 fails, coverage < 0.48 or volatility ratio > 0.95 gives 3, whatever the rest |
| DebtEngine.NeutralObservationHolds | agents/debt/inference.py:40-86 | an observation of all 0.5 gives 1 for every previous action (rule 5) |
| DebtEngine.Hysteresis | agents/debt/inference.py:95-101 | when rules 1 to 9 all fail: flat slopes echo the previous action; otherwise the answer is 1 for every previous action |
| DebtEngine.MemoryOnlyInHysteresis | agents/debt/inference.py:52-101 | two decisions that differ only in the previous action agree, unless the fallback is reached with flat slopes; then each echoes its own previous action |
| DebtEngine.Rule7CoverageTestIsDead | agents/debt/inference.py:79-89 | once rule 2 has failed, rule 7 fires exactly when the de-normalised leverage exceeds 2.1 |
| DebtEngine.HysteresisExample | agents/debt/inference.py:77-103 | a concrete fallback observation keeps previous actions 1, 2 and 3; tilting its leverage slope to 0.1 gives 1 after previous action 2 or 3 |
| DebtService.LastAction | agents/debt/inference.py:52 | `state.get("last_action", 1)`: the recorded action when the key is present, 1 when it is absent, and always 1, 2 or 3 for a valid session state |
| DebtService.ToFloat | agents/debt/inference.py:121-125 | `float()` overflows exactly for integers of magnitude at least 2^1024 - 2^970; it is rejected exactly for null, lists, objects and unparseable strings; floats pass through unchanged, `true`/`false` give 1.0/0.0, an in-range integer gives its own value, and a parseable string gives what the string parser gives |
| DebtService.ConvertAll | agents/debt/inference.py:120-125 | the conversion of the obs list, element by element in order, stopping at the first failure; on success it has one value per element |
| DebtService.ConvertAllValues | agents/debt/inference.py:120-125 | conversion of the list succeeds exactly when every element converts, and then yields each element's value in order |
| DebtService.ConvertAllFirstFailure | agents/debt/inference.py:121-125 | a failed conversion reports the kind of failure (rejected or overflow) of the first element that does not convert |
| DebtService.ConvertFailurePersists | agents/debt/inference.py:121-125 | a failure within a prefix of the list is the result for the whole list |
| DebtService.ConvertObservation | agents/debt/inference.py:120-125 | the conversion loop returns exactly the specified conversion: all values, or the first element's failure |
| DebtService.Handle | agents/debt/inference.py:107-128 | the success flag is true exactly when the response is not an error; errors and exceptions keep the state; reset empties it; an action is recorded under `last_action` and nothing else changes; a valid state stays valid and its actions are in {1, 2, 3}; it raises AttributeError exactly for a non-object payload, and OverflowError exactly for an `infer` with a ten-element list whose first non-converting element is an oversized integer |
| DebtService.Step | agents/debt/inference.py:133-149 | silent exactly on blank lines, which keep the state; an unparseable line answers invalid_json and keeps the state; a line parsing to a payload that the handler answers writes the handler's response and takes the handler's new state; errors and exceptions keep the state; validity is preserved; the loop ends with AttributeError exactly when the line parses to a non-object, and with OverflowError exactly when the handler overflows |
| DebtService.DebtAnswersEachLine | agents/debt/inference.py:133-145 | the debt loop writes one response per non-blank line until an exception, and never more |
| DebtService.RunKeepsStateValid | agents/debt/inference.py:103-111 | from a valid state, the dict never holds any key but `last_action`, and that key only ever holds 1, 2 or 3 |
| DebtService.BadJsonIsTransparent | agents/debt/inference.py:138-142 | an unparseable line adds invalid_json to the output; the lines after it see the state they would have seen without it |
| DebtService.ResetClears | agents/debt/inference.py:109-111 | reset answers `{status: "reset"}` and empties the dict; a second reset gives the same; the next decision sees the default previous action 1 |
| DebtService.UnknownCommandKeepsState | agents/debt/inference.py:113-114 | a type other than reset or infer, or none, answers unknown_command and keeps the state |
| DebtService.BadObservationKeepsState | agents/debt/inference.py:116-125 | a missing or non-list obs, a wrong length, or an element `float()` rejects before any failure answers invalid_observation and keeps the state |
| DebtService.InferDecides | agents/debt/inference.py:127-128 | a well-formed infer answers the chain's decision on the converted values and the recorded previous action, and records that answer |
| DebtService.HysteresisAcrossCalls | agents/debt/inference.py:52-103 | the session memory works across calls: after any command answered with an action, a later well-formed infer that reaches the fallback with flat slopes answers that same action |
| DebtService.DebtAgent.constructor | agents/debt/inference.py:132 | a new session starts with an empty dict |
| DebtService.DebtAgent.DecideAction | agents/debt/inference.py:103-104 | returns the chain's decision for the recorded previous action, stores it under `last_action` and changes nothing else |
| DebtService.DebtAgent.HandleCommand | agents/debt/inference.py:107-128 | the outcome and the new dict are those of `Handle` on the old dict |
| DebtService.DebtAgent.ServeLine | agents/debt/inference.py:134-149 | the outcome and the new dict are those of `Step` on the old dict |
| DebtService.DebtAgent.Serve | agents/debt/inference.py:131-149 | the responses written, the final dict and whether an exception ended the loop are those of `Run` over the lines |
| AlmService.Route | agents/alm/inference.py:27-58 | silent exactly on blank lines; an unparseable line answers invalid_json; the loop ends with AttributeError exactly when the payload parses to a non-object |
| AlmService.EvaluatorOnlyOnValidInfer | agents/alm/inference.py:38-56 | two evaluators can lead to different outcomes only on an infer whose obs is a list of four elements on which they differ; reset, unknown and invalid observations never reach the evaluator |
| AlmService.CommandResponses | agents/alm/inference.py:38-58 | reset gives `{status: "reset"}`; any other non-infer type gives unknown_command; a non-list obs or one whose length is not 4 gives invalid_observation; otherwise the answer is the action exactly when the evaluator returns one, and `{error: message}` when it raises |
| AlmService.AlmAnswersEachLine | agents/alm/inference.py:27-58 | exactly one response per non-blank line until a non-object payload ends the loop |
| AlmService.Stateless | agents/alm/inference.py:27-58 | the answers to `a + b` are the answers to `a` followed by those to `b` on its own |
| AlmService.Serve | agents/alm/inference.py:27-58 | the responses written and whether an exception ended the loop are those of `Run` over the lines |

## Left out

- Policy networks (`agents/alm/model.py`, `agents/debt/model.py`) are not part of this
  model. They are foreign numerics (torch layers, LSTM state, weight loading, sampling).
  The ALM network's `act` is an arbitrary function parameter. The debt front-end never
  uses its network.
- `_load_agent`, `torch.manual_seed` and grad settings are not modelled: this is startup
  plumbing.
- The offline statistics script `scripts/brute-force-comparison/analyze_results.py` is
  not part of this model. It is batch float tooling, not decision logic.
- The JSON parser and Python's `float()` string syntax are function parameters. Their
  internals are not modelled.
- Splitting standard input into lines is not modelled. Each model takes the sequence of
  lines.
- Output flushing is not modelled.
- `KeyboardInterrupt` handling is not modelled.
- Parser exceptions other than `JSONDecodeError` are not modelled. These are a
  `RecursionError` on deeply nested input and, on recent Python versions, a `ValueError`
  for an integer literal of more than 4300 digits. Neither is caught, so either would end
  the process. The parser abstraction returns only a payload or a decode failure.
- Evaluator exceptions that are not subclasses of `Exception` are not modelled.
- DebtService.ToFloat: IEEE-754 rounding is not modelled. Finite values are reals and
  integers convert exactly, so threshold comparisons are exact. The one modelled limit is
  the overflow bound.
- `leverage_mean_actual` and the sign of `leverage_gap` are not modelled. They are
  computed but affect nothing beyond `gap_abs`.
