# Genre inference service: text combiner and `/predict` metrics protocol

This project models the core of a small game-genre inference service. The
service takes a game's title, description and tags and builds one text from
them. A pre-trained classifier turns that text into a genre label. Around
each prediction the service updates a process-wide Prometheus registry.

The model has two parts.

- **Text combiner** (`TextCombiner`, `text_combiner.dfy`). `CombineText` is
  `" ".join` of the title, then the description and the tags, each only when
  truthy (present and non-empty). The proofs give its exact value and length.
  They also show where each field lands, and that splitting on spaces gives
  the fields back when none contains a space.
- **`/predict` instrumentation**. `Counters` (`counters.dfy`) models labelled
  counters as maps from label values to naturals; a label never touched reads
  as 0. `Instrumentation` (`instrumentation.dfy`) describes one call as a
  function `Handle` on a `Snapshot` of every instrument the handler touches.
  It also proves what one call and a sequence of calls do to the counters and
  gauges. `Inference.Registry` (`registry.dfy`) is the registry as a class
  whose fields the handler updates in place. Its `Predict` method follows the
  handler step by step and is proved equal to `Handle`.

The classifier is the parameter `classify: string -> Classification`. It is
applied to the combined text and returns `Predicted(genre)`, or
`Failed(category, message)` when `model.predict` raises. `category` stands
for the exception's class name and `message` for `str(e)`.

Schema validation runs in the web framework before the handler. The model
reflects it only through the type `Request`, whose `title` is always present.
An absent optional field (`""` by default) and an explicit `None` are both
falsy, so the model treats them the same way.

`Consistent` is the registry invariant that every call keeps:

- the success count equals the sum of the per-genre counts;
- the error count equals the sum of the per-class error counts;
- the latency histogram has one observation per success;
- the size histogram has one observation per call;
- the model-version gauge maps `"1.0"` to 1 and nothing else.

Inside a call, between observing the size and counting the status, the same
facts hold with one call pending (`CountsAddUp(s, 1)`); `Registry.RecordVerdict`,
the handler's inner step, starts from that state.

String lengths are counted in Unicode scalar values; for text without lone
surrogates this is what Python's `len` counts.

## Model

| member | source | states |
|---|---|---|
| TextCombiner.Truthy | inference.py:62-64 | no contract; the truthiness test `if req.description` / `if req.tags`: the field is present and non-empty, so `None` and `""` are both falsy; its consequences are stated by CombineText and CombineIsTitleIff |
| TextCombiner.Parts | inference.py:61-65 | the list built before joining has one to three entries and starts with the title; CombineSplitsIntoParts shows it is what splitting the combined text gives back when no field contains a space |
| TextCombiner.CombineText | inference.py:60-66 | the combined text is the title, then `" " + description` if the description is truthy, then `" " + tags` if the tags are truthy; its length is the title's length plus 1 + the field's length for each truthy field |
| TextCombiner.Join | inference.py:66 | `" ".join` of n ≥ 1 parts has the parts' total length plus n − 1 separators and starts with the first part |
| TextCombiner.CombineIsTitleIff | inference.py:60-66 | the combined text equals the title if and only if neither description nor tags is truthy |
| TextCombiner.CombinePlacement | inference.py:61-66 | the text starts with the title; a truthy description follows it after exactly one space; truthy tags come last after exactly one space; with no tags the description runs to the end |
| TextCombiner.CombineExamples | inference.py:60-66 | `Foo`, `Foo Bar`, `Foo Tag` (tags only, and with an empty description), and `Space shooter arcade action` for the documented inputs |
| TextCombiner.CombineSplitsIntoParts | inference.py:60-66 | if no field contains a space, splitting the combined text on spaces returns the title followed by the truthy description and tags, in that order |
| TextCombiner.SplitJoin | inference.py:66 | splitting the join of a non-empty list of space-free parts on spaces returns that list (the empty list joins to `""`, which splits to `[""]`) |
| TextCombiner.JoinSplit | inference.py:66 | joining the pieces of any string split on spaces returns the string |
| Counters.Inc | inference.py:109-112 | `labels(k).inc()` raises the child at `k` by exactly one, creating it at 0 if absent, and leaves every other child unchanged |
| Counters.TotalInc | inference.py:109-112 | one increment raises a counter's sum over all labels by exactly one |
| Instrumentation.Startup | inference.py:38 | at startup nothing is counted, in-progress is 0, and the model-version gauge holds exactly `{"1.0": 1}` |
| Instrumentation.StartupConsistent | inference.py:38 | the startup registry satisfies the counting invariant |
| Instrumentation.Enter | inference.py:92-93 | no contract; in-progress goes up by one and the queue gauge is set to 0; its effect is stated by InProgressDuringClassification and ObserveSizePending (in-progress one above the caller's and queue gauge 0 while the classifier runs) and by HandleGauges (restored on exit) |
| Instrumentation.ObserveSize | inference.py:96-99 | no contract; the request-size histogram observes the combined text's length; its effect is stated by HandleGauges and ObserveSizePending |
| Instrumentation.Record | inference.py:104-124 | no contract; the success branch (latency, success, genre, response with version "1.0") or the exception branch (error status, error class, 500 with the message); its effect is stated by HandleSuccess, HandleFailure and RecordSettles |
| Instrumentation.Leave | inference.py:126-127 | no contract; the `finally` step lowers in-progress by one; its effect is stated by HandleGauges |
| Instrumentation.Handle | inference.py:86-127 | no contract; one call in handler order (Enter, ObserveSize, Record on the classifier's verdict for the combined text, Leave); its properties are stated by HandleGauges, HandleSuccess, HandleFailure, HandleCountsOnce, HandleMonotone and HandlePreservesConsistent |
| Instrumentation.HandleGauges | inference.py:92-127 | on every path, in-progress ends where it started, the queue gauge is 0, the size histogram gains exactly one observation equal to the combined text's length (even when the classifier fails), and the model-version gauge does not change |
| Instrumentation.HandleSuccess | inference.py:102-118 | when the classifier returns `genre`: the success count and that genre's count each rise by 1, no other genre changes, error counts do not change, latency gains one observation, and the response is `(genre, "1.0")` |
| Instrumentation.HandleFailure | inference.py:120-124 | when the classifier raises class `c` with message `m`: the error-status count and `c`'s error count each rise by 1, no other class changes, success, per-genre and latency do not change, and the outcome is HTTP 500 with detail `m` |
| Instrumentation.HandleCountsOnce | inference.py:108-124 | success + error rises by exactly 1 per call, and success is the status counted exactly when the call returns a response |
| Instrumentation.HandleMonotone | inference.py:109-123 | no counter value at any label goes down |
| Instrumentation.InProgressDuringClassification | inference.py:92-102 | the snapshot the classifier's verdict is recorded on has in-progress exactly one above the caller's, the queue gauge at 0, the combined text's length already observed, and every counter and the version gauge unchanged |
| Instrumentation.ObserveSizePending | inference.py:92-99 | from a registry whose counters add up, entering and observing the size leaves them adding up with exactly one call pending (size observed, status not yet counted), with in-progress one above the caller's and the queue gauge at 0 |
| Instrumentation.RecordSettles | inference.py:104-124 | with one call pending, recording either verdict makes the counters add up again with nothing pending |
| Instrumentation.HandlePreservesConsistent | inference.py:96-124 | a call keeps the counting invariant (success = sum of genres, error = sum of error classes, one size observation per call, one latency observation per success, version gauge `{"1.0": 1}`) |
| Instrumentation.HandleAllCounts | inference.py:86-127 | over N sequential calls, success + error rises by exactly N, N sizes are observed, in-progress and the version gauge end unchanged, the queue gauge is 0, and the invariant is kept |
| Instrumentation.HandleAllSuccesses | inference.py:109 | N calls on which the classifier succeeds raise the success count by exactly N and leave the error count unchanged |
| Inference.Registry.constructor | inference.py:38 | the new registry equals the startup snapshot: version gauge `{"1.0": 1}`, in-progress 0, invariant established |
| Inference.Registry.Predict | inference.py:86-127 | the in-place handler leaves the registry and returns the outcome exactly as `Handle` describes; in-progress is restored, the queue gauge is 0, one size is observed, the version gauge is unchanged, and the invariant is kept |
| Inference.Registry.RecordVerdict | inference.py:104-124 | the handler's inner step: entered with this call's size observed and its status not yet counted, the counter updates of either branch match `Record` and leave the counters adding up |

## Left out

- Latency, confidence and timestamp values (inference.py:88, 105-106, 115-116) are wall-clock or constant floats. Only the latency histogram's observation count per endpoint is modelled. The last-confidence and last-prediction-timestamp gauges are not modelled.
- Gauges are modelled as integers rather than Prometheus floats. The handler only adds or subtracts 1, sets 0, or sets 1.
- Counters are modelled as unbounded naturals. Prometheus counters are float64 values, and past 2^53 an increment by 1 no longer changes them; the model does not capture that loss of precision.
- Python strings may hold lone surrogate code points (a JSON `\ud800` escape decodes to one); a Dafny `char` cannot, so requests containing them are not modelled.
- Histogram buckets and sums are not modelled. The request-size histogram is the list of every observed size, from which its count and sum follow. The bucket bounds are declared in prometheus_exporter.py, which is not part of this model.
- The `/metrics` endpoint and its text exposition (`generate_latest`), the `/health` endpoint, and `uvicorn.run` (inference.py:71-81, 130-131) are web plumbing or foreign library calls.
- Loading the model at startup, including the file-existence check and `joblib.load` (inference.py:32-35), is file-system I/O. The loaded model is the `classify` parameter.
- Pydantic validation of the request body (inference.py:49-52) runs before the handler and touches no metric. It appears only as the `Request` type, whose title is required.
- Only `model.predict` is treated as able to raise. Python code that cannot fail on a validated request (`_combine_text`, `len`) and the metric library's own calls are assumed not to raise.
- The response construction `InferenceResponse(...)` (inference.py:118) runs after the success and genre counters have moved; had the classifier returned a label that is not a string, it would raise and the source would count both statuses for that call. The model's `Predicted(genre: string)` assumes the classifier returns a string label, so that case is not modelled and the `except` branch is never reached after the success counters have moved.
- Concurrency and the atomicity of metric updates are not modelled. Calls are served one after another. This is why `HandleAll` describes N calls in sequence.
