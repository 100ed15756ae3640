/** The metrics protocol of the `/predict` handler, stated on values: a
    snapshot of every instrument the handler touches, and the snapshot and
    outcome one call produces from the one before it. */
module Instrumentation {
  import opened TextCombiner
  import opened Counters

  const PredictEndpoint: string := "/predict"
  const ModelVersion: string := "1.0"
  const InternalServerError: int := 500

  /** Label tuples (endpoint, status) of the request-total counter. */
  const SuccessKey: (string, string) := (PredictEndpoint, "success")
  const ErrorKey: (string, string) := (PredictEndpoint, "error")

  /** What the classifier does with one text: returns a genre label, or
      raises an exception of some class (`category`) with a message. */
  datatype Classification = Predicted(genre: string) | Failed(category: string, message: string)

  /** The response body of a successful prediction. */
  datatype Response = Response(predictedGenre: string, modelVersion: string)

  /** How a call ends: a response, or an HTTP error carrying a detail. */
  datatype Outcome = Ok(response: Response) | HttpError(status: int, detail: string)

  /** The instruments the handler updates. Counters are maps from label
      values to naturals; histograms other than the request-size one are
      represented by their observation count only. */
  datatype Snapshot = Snapshot(
    requestTotal: map<(string, string), nat>,   // by (endpoint, status)
    predictionPerGenre: map<string, nat>,       // by genre
    errorTotal: map<string, nat>,               // by exception class name
    latencyCount: map<string, nat>,             // observations, by endpoint
    requestSizes: seq<nat>,                     // every observed request size
    inProgress: int,
    queueLength: int,
    modelVersion: map<string, int>)             // by version

  /** One call and what it leaves behind. */
  datatype Step = Step(after: Snapshot, outcome: Outcome)

  /** The registry when the service is up: nothing counted yet, and the
      model-version gauge at label "1.0" set to 1. */
  function Startup(): (s: Snapshot)
    ensures Count(s.requestTotal, SuccessKey) == Count(s.requestTotal, ErrorKey) == 0
    ensures s.inProgress == 0 && s.requestSizes == []
    ensures s.modelVersion.Keys == {ModelVersion} && s.modelVersion[ModelVersion] == 1
  {
    Snapshot(map[], map[], map[], map[], [], 0, 0, map[ModelVersion := 1])
  }

  /** The counters add up, with `pending` calls that have observed their
      request size but are not yet counted as a success or an error: every
      success is counted under exactly one genre and has one latency
      observation, every error under exactly one exception class, every call
      has one size observation, and the model-version gauge holds 1 at "1.0"
      and nothing else. */
  ghost predicate CountsAddUp(s: Snapshot, pending: nat)
  {
    && Count(s.requestTotal, SuccessKey) == Total(s.predictionPerGenre)
    && Count(s.requestTotal, ErrorKey) == Total(s.errorTotal)
    && Count(s.latencyCount, PredictEndpoint) == Count(s.requestTotal, SuccessKey)
    && |s.requestSizes| == Count(s.requestTotal, SuccessKey) + Count(s.requestTotal, ErrorKey) + pending
    && s.requestTotal.Keys <= {SuccessKey, ErrorKey}
    && s.modelVersion == map[ModelVersion := 1]
  }

  /** The registry invariant between calls: the counters add up with no
      call pending. */
  ghost predicate Consistent(s: Snapshot)
  {
    CountsAddUp(s, 0)
  }

  /** Entering the handler: in-progress goes up and the queue gauge is set
      to 0. */
  function Enter(s: Snapshot): Snapshot
  {
    s.(inProgress := s.inProgress + 1, queueLength := 0)
  }

  /** The request-size histogram observes the combined text's length. */
  function ObserveSize(s: Snapshot, text: string): Snapshot
  {
    s.(requestSizes := s.requestSizes + [|text|])
  }

  /** The body after classification: on success observe latency, count the
      success and the genre and answer with version "1.0"; on failure count
      the error and its class and answer 500 with the message. */
  function Record(s: Snapshot, verdict: Classification): Step
  {
    match verdict
    case Predicted(genre) =>
      Step(s.(latencyCount := Inc(s.latencyCount, PredictEndpoint),
              requestTotal := Inc(s.requestTotal, SuccessKey),
              predictionPerGenre := Inc(s.predictionPerGenre, genre)),
           Ok(Response(genre, ModelVersion)))
    case Failed(category, message) =>
      Step(s.(requestTotal := Inc(s.requestTotal, ErrorKey),
              errorTotal := Inc(s.errorTotal, category)),
           HttpError(InternalServerError, message))
  }

  /** Leaving the handler, on every path: in-progress goes down. */
  function Leave(s: Snapshot): Snapshot
  {
    s.(inProgress := s.inProgress - 1)
  }

  /** One `/predict` call, in the handler's order. */
  function Handle(s: Snapshot, req: Request, classify: string -> Classification): Step
  {
    var text := CombineText(req);
    var settled := Record(ObserveSize(Enter(s), text), classify(text));
    Step(Leave(settled.after), settled.outcome)
  }

  /** On every path: in-progress is back where it was, the queue gauge is
      0, exactly one request size (the combined text's length) is observed,
      and the model-version gauge is untouched. */
  lemma HandleGauges(s: Snapshot, req: Request, classify: string -> Classification)
    ensures var t := Handle(s, req, classify).after;
      && t.inProgress == s.inProgress
      && t.queueLength == 0
      && t.requestSizes == s.requestSizes + [|CombineText(req)|]
      && t.modelVersion == s.modelVersion
  {
  }

  /** Classifier success: the success counter, the genre's counter and the
      latency count each rise by one, no other genre moves, the error
      counters are unchanged, and the response carries the genre and
      version "1.0". */
  lemma HandleSuccess(s: Snapshot, req: Request, classify: string -> Classification, genre: string)
    requires classify(CombineText(req)) == Predicted(genre)
    ensures var st := Handle(s, req, classify); var t := st.after;
      && st.outcome == Ok(Response(genre, "1.0"))
      && Count(t.requestTotal, SuccessKey) == Count(s.requestTotal, SuccessKey) + 1
      && Count(t.requestTotal, ErrorKey) == Count(s.requestTotal, ErrorKey)
      && Count(t.predictionPerGenre, genre) == Count(s.predictionPerGenre, genre) + 1
      && (forall g :: g != genre ==> Count(t.predictionPerGenre, g) == Count(s.predictionPerGenre, g))
      && t.errorTotal == s.errorTotal
      && Count(t.latencyCount, PredictEndpoint) == Count(s.latencyCount, PredictEndpoint) + 1
  {
  }

  /** Classifier failure of class `category`: the error-status counter and
      that class's error counter rise by one, no other class moves, the
      success counter, the genre counters and the latency count are
      unchanged, and the outcome is a 500 carrying the message. */
  lemma HandleFailure(s: Snapshot, req: Request, classify: string -> Classification,
                      category: string, message: string)
    requires classify(CombineText(req)) == Failed(category, message)
    ensures var st := Handle(s, req, classify); var t := st.after;
      && st.outcome == HttpError(500, message)
      && Count(t.requestTotal, ErrorKey) == Count(s.requestTotal, ErrorKey) + 1
      && Count(t.requestTotal, SuccessKey) == Count(s.requestTotal, SuccessKey)
      && Count(t.errorTotal, category) == Count(s.errorTotal, category) + 1
      && (forall c :: c != category ==> Count(t.errorTotal, c) == Count(s.errorTotal, c))
      && t.predictionPerGenre == s.predictionPerGenre
      && t.latencyCount == s.latencyCount
  {
  }

  /** Exactly one of the two request statuses is counted per call, and it
      is the success status exactly when the caller gets a response. */
  lemma HandleCountsOnce(s: Snapshot, req: Request, classify: string -> Classification)
    ensures var st := Handle(s, req, classify); var t := st.after;
      && Count(t.requestTotal, SuccessKey) + Count(t.requestTotal, ErrorKey)
           == Count(s.requestTotal, SuccessKey) + Count(s.requestTotal, ErrorKey) + 1
      && (st.outcome.Ok? <==> Count(t.requestTotal, SuccessKey) == Count(s.requestTotal, SuccessKey) + 1)
      && (st.outcome.HttpError? <==> Count(t.requestTotal, ErrorKey) == Count(s.requestTotal, ErrorKey) + 1)
  {
  }

  /** Counters only go up: no label of any counter decreases in a call. */
  lemma HandleMonotone(s: Snapshot, req: Request, classify: string -> Classification)
    ensures var t := Handle(s, req, classify).after;
      && (forall k :: Count(t.requestTotal, k) >= Count(s.requestTotal, k))
      && (forall g :: Count(t.predictionPerGenre, g) >= Count(s.predictionPerGenre, g))
      && (forall c :: Count(t.errorTotal, c) >= Count(s.errorTotal, c))
      && (forall e :: Count(t.latencyCount, e) >= Count(s.latencyCount, e))
  {
  }

  /** The service starts with counters that add up. */
  lemma StartupConsistent()
    ensures Consistent(Startup())
  {
  }

  /** While the classifier runs, the call counts itself as in progress: the
      snapshot the verdict is recorded on has in-progress one above the
      caller's, the queue gauge at 0, the combined text's length already
      observed, and every counter and the model-version gauge as before. */
  lemma InProgressDuringClassification(s: Snapshot, req: Request)
    ensures var during := ObserveSize(Enter(s), CombineText(req));
      && during.inProgress == s.inProgress + 1
      && during.queueLength == 0
      && during.requestSizes == s.requestSizes + [|CombineText(req)|]
      && during.requestTotal == s.requestTotal
      && during.predictionPerGenre == s.predictionPerGenre
      && during.errorTotal == s.errorTotal
      && during.latencyCount == s.latencyCount
      && during.modelVersion == s.modelVersion
  {
  }

  /** Entering and observing the size leave exactly one call pending. */
  lemma ObserveSizePending(s: Snapshot, text: string)
    requires Consistent(s)
    ensures CountsAddUp(ObserveSize(Enter(s), text), 1)
    ensures ObserveSize(Enter(s), text).inProgress == s.inProgress + 1
    ensures ObserveSize(Enter(s), text).queueLength == 0
  {
  }

  /** Recording the classifier's verdict settles the pending call: the
      counters add up again with nothing pending. */
  lemma RecordSettles(s: Snapshot, verdict: Classification)
    requires CountsAddUp(s, 1)
    ensures Consistent(Record(s, verdict).after)
  {
    match verdict
    case Predicted(genre) =>
      TotalInc(s.predictionPerGenre, genre);
    case Failed(category, _) =>
      TotalInc(s.errorTotal, category);
  }

  /** A call keeps the counters adding up. */
  lemma HandlePreservesConsistent(s: Snapshot, req: Request, classify: string -> Classification)
    requires Consistent(s)
    ensures Consistent(Handle(s, req, classify).after)
  {
    var text := CombineText(req);
    ObserveSizePending(s, text);
    RecordSettles(ObserveSize(Enter(s), text), classify(text));
  }

  /** A sequence of calls served one after another. */
  function HandleAll(s: Snapshot, reqs: seq<Request>, classify: string -> Classification): Snapshot
    decreases |reqs|
  {
    if reqs == [] then s
    else HandleAll(Handle(s, reqs[0], classify).after, reqs[1..], classify)
  }

  /** Over N calls: success plus error rises by exactly N, N sizes are
      observed, in-progress and the model-version gauge end where they
      started, and the counters keep adding up. */
  lemma {:induction false} HandleAllCounts(s: Snapshot, reqs: seq<Request>, classify: string -> Classification)
    ensures var t := HandleAll(s, reqs, classify);
      && Count(t.requestTotal, SuccessKey) + Count(t.requestTotal, ErrorKey)
           == Count(s.requestTotal, SuccessKey) + Count(s.requestTotal, ErrorKey) + |reqs|
      && |t.requestSizes| == |s.requestSizes| + |reqs|
      && t.inProgress == s.inProgress
      && t.modelVersion == s.modelVersion
      && (reqs != [] ==> t.queueLength == 0)
      && (Consistent(s) ==> Consistent(t))
    decreases |reqs|
  {
    if reqs != [] {
      var next := Handle(s, reqs[0], classify).after;
      HandleCountsOnce(s, reqs[0], classify);
      HandleGauges(s, reqs[0], classify);
      if Consistent(s) {
        HandlePreservesConsistent(s, reqs[0], classify);
      }
      HandleAllCounts(next, reqs[1..], classify);
      if reqs[1..] == [] {
        assert HandleAll(next, reqs[1..], classify) == next;
      }
    }
  }

  /** N calls on which the classifier succeeds raise the success counter by
      exactly N and leave the error counter alone. */
  lemma {:induction false} HandleAllSuccesses(s: Snapshot, reqs: seq<Request>, classify: string -> Classification)
    requires forall i :: 0 <= i < |reqs| ==> classify(CombineText(reqs[i])).Predicted?
    ensures var t := HandleAll(s, reqs, classify);
      && Count(t.requestTotal, SuccessKey) == Count(s.requestTotal, SuccessKey) + |reqs|
      && Count(t.requestTotal, ErrorKey) == Count(s.requestTotal, ErrorKey)
    decreases |reqs|
  {
    if reqs != [] {
      var next := Handle(s, reqs[0], classify).after;
      HandleSuccess(s, reqs[0], classify, classify(CombineText(reqs[0])).genre);
      assert forall i :: 0 <= i < |reqs[1..]| ==> reqs[1..][i] == reqs[i + 1];
      HandleAllSuccesses(next, reqs[1..], classify);
    }
  }
}
