/** The inference service's process-wide metrics registry and the
    `/predict` handler that updates it in place. */
module Inference {
  import opened TextCombiner
  import opened Counters
  import opened Instrumentation

  class Registry {
    var requestTotal: map<(string, string), nat>
    var predictionPerGenre: map<string, nat>
    var errorTotal: map<string, nat>
    var latencyCount: map<string, nat>
    var requestSizes: seq<nat>
    var inProgress: int
    var queueLength: int
    var modelVersion: map<string, int>

    /** The registry's current values. */
    function Current(): Snapshot
      reads this
    {
      Snapshot(requestTotal, predictionPerGenre, errorTotal, latencyCount,
               requestSizes, inProgress, queueLength, modelVersion)
    }

    ghost predicate Valid()
      reads this
    {
      Consistent(Current())
    }

    /** Instruments declared empty, then the model-version gauge set to 1 at
        label "1.0" once the model is loaded. */
    constructor ()
      ensures Valid()
      ensures Current() == Startup()
      ensures modelVersion == map[ModelVersion := 1] && inProgress == 0
    {
      requestTotal, predictionPerGenre, errorTotal, latencyCount := map[], map[], map[], map[];
      requestSizes := [];
      inProgress, queueLength := 0, 0;
      modelVersion := map[];
      new;
      modelVersion := modelVersion[ModelVersion := 1];
      StartupConsistent();
    }

    /** The `/predict` handler: `classify` stands for the loaded model. */
    method Predict(req: Request, classify: string -> Classification) returns (outcome: Outcome)
      requires Valid()
      modifies this
      ensures Valid()
      ensures Current() == Handle(old(Current()), req, classify).after
      ensures outcome == Handle(old(Current()), req, classify).outcome
      ensures inProgress == old(inProgress) && queueLength == 0
      ensures requestSizes == old(requestSizes) + [|CombineText(req)|]
      ensures modelVersion == old(modelVersion)
    {
      ghost var before := Current();
      inProgress := inProgress + 1;
      queueLength := 0;
      assert Current() == Enter(before);

      var text := CombineText(req);
      requestSizes := requestSizes + [|text|];
      ghost var sized := Current();
      assert sized == ObserveSize(Enter(before), text);

      ObserveSizePending(before, text);

      var verdict := classify(text);
      outcome := RecordVerdict(verdict);

      inProgress := inProgress - 1;
    }

    /** The counters the handler moves once the classifier has answered:
        the handler's inner step, entered with this call's size observed
        and its status not yet counted, and leaving the counters adding up. */
    method RecordVerdict(verdict: Classification) returns (outcome: Outcome)
      requires CountsAddUp(Current(), 1)
      modifies this
      ensures Valid()
      ensures Step(Current(), outcome) == Record(old(Current()), verdict)
    {
      match verdict {
        case Predicted(genre) =>
          latencyCount := Inc(latencyCount, PredictEndpoint);
          requestTotal := Inc(requestTotal, SuccessKey);
          predictionPerGenre := Inc(predictionPerGenre, genre);
          outcome := Ok(Response(genre, ModelVersion));
        case Failed(category, message) =>
          requestTotal := Inc(requestTotal, ErrorKey);
          errorTotal := Inc(errorTotal, category);
          outcome := HttpError(InternalServerError, message);
      }
      RecordSettles(old(Current()), verdict);
    }
  }
}
