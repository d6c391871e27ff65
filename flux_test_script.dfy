/** The developer script that exercises the same orchestration from the
    command line, without the HTTP layer. */
module FluxTestScript {
  import opened JsValues
  import opened Replicate

  /** How an async script function settles: it resolves, it rejects, or it
      waits forever on a request that is never answered. */
  datatype ScriptOutcome = Resolved(value: JsValue) | Rejected(error: Error) | NeverSettles

  /** The prompts tried one after another, in this order. */
  const Prompts: seq<string> := [
    GtaPrompt,
    "Transform this image into GTA V loading screen art style. Preserve all original features.",
    "Convert to GTA loading screen style while keeping all details."
  ]

  /** Upload, create, poll: the handlers' steps, except that prediction
      creation carries no deadline, so an unanswered creation request is
      awaited forever. The raw output is resolved; every error rejects. */
  method TestCorrectFluxKontext(upload: UploadReply, creation: CreateReply, replies: seq<PollResponse>)
    returns (outcome: ScriptOutcome, calls: seq<Call>)
    requires MaxAttempts <= |replies|
    ensures upload.Uploaded? && creation.NoAnswer? ==>
      outcome == NeverSettles && calls == [UploadFile, CreatePrediction(KontextPayload(GtaPrompt, upload.url))]
    ensures upload.UploadRejected? || !creation.NoAnswer? ==>
      var run := Generation(upload, creation, replies);
      && calls == run.calls
      && outcome == if run.result.Image? then Resolved(run.result.output) else Rejected(run.result.error)
    ensures outcome.Resolved? ==> Truthy(outcome.value)
  {
    if upload.Uploaded? && creation.NoAnswer? {
      return NeverSettles, [UploadFile, CreatePrediction(KontextPayload(GtaPrompt, upload.url))];
    }
    var run := Generate(upload, creation, replies);
    calls := run.calls;
    match run.result
    case Failed(e) => outcome := Rejected(e);
    case Image(result) => outcome := Resolved(result);
  }

  /** Upload once (a failed upload rejects the whole function), then submit
      one prediction per prompt, in list order. A rejected submission is
      caught and the next prompt is still tried; only a submission that is
      never answered stops the loop, by never settling. */
  method TestPromptVariations(upload: UploadReply, creations: seq<CreateReply>)
    returns (outcome: ScriptOutcome, calls: seq<Call>)
    requires |creations| == |Prompts|
    ensures upload.UploadRejected? ==> outcome == Rejected(Message(upload.message)) && calls == [UploadFile]
    ensures upload.Uploaded? ==>
      && 2 <= |calls| <= 1 + |Prompts| && calls[0] == UploadFile
      && (forall i :: 1 <= i < |calls| ==> calls[i] == CreatePrediction(KontextPayload(Prompts[i - 1], upload.url)))
      && (forall i :: 0 <= i < |calls| - 2 ==> !creations[i].NoAnswer?)
      && (outcome == NeverSettles <==> creations[|calls| - 2].NoAnswer?)
      && (outcome == NeverSettles || (outcome == Resolved(Undefined) && |calls| == 1 + |Prompts|))
  {
    calls := [UploadFile];
    if upload.UploadRejected? {
      return Rejected(Message(upload.message)), calls;
    }
    for i := 0 to |Prompts|
      invariant |calls| == 1 + i && calls[0] == UploadFile
      invariant forall j :: 1 <= j < |calls| ==> calls[j] == CreatePrediction(KontextPayload(Prompts[j - 1], upload.url))
      invariant forall j :: 0 <= j < i ==> !creations[j].NoAnswer?
    {
      calls := calls + [CreatePrediction(KontextPayload(Prompts[i], upload.url))];
      if creations[i].NoAnswer? {
        return NeverSettles, calls;
      }
      // A created prediction is only logged; a rejected one is caught and logged.
    }
    outcome := Resolved(Undefined);
  }
}
