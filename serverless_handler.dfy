/** The serverless function behind `/api/generate-image`. */
module ServerlessHandler {
  import opened JsValues
  import opened Replicate
  import opened Http

  /** What the multipart middleware hands to its callback: an error, or the
      parsed request with or without a file. */
  datatype Multipart = MultipartError(message: string) | Parsed(file: UploadedFile)

  const FileUploadFailed := "File upload failed"

  /** The exported handler: a middleware error answers 500 before anything
      else, a missing file 400; otherwise the generation runs, and on success
      the temporary file is deleted and the output is answered with an array
      replaced by its first element. Any thrown error answers 500 and leaves
      the file in place. */
  method Handle(form: Multipart, upload: UploadReply, creation: CreateReply, replies: seq<PollResponse>)
    returns (response: Response, calls: seq<Call>, deleted: bool)
    requires MaxAttempts <= |replies|
    ensures form.MultipartError? ==>
      && response == Response(500, ErrorDetails(FileUploadFailed, Message(form.message)))
      && calls == [] && !deleted
    ensures form == Parsed(NoFile) ==> response == MissingFile && calls == [] && !deleted
    ensures form.Parsed? && form.file.File? ==>
      var run := Generation(upload, creation, replies);
      && calls == run.calls
      && deleted == run.result.Image?
      && response == if run.result.Image? then Response(200, ImageUrl(FirstIfArray(run.result.output)))
                     else GenerationFailure(run.result.error)
    ensures deleted <==> response.status == 200
  {
    if form.MultipartError? {
      return Response(500, ErrorDetails(FileUploadFailed, Message(form.message))), [], false;
    }
    if form.file.NoFile? {
      return MissingFile, [], false;
    }
    var run := Generate(upload, creation, replies);
    calls := run.calls;
    match run.result
    case Failed(e) =>
      response, deleted := GenerationFailure(e), false;
    case Image(result) =>
      var generatedImageUrl := FirstIfArray(result);
      deleted := true;
      response := Response(200, ImageUrl(generatedImageUrl));
  }

  /** A first `succeeded` reply whose output is the empty array ends the
      poll (an array is truthy), and its normalisation is `undefined`: the
      handler then answers 200 with no URL instead of an error. */
  lemma EmptyArrayOutputGivesUndefinedUrl(url: string, id: string, err: JsValue, rest: seq<PollResponse>)
    requires |rest| >= MaxAttempts - 1
    ensures var run := Generation(Uploaded(url), Created(id), [Reply(StatusReply("succeeded", Arr([]), err))] + rest);
            && run.result == Image(Arr([]))
            && run.calls == [UploadFile, CreatePrediction(KontextPayload(GtaPrompt, url)), GetPrediction(id)]
            && FirstIfArray(run.result.output) == Undefined
  {
    var replies := [Reply(StatusReply("succeeded", Arr([]), err))] + rest;
    OutcomeAtFirstEnd(replies, 0);
  }
}
