/** The Express handler for `POST /generate-image`. */
module Server {
  import opened JsValues
  import opened Replicate
  import opened Http

  /** The route body: reject a request without a file, otherwise run the
      generation; on success delete the temporary file and answer with the
      raw output (an array is not unwrapped), on any thrown error answer 500
      and leave the file in place. `deleted` says whether the temporary file
      was unlinked. */
  method GenerateImage(file: UploadedFile, upload: UploadReply, creation: CreateReply, replies: seq<PollResponse>)
    returns (response: Response, calls: seq<Call>, deleted: bool)
    requires MaxAttempts <= |replies|
    ensures file.NoFile? ==> response == MissingFile && calls == [] && !deleted
    ensures file.File? ==>
      var run := Generation(upload, creation, replies);
      && calls == run.calls
      && deleted == run.result.Image?
      && response == if run.result.Image? then Response(200, ImageUrl(run.result.output))
                     else GenerationFailure(run.result.error)
    ensures deleted <==> response.status == 200
    ensures response.status == 200 ==> response.body.ImageUrl? && Truthy(response.body.imageUrl)
  {
    if file.NoFile? {
      return MissingFile, [], false;
    }
    var run := Generate(upload, creation, replies);
    calls := run.calls;
    match run.result
    case Failed(e) =>
      response, deleted := GenerationFailure(e), false;
    case Image(result) =>
      deleted := true;
      response := Response(200, ImageUrl(result));
  }
}
