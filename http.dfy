/** The JSON envelope that both HTTP handlers answer with. */
module Http {
  import opened JsValues
  import opened Replicate

  /** The multipart field `image`, as the upload middleware leaves it on the request. */
  datatype UploadedFile = NoFile | File(filename: string)

  /** The response bodies: `{imageUrl}`, `{error}` and `{error, details}`.
      An `imageUrl` of `Undefined` is dropped when serialised, giving `{}`. */
  datatype Body =
    | ImageUrl(imageUrl: JsValue)
    | ErrorOnly(error: string)
    | ErrorDetails(error: string, details: Error)

  datatype Response = Response(status: int, body: Body)

  const NoImageUploaded := "No image uploaded"
  const FailedToGenerate := "Failed to generate image"

  /** The answer to a request without a file. */
  const MissingFile := Response(400, ErrorOnly(NoImageUploaded))

  /** The catch block's answer: every thrown error becomes one 500 envelope
      whose `details` is that error. */
  function GenerationFailure(e: Error): (r: Response)
    ensures r.status == 500 && r.body.ErrorDetails?
    ensures r.body.error == FailedToGenerate && r.body.details == e
  {
    Response(500, ErrorDetails(FailedToGenerate, e))
  }
}
