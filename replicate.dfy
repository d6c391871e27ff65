/** The orchestration that every entry point repeats: upload the image,
    create a FLUX.1 Kontext prediction that refers to it, then poll the
    prediction's status once a second until it ends or three minutes pass.
    The remote service is an oracle: its replies are parameters. */
module Replicate {
  import opened JsValues

  /** The polling budget: at most one status request per second for three minutes. */
  const MaxAttempts: nat := 180
  /** The deadline, in milliseconds, that the HTTP handlers put on prediction creation. */
  const CreateTimeoutMs: nat := 180000

  const KontextVersion := "black-forest-labs/flux-kontext-pro"
  const GtaPrompt := "Do a GTAV Loading screen art style version of this image. Keep all original Features.\n"

  /** The `input` object of a prediction request. */
  datatype GenerationInput = GenerationInput(
    prompt: string,
    inputImage: string,
    aspectRatio: string,
    outputFormat: string,
    safetyTolerance: int)

  /** The body POSTed to the prediction-creation endpoint. */
  datatype Payload = Payload(version: string, input: GenerationInput)

  /** The settings copied from the provider's web interface, shared by every request. */
  predicate WebInterfaceSettings(p: Payload) {
    && p.version == KontextVersion
    && p.input.aspectRatio == "match_input_image"
    && p.input.outputFormat == "jpg"
    && p.input.safetyTolerance == 2
  }

  /** The request literal: only the prompt and the uploaded image's URL vary. */
  function KontextPayload(prompt: string, imageUrl: string): (p: Payload)
    ensures p.input.prompt == prompt && p.input.inputImage == imageUrl
    ensures WebInterfaceSettings(p)
  {
    Payload(KontextVersion, GenerationInput(prompt, imageUrl, "match_input_image", "jpg", 2))
  }

  /** Two requests are the same exactly when they carry the same prompt and
      the same image URL. */
  lemma KontextPayloadInjective(p1: string, u1: string, p2: string, u2: string)
    ensures KontextPayload(p1, u1) == KontextPayload(p2, u2) <==> p1 == p2 && u1 == u2
  {
  }

  /** The calls made to the remote service, in the order they are issued. */
  datatype Call = UploadFile | CreatePrediction(payload: Payload) | GetPrediction(id: string)

  /** The answer to the file upload: the URL at `urls.get`, or the error thrown. */
  datatype UploadReply = Uploaded(url: string) | UploadRejected(message: string)

  /** The answer to prediction creation: its `id`, the error thrown, or no
      answer. Where the request carries the 180000 ms deadline (the HTTP
      handlers), `NoAnswer` means none came before the deadline; where it
      carries none (the developer script), it means none ever comes. */
  datatype CreateReply = Created(id: string) | CreateRejected(message: string) | NoAnswer

  /** The body of one status reply. A missing field is `Undefined`. */
  datatype StatusReply = StatusReply(status: string, output: JsValue, error: JsValue)

  /** One status request's fate: a reply, or the error that the request threw. */
  datatype PollResponse = Reply(reply: StatusReply) | RequestError(message: string)

  /** What a handler throws. `Message` carries an error whose message is
      given verbatim; the other three are the handlers' own errors. */
  datatype Error =
    | Message(text: string)
    | RequestTimedOut(ms: nat)      // "Request timed out after <ms>ms"
    | PredictionFailed(payload: JsValue)  // "Prediction failed: " + the JSON of `payload`
    | PredictionTimedOut            // "Prediction timed out after 3 minutes"

  /** The poll loop's outcome and how many status requests it made. */
  datatype PollOutcome = Got(result: JsValue, requests: nat) | Threw(error: Error, requests: nat)

  /** A response after which the loop makes no further request: a thrown
      request, a `failed` status, or a `succeeded` status with a truthy
      output. Every other status, and `succeeded` with a falsy output, lets
      the loop go on. */
  predicate Ends(r: PollResponse)
    ensures r.RequestError? ==> Ends(r)
    ensures r.Reply? && r.reply.status != "succeeded" && r.reply.status != "failed" ==> !Ends(r)
    ensures r.Reply? && r.reply.status == "succeeded" && !Truthy(r.reply.output) ==> !Ends(r)
  {
    match r
    case RequestError(_) => true
    case Reply(s) => s.status == "failed" || (s.status == "succeeded" && Truthy(s.output))
  }

  /** The index of the first response, at or after `from`, that ends the
      loop, or `MaxAttempts` when none of the remaining budget does. */
  function FirstEnd(replies: seq<PollResponse>, from: nat): (k: nat)
    requires from <= MaxAttempts <= |replies|
    ensures from <= k <= MaxAttempts
    ensures forall i :: from <= i < k ==> !Ends(replies[i])
    ensures k < MaxAttempts ==> Ends(replies[k])
    decreases MaxAttempts - from
  {
    if from == MaxAttempts then MaxAttempts
    else if Ends(replies[from]) then from
    else FirstEnd(replies, from + 1)
  }

  /** What polling against `replies` yields: decided by the first response
      that ends the loop, or the timeout when none of the first
      `MaxAttempts` does. */
  function PollingOutcome(replies: seq<PollResponse>): (o: PollOutcome)
    requires MaxAttempts <= |replies|
    ensures 1 <= o.requests <= MaxAttempts
    ensures o.Got? ==> Truthy(o.result)
    ensures o.Threw? && o.error == PredictionTimedOut ==> o.requests == MaxAttempts
  {
    var k := FirstEnd(replies, 0);
    if k == MaxAttempts then Threw(PredictionTimedOut, MaxAttempts)
    else match replies[k]
      case RequestError(m) => Threw(Message(m), k + 1)
      case Reply(s) =>
        if s.status == "succeeded" then Got(s.output, k + 1)
        else Threw(PredictionFailed(s.error), k + 1)
  }

  /** `n` status requests for the prediction `id`. */
  function StatusRequests(id: string, n: nat): (calls: seq<Call>)
    ensures |calls| == n && forall i :: 0 <= i < n ==> calls[i] == GetPrediction(id)
  {
    seq(n, _ => GetPrediction(id))
  }

  /** The poll loop: `result` starts undefined and the loop runs while it is
      falsy and fewer than `MaxAttempts` attempts were made; each pass
      counts an attempt, then requests the status once and reads
      `replies[attempts - 1]`. */
  method PollPrediction(id: string, replies: seq<PollResponse>) returns (outcome: PollOutcome, calls: seq<Call>)
    requires MaxAttempts <= |replies|
    ensures outcome == PollingOutcome(replies)
    ensures 1 <= outcome.requests <= MaxAttempts
    ensures calls == StatusRequests(id, outcome.requests)
  {
    var result := Undefined;
    var attempts: nat := 0;
    calls := [];
    while !Truthy(result) && attempts < MaxAttempts
      invariant attempts <= MaxAttempts
      invariant calls == StatusRequests(id, attempts)
      invariant forall i :: 0 <= i < attempts - 1 ==> !Ends(replies[i])
      invariant !Truthy(result) ==> forall i :: 0 <= i < attempts ==> !Ends(replies[i])
      invariant Truthy(result) ==>
        0 < attempts && replies[attempts - 1].Reply? && replies[attempts - 1].reply.status == "succeeded"
        && replies[attempts - 1].reply.output == result
    {
      attempts := attempts + 1;
      calls := calls + [GetPrediction(id)];
      match replies[attempts - 1]
      case RequestError(m) =>
        outcome := Threw(Message(m), attempts);
        assert FirstEnd(replies, 0) == attempts - 1;
        return;
      case Reply(s) =>
        if s.status == "succeeded" {
          result := s.output;
        } else if s.status == "failed" {
          outcome := Threw(PredictionFailed(s.error), attempts);
          assert FirstEnd(replies, 0) == attempts - 1;
          return;
        }
    }
    if !Truthy(result) {
      outcome := Threw(PredictionTimedOut, attempts);
      assert FirstEnd(replies, 0) == MaxAttempts;
    } else {
      outcome := Got(result, attempts);
      assert FirstEnd(replies, 0) == attempts - 1;
    }
  }

  /** When the k-th response (counting from 0) is the first one that ends the
      loop, exactly k + 1 status requests are made and that response alone
      decides the outcome; when none of the budget ends it, the outcome is
      the timeout after exactly `MaxAttempts` requests. */
  lemma OutcomeAtFirstEnd(replies: seq<PollResponse>, k: nat)
    requires MaxAttempts <= |replies| && k <= MaxAttempts
    requires forall i :: 0 <= i < k ==> !Ends(replies[i])
    requires k < MaxAttempts ==> Ends(replies[k])
    ensures k == MaxAttempts ==> PollingOutcome(replies) == Threw(PredictionTimedOut, MaxAttempts)
    ensures k < MaxAttempts && replies[k].RequestError? ==>
      PollingOutcome(replies) == Threw(Message(replies[k].message), k + 1)
    ensures k < MaxAttempts && replies[k].Reply? && replies[k].reply.status == "failed" ==>
      PollingOutcome(replies) == Threw(PredictionFailed(replies[k].reply.error), k + 1)
    ensures k < MaxAttempts && replies[k].Reply? && replies[k].reply.status == "succeeded" ==>
      PollingOutcome(replies) == Got(replies[k].reply.output, k + 1)
  {
    assert FirstEnd(replies, 0) == k;
  }

  /** The poll ends with the timeout error exactly when none of the first
      `MaxAttempts` responses ends the loop. */
  lemma TimeoutIffNoEnd(replies: seq<PollResponse>)
    requires MaxAttempts <= |replies|
    ensures PollingOutcome(replies) == Threw(PredictionTimedOut, MaxAttempts)
        <==> forall i :: 0 <= i < MaxAttempts ==> !Ends(replies[i])
  {
    var k := FirstEnd(replies, 0);
    if k < MaxAttempts {
      assert Ends(replies[k]);
      match replies[k]
      case RequestError(_) =>
      case Reply(s) => assert s.status == "succeeded" || s.status == "failed";
    }
  }

  /** No response after the one that ends the loop is ever read: two reply
      sequences that agree on the first `requests` responses poll alike. */
  lemma LaterRepliesUnread(a: seq<PollResponse>, b: seq<PollResponse>)
    requires MaxAttempts <= |a| && MaxAttempts <= |b|
    requires a[..PollingOutcome(a).requests] == b[..PollingOutcome(a).requests]
    ensures PollingOutcome(b) == PollingOutcome(a)
  {
    var n := PollingOutcome(a).requests;
    var k := FirstEnd(a, 0);
    forall i | 0 <= i < n
      ensures a[i] == b[i]
    {
      assert a[..n][i] == a[i] && b[..n][i] == b[i];
    }
    OutcomeAtFirstEnd(b, k);
  }

  /** Walking two reply sequences that end the loop at the same places, and
      agree wherever they do, reaches the same first end. */
  lemma {:induction false} FirstEndAgrees(a: seq<PollResponse>, b: seq<PollResponse>, from: nat)
    requires from <= MaxAttempts <= |a| && MaxAttempts <= |b|
    requires forall i :: from <= i < MaxAttempts ==> Ends(a[i]) == Ends(b[i])
    ensures FirstEnd(a, from) == FirstEnd(b, from)
    decreases MaxAttempts - from
  {
    if from < MaxAttempts && !Ends(a[from]) {
      FirstEndAgrees(a, b, from + 1);
    }
  }

  /** A response that does not end the loop changes nothing: which pending,
      processing, unknown or falsy-`succeeded` reply arrives makes no
      difference, provided the loop-ending replies are the same. */
  lemma NonEndingRepliesIrrelevant(a: seq<PollResponse>, b: seq<PollResponse>)
    requires MaxAttempts <= |a| && MaxAttempts <= |b|
    requires forall i :: 0 <= i < MaxAttempts ==> Ends(a[i]) == Ends(b[i])
    requires forall i :: 0 <= i < MaxAttempts && Ends(a[i]) ==> a[i] == b[i]
    ensures PollingOutcome(a) == PollingOutcome(b)
  {
    FirstEndAgrees(a, b, 0);
  }

  /** `n` replies that keep the loop going. */
  function Pending(n: nat): (rs: seq<PollResponse>)
    ensures |rs| == n && forall i :: 0 <= i < n ==> !Ends(rs[i])
  {
    seq(n, _ => Reply(StatusReply("processing", Undefined, Undefined)))
  }

  /** pending, pending, succeeded: exactly three requests, and the third
      reply's output is the result. */
  lemma PendingPendingSucceeded(url: string, rest: seq<PollResponse>)
    requires url != "" && |rest| >= MaxAttempts - 3
    ensures var replies := [Reply(StatusReply("starting", Undefined, Undefined)),
                            Reply(StatusReply("processing", Undefined, Undefined)),
                            Reply(StatusReply("succeeded", Str(url), Null))] + rest;
            PollingOutcome(replies) == Got(Str(url), 3)
  {
    var replies := [Reply(StatusReply("starting", Undefined, Undefined)),
                    Reply(StatusReply("processing", Undefined, Undefined)),
                    Reply(StatusReply("succeeded", Str(url), Null))] + rest;
    OutcomeAtFirstEnd(replies, 2);
  }

  /** A `succeeded` reply with a null or empty-string output keeps the loop
      polling, as does a `canceled` one; an empty array, being truthy, ends
      it. */
  lemma FalsyOutputKeepsPolling(rest: seq<PollResponse>)
    requires |rest| >= MaxAttempts - 4
    ensures var replies := [Reply(StatusReply("succeeded", Null, Undefined)),
                            Reply(StatusReply("succeeded", Str(""), Undefined)),
                            Reply(StatusReply("canceled", Undefined, Undefined)),
                            Reply(StatusReply("succeeded", Arr([]), Undefined))] + rest;
            PollingOutcome(replies) == Got(Arr([]), 4)
  {
    var replies := [Reply(StatusReply("succeeded", Null, Undefined)),
                    Reply(StatusReply("succeeded", Str(""), Undefined)),
                    Reply(StatusReply("canceled", Undefined, Undefined)),
                    Reply(StatusReply("succeeded", Arr([]), Undefined))] + rest;
    OutcomeAtFirstEnd(replies, 3);
  }

  /** A `failed` status on the second attempt stops the loop there and
      carries that reply's `error` payload unmodified, whatever would have
      followed. */
  lemma FailedOnSecondAttempt(err: JsValue, rest: seq<PollResponse>)
    requires |rest| >= MaxAttempts - 2
    ensures var replies := [Reply(StatusReply("processing", Undefined, Undefined)),
                            Reply(StatusReply("failed", Undefined, err))] + rest;
            PollingOutcome(replies) == Threw(PredictionFailed(err), 2)
  {
    var replies := [Reply(StatusReply("processing", Undefined, Undefined)),
                    Reply(StatusReply("failed", Undefined, err))] + rest;
    OutcomeAtFirstEnd(replies, 1);
  }

  /** A prediction that never ends its polling times out after exactly
      `MaxAttempts` requests. */
  lemma NeverEndingTimesOut()
    ensures PollingOutcome(Pending(MaxAttempts)) == Threw(PredictionTimedOut, MaxAttempts)
  {
    TimeoutIffNoEnd(Pending(MaxAttempts));
  }

  /** The outcome of the handlers' shared steps, with the remote calls made. */
  datatype Run = Run(result: Generated, calls: seq<Call>)
  datatype Generated = Image(output: JsValue) | Failed(error: Error)

  /** What the steps between the file check and the cleanup yield: upload,
      create the prediction under the 180000 ms deadline, poll, and fail on a
      falsy result. Every error thrown on the way is the run's error. */
  function Generation(upload: UploadReply, creation: CreateReply, replies: seq<PollResponse>): (run: Run)
    requires MaxAttempts <= |replies|
    ensures |run.calls| >= 1 && run.calls[0] == UploadFile
    ensures |run.calls| <= 2 + MaxAttempts
    ensures run.result.Image? ==> Truthy(run.result.output)
  {
    match upload
    case UploadRejected(m) => Run(Failed(Message(m)), [UploadFile])
    case Uploaded(url) =>
      var submitted := [UploadFile, CreatePrediction(KontextPayload(GtaPrompt, url))];
      match creation
      case CreateRejected(m) => Run(Failed(Message(m)), submitted)
      case NoAnswer => Run(Failed(RequestTimedOut(CreateTimeoutMs)), submitted)
      case Created(id) =>
        var o := PollingOutcome(replies);
        Run(if o.Got? then Image(o.result) else Failed(o.error), submitted + StatusRequests(id, o.requests))
  }

  /** Status requests are made only for a created prediction, after exactly
      one upload and one creation request whose `input_image` is the
      uploaded URL, and never more than `MaxAttempts` of them. */
  lemma GenerationCallOrder(upload: UploadReply, creation: CreateReply, replies: seq<PollResponse>)
    requires MaxAttempts <= |replies|
    ensures var run := Generation(upload, creation, replies);
            && (upload.UploadRejected? ==> run.calls == [UploadFile])
            && (upload.Uploaded? ==>
                  && |run.calls| >= 2
                  && run.calls[1].CreatePrediction?
                  && run.calls[1].payload.input.inputImage == upload.url
                  && WebInterfaceSettings(run.calls[1].payload))
            && (forall i :: 0 <= i < |run.calls| && run.calls[i].GetPrediction? ==>
                  2 <= i && creation.Created? && run.calls[i].id == creation.id)
  {
    var run := Generation(upload, creation, replies);
    if upload.Uploaded? && creation.Created? {
      var o := PollingOutcome(replies);
      var submitted := [UploadFile, CreatePrediction(KontextPayload(GtaPrompt, upload.url))];
      assert run.calls == submitted + StatusRequests(creation.id, o.requests);
      forall i | 0 <= i < |run.calls| && run.calls[i].GetPrediction?
        ensures 2 <= i && run.calls[i].id == creation.id
      {
        if i >= 2 {
          assert run.calls[i] == StatusRequests(creation.id, o.requests)[i - 2];
        }
      }
    }
  }

  /** Once the prediction is created, the shared steps end exactly as the
      poll does: its result is the image, its error is the run's error, and
      its status requests follow the upload and the creation request. */
  lemma GenerationWhenCreated(url: string, id: string, replies: seq<PollResponse>)
    requires MaxAttempts <= |replies|
    ensures var run := Generation(Uploaded(url), Created(id), replies);
            var o := PollingOutcome(replies);
            && run.calls == [UploadFile, CreatePrediction(KontextPayload(GtaPrompt, url))] + StatusRequests(id, o.requests)
            && (run.result.Image? <==> o.Got?)
            && (o.Got? ==> run.result.output == o.result)
            && (o.Threw? ==> run.result.error == o.error)
  {
  }

  /** The handlers' shared steps, in order, with the poll loop as written. */
  method Generate(upload: UploadReply, creation: CreateReply, replies: seq<PollResponse>) returns (run: Run)
    requires MaxAttempts <= |replies|
    ensures run == Generation(upload, creation, replies)
  {
    var calls := [UploadFile];
    match upload
    case UploadRejected(m) =>
      return Run(Failed(Message(m)), calls);
    case Uploaded(url) =>
      var payload := KontextPayload(GtaPrompt, url);
      calls := calls + [CreatePrediction(payload)];
      match creation
      case CreateRejected(m) =>
        return Run(Failed(Message(m)), calls);
      case NoAnswer =>
        return Run(Failed(RequestTimedOut(CreateTimeoutMs)), calls);
      case Created(id) =>
        var outcome, polls := PollPrediction(id, replies);
        calls := calls + polls;
        match outcome
        case Threw(e, _) =>
          return Run(Failed(e), calls);
        case Got(result, _) =>
          return Run(Image(result), calls);
  }
}
