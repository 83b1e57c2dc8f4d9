/**
 * The style-transfer client: the resize rule for the uploaded photo, the
 * choice of model configuration and request shape, the bounded polling of a
 * prediction, and the shaping of the final result. Every network answer is an
 * input.
 */
module StyleTransferApi {
  import opened Common
  import opened Text

  // ---------------------------------------------------------------------
  // resizeImage
  // ---------------------------------------------------------------------

  /** The width/height rule of `resizeImage`: a photo wider than `maxWidth`
      is scaled down to exactly that width with its aspect ratio kept;
      any other photo keeps its size. */
  method ResizeDimensions(imageWidth: real, imageHeight: real, maxWidth: real) returns (width: real, height: real)
    requires maxWidth > 0.0
    ensures width <= maxWidth
    ensures imageWidth <= maxWidth ==> width == imageWidth && height == imageHeight
    ensures imageWidth > maxWidth ==> width == maxWidth
    ensures height * imageWidth == imageHeight * width
  {
    width := imageWidth;
    height := imageHeight;
    if width > maxWidth {
      height := (height * maxWidth) / width;
      width := maxWidth;
    }
  }

  // ---------------------------------------------------------------------
  // Model configuration and request shape
  // ---------------------------------------------------------------------

  /** One entry of the model configuration (its contents live elsewhere). */
  datatype ModelConfig = ModelConfig(modelLabel: string, model: string, cost: string, time: string)

  const DefaultModelKey: string := "SDXL"

  /** `style.model || 'SDXL'`: an absent or empty model field means SDXL. */
  function ModelKey(style: Style): (key: string)
    ensures key != ""
    ensures style.model.Some? && style.model.value != "" ==> key == style.model.value
    ensures !(style.model.Some? && style.model.value != "") ==> key == DefaultModelKey
  {
    if style.model.Some? && style.model.value != "" then style.model.value else DefaultModelKey
  }

  /** `getModelForStyle`: the configuration under the style's model key, or
      `undefined` when the configuration has no such entry. */
  function GetModelForStyle(style: Style, configs: map<string, ModelConfig>): (r: Option<ModelConfig>)
    ensures r.Some? <==> ModelKey(style) in configs
    ensures r.Some? ==> r.value == configs[ModelKey(style)]
  {
    var key := ModelKey(style);
    if key in configs then Some(configs[key]) else None
  }

  /** A style without a model, or with an empty one, uses the SDXL entry. */
  lemma DefaultsToSdxl(style: Style, configs: map<string, ModelConfig>)
    requires style.model == None || style.model == Some("")
    ensures GetModelForStyle(style, configs) ==
      if "SDXL" in configs then Some(configs["SDXL"]) else None
  {
  }

  /** The two request bodies posted to `/api/flux-transfer`. */
  datatype TransferRequest =
    | TemplateRequest(image: string, prompt: string, controlType: string,
                      controlStrength: real, inferenceSteps: nat, guidanceScale: real)
    | SelectionRequest(image: string, selectedStyle: Style)

  /** A model name containing "flux" takes the template request with the
      style's own prompt; every other model lets the backend choose the artist. */
  function RequestFor(config: ModelConfig, image: string, style: Style): (r: TransferRequest)
    ensures r.TemplateRequest? <==> Contains(config.model, "flux")
    ensures r.image == image
    ensures r.TemplateRequest? ==> r.prompt == style.prompt
    ensures r.SelectionRequest? ==> r.selectedStyle == style
  {
    if Contains(config.model, "flux") then
      TemplateRequest(image, style.prompt, "depth", 0.5, 28, 3.5)
    else
      SelectionRequest(image, style)
  }

  /** How the submission request ends: `fetch` or `response.json()` rejects
      with a runtime message, or a response with its status and prediction id. */
  datatype SubmitReply =
    | SubmitRejected(message: string)
    | SubmitAnswer(ok: bool, status: nat, id: string)

  // ---------------------------------------------------------------------
  // pollPrediction
  // ---------------------------------------------------------------------

  /** `output` of a prediction: missing, a single URL, or an array of URLs
      (an empty string stands for a missing or null element). */
  datatype Output = NoOutput | SingleUrl(url: string) | UrlList(urls: seq<string>)

  /** The JSON body of a `/api/check-prediction` answer. */
  datatype Prediction = Prediction(
    status: string,
    output: Output,
    selectedArtist: Option<string>,
    selectionMethod: Option<string>,
    selectionDetails: Option<string>)

  /** What one status check gets back. */
  datatype CheckResponse =
    | CheckRejected(message: string)
    | CheckNotOk
    | CheckAnswer(prediction: Prediction)

  /** How the loop ends: it returns the succeeded prediction or throws. */
  datatype PollOutcome = Done(prediction: Prediction) | Raised(message: string)

  /** The outcome, the number of checks made and the progress percentages
      reported, in order. */
  datatype PollRun = PollRun(outcome: PollOutcome, checks: nat, reports: seq<nat>)

  const MaxAttempts: nat := 90
  const FailedToCheck: string := "Failed to check status"
  const ProcessingFailed: string := "Processing failed"
  const ProcessingTimeout: string := "Processing timeout"

  /** A response after which the loop goes on: an ok answer whose status is
      neither `succeeded` nor `failed` (in practice `pending`). */
  predicate Continues(response: CheckResponse)
  {
    response.CheckAnswer? &&
    response.prediction.status != "succeeded" &&
    response.prediction.status != "failed"
  }

  /** What a terminal response makes of the loop. */
  function Terminal(response: CheckResponse): PollOutcome
    requires !Continues(response)
  {
    match response
    case CheckRejected(message) => Raised(message)
    case CheckNotOk => Raised(FailedToCheck)
    case CheckAnswer(p) => if p.status == "succeeded" then Done(p) else Raised(ProcessingFailed)
  }

  /** `Math.min(95, 10 + attempts)` (already integral, so `Math.floor` keeps it). */
  function ProgressAt(attempts: nat): nat
  {
    if 10 + attempts < 95 then 10 + attempts else 95
  }

  /** The percentages reported after checks `lo` .. `hi - 1`. */
  function ProgressRange(lo: nat, hi: nat): (r: seq<nat>)
    requires lo <= hi
    ensures |r| == hi - lo
    ensures forall i :: 0 <= i < |r| ==> r[i] == ProgressAt(lo + i)
    decreases hi - lo
  {
    if lo == hi then [] else [ProgressAt(lo)] + ProgressRange(lo + 1, hi)
  }

  /** The polling loop from the state where `attempts` checks have been made.
      `script(n)` is the response the (n+1)-th status check receives. */
  function Poll(script: nat -> CheckResponse, attempts: nat): PollRun
    requires attempts < MaxAttempts
    decreases MaxAttempts - attempts
  {
    var response := script(attempts);
    var n := attempts + 1;
    if !Continues(response) then
      PollRun(Terminal(response), n, [])
    else
      var rest := if n < MaxAttempts then Poll(script, n) else PollRun(Raised(ProcessingTimeout), n, []);
      PollRun(rest.outcome, rest.checks, [ProgressAt(n)] + rest.reports)
  }

  /** A run with `reports` reported before it. */
  function Prefixed(reports: seq<nat>, run: PollRun): PollRun
  {
    PollRun(run.outcome, run.checks, reports + run.reports)
  }

  /** One step of the loop after a response that lets it go on. */
  lemma PollContinueStep(script: nat -> CheckResponse, attempts: nat, reports: seq<nat>)
    requires attempts + 1 < MaxAttempts && Continues(script(attempts))
    ensures Prefixed(reports, Poll(script, attempts)) ==
      Prefixed(reports + [ProgressAt(attempts + 1)], Poll(script, attempts + 1))
  {
  }

  /** The step of the loop that meets a terminal response. */
  lemma PollTerminalStep(script: nat -> CheckResponse, attempts: nat, reports: seq<nat>)
    requires attempts < MaxAttempts && !Continues(script(attempts))
    ensures Prefixed(reports, Poll(script, attempts)) == PollRun(Terminal(script(attempts)), attempts + 1, reports)
  {
  }

  /** The last step of the loop after the 90th response lets it go on. */
  lemma PollLastStep(script: nat -> CheckResponse, reports: seq<nat>)
    requires Continues(script(MaxAttempts - 1))
    ensures Prefixed(reports, Poll(script, MaxAttempts - 1)) ==
      PollRun(Raised(ProcessingTimeout), MaxAttempts, reports + [ProgressAt(MaxAttempts)])
  {
  }

  /** The body of one loop iteration after the status check: a not-ok
      answer, a `succeeded` or a `failed` status ends the loop (by returning
      or throwing); anything else lets it go on. */
  method HandleCheck(response: CheckResponse) returns (stop: Option<PollOutcome>)
    ensures stop.Some? <==> !Continues(response)
    ensures stop.Some? ==> stop.value == Terminal(response)
  {
    if response.CheckRejected? {
      return Some(Raised(response.message));
    }
    if response.CheckNotOk? {
      return Some(Raised(FailedToCheck));
    }
    var result := response.prediction;
    if result.status == "succeeded" {
      return Some(Done(result));
    }
    if result.status == "failed" {
      return Some(Raised(ProcessingFailed));
    }
    return None;
  }

  /** `pollPrediction`: the `while` loop with its mutable `attempts` counter.
      The prediction id only shapes the status URL and the model
      configuration is passed but not used, so neither is a parameter here;
      `reports` are the values passed to `onProgress`. */
  method PollPrediction(script: nat -> CheckResponse) returns (outcome: PollOutcome, checks: nat, reports: seq<nat>)
    ensures PollRun(outcome, checks, reports) == Poll(script, 0)
    ensures 1 <= checks <= MaxAttempts
  {
    var attempts: nat := 0;
    reports := [];
    while attempts < MaxAttempts
      invariant attempts <= MaxAttempts
      invariant attempts < MaxAttempts ==> Poll(script, 0) == Prefixed(reports, Poll(script, attempts))
      invariant attempts == MaxAttempts ==> Poll(script, 0) == PollRun(Raised(ProcessingTimeout), MaxAttempts, reports)
    {
      ghost var before := reports;
      attempts := attempts + 1;
      var response := script(attempts - 1);
      var stop := HandleCheck(response);
      if stop.Some? {
        PollTerminalStep(script, attempts - 1, reports);
        return stop.value, attempts, reports;
      }
      reports := reports + [ProgressAt(attempts)];
      if attempts < MaxAttempts {
        PollContinueStep(script, attempts - 1, before);
      } else {
        PollLastStep(script, before);
      }
    }
    return Raised(ProcessingTimeout), attempts, reports;
  }

  /** The loop makes between one and 90 checks; there is never a 91st. */
  lemma {:induction false} PollChecksBounded(script: nat -> CheckResponse, attempts: nat)
    requires attempts < MaxAttempts
    ensures attempts + 1 <= Poll(script, attempts).checks <= MaxAttempts
    decreases MaxAttempts - attempts
  {
    if Continues(script(attempts)) && attempts + 1 < MaxAttempts {
      PollChecksBounded(script, attempts + 1);
    }
  }

  /** When check `stop` is the first terminal one, the loop ends there with
      that response's outcome, after `stop + 1` checks, having reported the
      progress of every check before it. */
  lemma {:induction false} PollStopsAtFirstTerminal(script: nat -> CheckResponse, attempts: nat, stop: nat)
    requires attempts <= stop < MaxAttempts
    requires forall i :: attempts <= i < stop ==> Continues(script(i))
    requires !Continues(script(stop))
    ensures Poll(script, attempts) == PollRun(Terminal(script(stop)), stop + 1, ProgressRange(attempts + 1, stop + 1))
    decreases stop - attempts
  {
    if attempts < stop {
      PollStopsAtFirstTerminal(script, attempts + 1, stop);
      assert ProgressRange(attempts + 1, stop + 1) == [ProgressAt(attempts + 1)] + ProgressRange(attempts + 2, stop + 1);
    } else {
      assert ProgressRange(attempts + 1, stop + 1) == [];
    }
  }

  /** When every remaining check up to the 90th continues, the loop raises
      the timeout after exactly 90 checks. */
  lemma {:induction false} PollTimesOut(script: nat -> CheckResponse, attempts: nat)
    requires attempts < MaxAttempts
    requires forall i :: attempts <= i < MaxAttempts ==> Continues(script(i))
    ensures Poll(script, attempts) == PollRun(Raised(ProcessingTimeout), MaxAttempts, ProgressRange(attempts + 1, MaxAttempts + 1))
    decreases MaxAttempts - attempts
  {
    if attempts + 1 < MaxAttempts {
      PollTimesOut(script, attempts + 1);
      assert ProgressRange(attempts + 1, MaxAttempts + 1) == [ProgressAt(attempts + 1)] + ProgressRange(attempts + 2, MaxAttempts + 1);
    } else {
      assert ProgressRange(attempts + 1, MaxAttempts + 1) == [ProgressAt(attempts + 1)];
    }
  }

  /** `[pending]*k ++ [succeeded]` with k + 1 <= 90: the succeeded prediction
      is returned after exactly k + 1 checks. */
  lemma PendingThenSucceeded(script: nat -> CheckResponse, k: nat, p: Prediction)
    requires k < MaxAttempts
    requires forall i :: 0 <= i < k ==> Continues(script(i))
    requires script(k) == CheckAnswer(p) && p.status == "succeeded"
    ensures Poll(script, 0).outcome == Done(p)
    ensures Poll(script, 0).checks == k + 1
  {
    PollStopsAtFirstTerminal(script, 0, k);
  }

  /** A `failed` status or a not-ok answer ends the loop at once with the
      matching error; no later check is made. */
  lemma FailsFast(script: nat -> CheckResponse, k: nat)
    requires k < MaxAttempts
    requires forall i :: 0 <= i < k ==> Continues(script(i))
    requires script(k) == CheckNotOk || (script(k).CheckAnswer? && script(k).prediction.status == "failed")
    ensures Poll(script, 0).outcome == Raised(if script(k) == CheckNotOk then FailedToCheck else ProcessingFailed)
    ensures Poll(script, 0).checks == k + 1
  {
    PollStopsAtFirstTerminal(script, 0, k);
  }

  /** Ninety pending answers raise the timeout after 90 checks. */
  lemma AllPendingTimesOut(script: nat -> CheckResponse)
    requires forall i :: 0 <= i < MaxAttempts ==> Continues(script(i))
    ensures Poll(script, 0).outcome == Raised(ProcessingTimeout)
    ensures Poll(script, 0).checks == MaxAttempts
  {
    PollTimesOut(script, 0);
  }

  /** Every run is one of the two shapes above: responses before the last
      check all continue, and the run ends either at the first terminal
      response with its outcome or with the timeout after 90 checks. */
  lemma PollOutcomes(script: nat -> CheckResponse)
    ensures var run := Poll(script, 0);
      1 <= run.checks <= MaxAttempts &&
      (forall i :: 0 <= i < run.checks - 1 ==> Continues(script(i))) &&
      (if Continues(script(run.checks - 1))
       then run.checks == MaxAttempts && run.outcome == Raised(ProcessingTimeout)
       else run.outcome == Terminal(script(run.checks - 1)))
  {
    if forall i :: 0 <= i < MaxAttempts ==> Continues(script(i)) {
      PollTimesOut(script, 0);
    } else {
      var stop := FirstTerminal(script, 0);
      PollStopsAtFirstTerminal(script, 0, stop);
    }
  }

  /** The first check below 90 whose response is terminal, when there is one. */
  lemma {:induction false} FirstTerminal(script: nat -> CheckResponse, from: nat) returns (stop: nat)
    requires from < MaxAttempts
    requires forall i :: 0 <= i < from ==> Continues(script(i))
    requires exists i :: 0 <= i < MaxAttempts && !Continues(script(i))
    ensures from <= stop < MaxAttempts && !Continues(script(stop))
    ensures forall i :: 0 <= i < stop ==> Continues(script(i))
    decreases MaxAttempts - from
  {
    if !Continues(script(from)) {
      stop := from;
    } else {
      stop := FirstTerminal(script, from + 1);
    }
  }

  /** Progress is reported only after non-terminal answers (one report per
      such check), equals min(95, 10 + attempts), lies in [11, 95] and never
      decreases. */
  lemma ProgressReports(script: nat -> CheckResponse)
    ensures var run := Poll(script, 0);
      1 <= run.checks &&
      |run.reports| == (if Continues(script(run.checks - 1)) then run.checks else run.checks - 1) &&
      (forall i :: 0 <= i < |run.reports| ==> Continues(script(i)) && run.reports[i] == ProgressAt(i + 1)) &&
      (forall i :: 0 <= i < |run.reports| ==> 11 <= run.reports[i] <= 95) &&
      (forall i, j :: 0 <= i <= j < |run.reports| ==> run.reports[i] <= run.reports[j])
  {
    if forall i :: 0 <= i < MaxAttempts ==> Continues(script(i)) {
      PollTimesOut(script, 0);
    } else {
      var stop := FirstTerminal(script, 0);
      PollStopsAtFirstTerminal(script, 0, stop);
    }
  }

  /** The run depends only on the responses to the checks it made: two
      scripts that agree on those give the same run. */
  lemma {:induction false} PollReadsOnlyItsChecks(s1: nat -> CheckResponse, s2: nat -> CheckResponse, attempts: nat)
    requires attempts < MaxAttempts
    requires forall i :: attempts <= i < Poll(s1, attempts).checks ==> s1(i) == s2(i)
    ensures Poll(s2, attempts) == Poll(s1, attempts)
    decreases MaxAttempts - attempts
  {
    PollChecksBounded(s1, attempts);
    assert s1(attempts) == s2(attempts);
    if Continues(s1(attempts)) && attempts + 1 < MaxAttempts {
      PollReadsOnlyItsChecks(s1, s2, attempts + 1);
    }
  }

  // ---------------------------------------------------------------------
  // processStyleTransfer
  // ---------------------------------------------------------------------

  /** How fetching the final image ends: `fetch` rejects, or its body. */
  datatype ImageReply = ImageRejected(message: string) | ImageBody(blob: seq<bv8>)

  /** `{success: true, ...}` or `{success: false, error}`. */
  datatype TransferResult =
    | Transferred(resultUrl: string, blob: seq<bv8>, remoteUrl: string,
                  model: string, cost: string, time: string,
                  aiSelectedArtist: Option<string>, selectionMethod: Option<string>,
                  selectionDetails: Option<string>)
    | TransferFailed(error: string)

  /** The request sent (if any) and the result returned. */
  datatype TransferRun = TransferRun(request: Option<TransferRequest>, result: TransferResult)

  /** Stands for the runtime's TypeError message when the configuration has
      no entry for the model key (reading `.label`/`.model` of `undefined`). */
  const MissingConfigError: string := "TypeError: model configuration is undefined"
  const FluxApiErrorLead: string := "FLUX API error: "
  const NotSucceeded: string := "Processing did not succeed"
  const NoResultImage: string := "No result image"

  /** `Array.isArray(output) ? output[0] : output`, then the `!resultUrl`
      test: the URL to download, or `None` when it is missing or empty. */
  function ResultUrl(output: Output): (url: Option<string>)
    ensures url.Some? ==> url.value != ""
    ensures output.UrlList? && |output.urls| > 0 && output.urls[0] != "" ==> url == Some(output.urls[0])
    ensures output.SingleUrl? && output.url != "" ==> url == Some(output.url)
    ensures url.None? <==> output.NoOutput? || (output.SingleUrl? && output.url == "") ||
                           (output.UrlList? && (|output.urls| == 0 || output.urls[0] == ""))
  {
    match output
    case NoOutput => None
    case SingleUrl(u) => if u != "" then Some(u) else None
    case UrlList(us) => if |us| > 0 && us[0] != "" then Some(us[0]) else None
  }

  /** The whole of `processStyleTransfer` as a value. `photo` is the encoded
      resized photo, `localUrl` the object URL created for the blob. */
  function Transfer(photo: string, style: Style, configs: map<string, ModelConfig>, submit: SubmitReply,
                    script: nat -> CheckResponse, image: ImageReply, localUrl: string): TransferRun
  {
    match GetModelForStyle(style, configs)
    case None => TransferRun(None, TransferFailed(MissingConfigError))
    case Some(config) =>
      var request := Some(RequestFor(config, photo, style));
      match submit
      case SubmitRejected(message) => TransferRun(request, TransferFailed(message))
      case SubmitAnswer(ok, status, id) =>
        if !ok then TransferRun(request, TransferFailed(FluxApiErrorLead + NatToString(status)))
        else
          match Poll(script, 0).outcome
          case Raised(message) => TransferRun(request, TransferFailed(message))
          case Done(result) =>
            if result.status != "succeeded" then TransferRun(request, TransferFailed(NotSucceeded))
            else
              match ResultUrl(result.output)
              case None => TransferRun(request, TransferFailed(NoResultImage))
              case Some(url) =>
                match image
                case ImageRejected(message) => TransferRun(request, TransferFailed(message))
                case ImageBody(blob) =>
                  TransferRun(request, Transferred(localUrl, blob, url, config.model, config.cost, config.time,
                                                    result.selectedArtist, result.selectionMethod,
                                                    result.selectionDetails))
  }

  /** `processStyleTransfer`, step by step with its mutable `prediction`;
      every thrown error ends as `{success: false, error}`. */
  method ProcessStyleTransfer(photo: string, style: Style, configs: map<string, ModelConfig>, submit: SubmitReply,
                              script: nat -> CheckResponse, image: ImageReply, localUrl: string)
    returns (request: Option<TransferRequest>, result: TransferResult)
    ensures TransferRun(request, result) == Transfer(photo, style, configs, submit, script, image, localUrl)
  {
    request := None;
    var modelConfig := GetModelForStyle(style, configs);
    if modelConfig.None? {
      result := TransferFailed(MissingConfigError);
      return;
    }
    var config := modelConfig.value;
    request := Some(RequestFor(config, photo, style));
    var prediction: SubmitReply := submit;
    if prediction.SubmitRejected? {
      result := TransferFailed(prediction.message);
      return;
    }
    if !prediction.ok {
      result := TransferFailed(FluxApiErrorLead + NatToString(prediction.status));
      return;
    }
    var outcome, checks, reports := PollPrediction(script);
    if outcome.Raised? {
      result := TransferFailed(outcome.message);
      return;
    }
    var polled := outcome.prediction;
    if polled.status != "succeeded" {
      result := TransferFailed(NotSucceeded);
      return;
    }
    var resultUrl := ResultUrl(polled.output);
    if resultUrl.None? {
      result := TransferFailed(NoResultImage);
      return;
    }
    match image {
      case ImageRejected(message) =>
        result := TransferFailed(message);
      case ImageBody(blob) =>
        result := Transferred(localUrl, blob, resultUrl.value, config.model, config.cost, config.time,
                              polled.selectedArtist, polled.selectionMethod, polled.selectionDetails);
    }
  }

  /** The request shape follows the model name of the chosen configuration. */
  lemma TransferRequestShape(photo: string, style: Style, configs: map<string, ModelConfig>, submit: SubmitReply,
                             script: nat -> CheckResponse, image: ImageReply, localUrl: string)
    ensures var run := Transfer(photo, style, configs, submit, script, image, localUrl);
      (run.request.None? <==> ModelKey(style) !in configs) &&
      (run.request.Some? ==>
        (run.request.value.TemplateRequest? <==> Contains(configs[ModelKey(style)].model, "flux")) &&
        (run.request.value.TemplateRequest? ==> run.request.value.prompt == style.prompt) &&
        (run.request.value.SelectionRequest? ==> run.request.value.selectedStyle == style))
  {
  }

  /** Success happens exactly when every step succeeds, and then it carries
      the first output URL, the configuration's model and the backend's
      artist choice. */
  lemma TransferSuccess(photo: string, style: Style, configs: map<string, ModelConfig>, submit: SubmitReply,
                        script: nat -> CheckResponse, image: ImageReply, localUrl: string)
    ensures var run := Transfer(photo, style, configs, submit, script, image, localUrl);
      var poll := Poll(script, 0).outcome;
      (run.result.Transferred? <==>
        ModelKey(style) in configs && submit.SubmitAnswer? && submit.ok && poll.Done? &&
        ResultUrl(poll.prediction.output).Some? && image.ImageBody?) &&
      (run.result.Transferred? ==>
        run.result.remoteUrl == ResultUrl(poll.prediction.output).value &&
        run.result.resultUrl == localUrl &&
        run.result.model == configs[ModelKey(style)].model &&
        run.result.aiSelectedArtist == poll.prediction.selectedArtist)
  {
    PollDoneSucceeded(script);
  }

  /** A prediction returned by the loop has status `succeeded`, so the
      re-check after polling never fires. */
  lemma PollDoneSucceeded(script: nat -> CheckResponse)
    ensures Poll(script, 0).outcome.Done? ==> Poll(script, 0).outcome.prediction.status == "succeeded"
  {
    PollOutcomes(script);
  }

  /** Every error raised on the way becomes the failure result with its
      message: a loop error passes through unchanged, a missing URL becomes
      "No result image", and "Processing did not succeed" never appears. */
  lemma TransferErrors(photo: string, style: Style, configs: map<string, ModelConfig>, submit: SubmitReply,
                       script: nat -> CheckResponse, image: ImageReply, localUrl: string)
    ensures var run := Transfer(photo, style, configs, submit, script, image, localUrl);
      var poll := Poll(script, 0).outcome;
      (ModelKey(style) !in configs ==> run.result == TransferFailed(MissingConfigError)) &&
      (ModelKey(style) in configs && submit.SubmitRejected? ==>
        run.result == TransferFailed(submit.message)) &&
      (ModelKey(style) in configs && submit.SubmitAnswer? && submit.ok && poll.Done? &&
       ResultUrl(poll.prediction.output).Some? && image.ImageRejected? ==>
        run.result == TransferFailed(image.message)) &&
      (ModelKey(style) in configs && submit.SubmitAnswer? && submit.ok && poll.Raised? ==>
        run.result == TransferFailed(poll.message)) &&
      (ModelKey(style) in configs && submit.SubmitAnswer? && !submit.ok ==>
        run.result == TransferFailed("FLUX API error: " + NatToString(submit.status))) &&
      (ModelKey(style) in configs && submit.SubmitAnswer? && submit.ok && poll.Done? &&
       ResultUrl(poll.prediction.output).None? ==>
        run.result == TransferFailed(NoResultImage)) &&
      (run.result == TransferFailed(NotSucceeded) ==>
        (submit.SubmitRejected? && submit.message == NotSucceeded) ||
        (poll.Raised? && poll.message == NotSucceeded) ||
        (image.ImageRejected? && image.message == NotSucceeded))
  {
    PollDoneSucceeded(script);
    if submit.SubmitAnswer? {
      assert (FluxApiErrorLead + NatToString(submit.status))[0] == 'F';
    }
  }
}
