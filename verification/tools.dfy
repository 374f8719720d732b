/** The five video-generation tools of `vidu_mcp/server.py`. Each validates
    its arguments, normalises its images, POSTs one task-creation request,
    reads the task id and hands over to `query_video`. The server's answer to
    the k-th request of a tool call (counting from 0, the POST first) is
    `answers(k)`. */
module Tools {
  import opened Wrappers
  import opened Strings
  import Base64
  import opened JsonValues
  import opened Errors
  import ApiClient
  import ImageInput
  import opened Poller

  const TextEndpoint := "/ent/v2/text2video"
  const ImageEndpoint := "/ent/v2/img2video"
  const ReferenceEndpoint := "/ent/v2/reference2video"
  const StartEndEndpoint := "/ent/v2/start-end2video"
  const TemplateEndpoint := "/ent/v2/template2video"

  const NoTaskIdText := "Failed to get task_id from response"

  /** The templates that take an extra payload field. */
  const AreaTemplate := "exotic_princess"
  const BeastTemplate := "beast_companion"

  /** Arguments of `generate_text_to_video`. */
  datatype TextParams = TextParams(model: string, prompt: string, style: string, duration: int, seed: int,
                                   aspectRatio: string, resolution: string, movementAmplitude: string, bgm: bool)

  /** Arguments of `generate_img_to_video`. */
  datatype ImageParams = ImageParams(image: string, model: string, prompt: string, duration: int, seed: int,
                                     resolution: string, movementAmplitude: string, bgm: bool)

  /** Arguments of `generate_reference2video_to_video`. */
  datatype ReferenceParams = ReferenceParams(images: seq<string>, prompt: string, model: string, duration: int,
                                             seed: int, aspectRatio: string, resolution: string,
                                             movementAmplitude: string, bgm: bool)

  /** Arguments of `generate_startend2video_to_video`. */
  datatype StartEndParams = StartEndParams(images: seq<string>, model: string, prompt: string, duration: int,
                                           seed: int, resolution: string, movementAmplitude: string, bgm: bool)

  /** Arguments of `generate_template_to_video`. */
  datatype TemplateParams = TemplateParams(template: string, images: seq<string>, prompt: string, seed: int,
                                           aspectRatio: string, area: string, beast: string, bgm: bool)

  /** The declared defaults of the text tool, completed with the prompt. */
  function TextDefaults(prompt: string): TextParams {
    TextParams("viduq1", prompt, "general", 5, 0, "16:9", "1080p", "auto", false)
  }

  /** The image arguments as the JSON strings the tools receive. */
  function AsJsonStrings(images: seq<string>): (r: seq<Json>)
    ensures |r| == |images| && forall i :: 0 <= i < |r| ==> r[i] == String(images[i])
  {
    seq(|images|, i requires 0 <= i < |images| => String(images[i]))
  }

  function AsJsonArray(images: seq<string>): Json {
    Array(AsJsonStrings(images))
  }

  /** The answers left once the first request is served. */
  function Later(answers: nat -> ApiClient.Response): nat -> ApiClient.Response {
    (k: nat) => answers(k + 1)
  }

  /** What follows the task-creation request: a failed POST or a falsy
      `task_id` ends the call, and otherwise `query_video`'s run is the rest. */
  function AfterSubmit(c: ApiClient.Client, posted: Result<Fields, Failure>, answers: nat -> ApiClient.Response)
    : (run: Run)
    ensures posted.Failure? ==> run == Run(ErrorText(Render(posted.error)), [], [])
    ensures posted.Success? && !Truthy(Lookup(posted.value, "task_id")) ==>
      run == Run(ErrorText(ApiErrorPrefix + NoTaskIdText), [], [])
    ensures run.sent != [] <==> posted.Success? && Truthy(Lookup(posted.value, "task_id"))
    ensures run.sent != [] ==> run == QueryVideo(c, Lookup(posted.value, "task_id"), answers)
    ensures |run.sent| <= MaxRetries && AllRetryWaits(run.sleeps)
  {
    match posted
    case Failure(e) => Run(ErrorText(Render(e)), [], [])
    case Success(data) =>
      var taskId := Lookup(data, "task_id");
      if !Truthy(taskId) then Run(ErrorText(Render(RequestFailure(NoTaskIdText))), [], [])
      else QueryVideo(c, taskId, answers)
  }

  /** Everything after the payload is built: the POST, then `AfterSubmit`
      on the answers that follow it. */
  function SubmitAndQuery(c: ApiClient.Client, endpoint: string, payload: Fields,
                          answers: nat -> ApiClient.Response): (run: Run)
    ensures 1 <= |run.sent| <= 1 + MaxRetries && AllRetryWaits(run.sleeps)
    ensures run.sent[0].verb == "POST" && run.sent[0].url == c.apiHost + endpoint
    ensures run.sent[0].json == Some(payload)
    ensures ApiClient.AllCarry(run.sent, ApiClient.SetContentType(c.headers, false))
    ensures var rest := AfterSubmit(ApiClient.Post(c, endpoint, payload, answers(0)).client,
                                    ApiClient.Interpret(answers(0)), Later(answers));
      run.output == rest.output && run.sent[1..] == rest.sent && run.sleeps == rest.sleeps
  {
    var x := ApiClient.Post(c, endpoint, payload, answers(0));
    var rest := AfterSubmit(x.client, x.result, Later(answers));
    ApiClient.SetContentTypeIdempotent(c.headers, false);
    Run(rest.output, [x.request] + rest.sent, rest.sleeps)
  }

  /** Local rejection ends the call before any request; otherwise submit. */
  function SubmitIfValid(c: ApiClient.Client, endpoint: string, payload: Result<Fields, Failure>,
                         answers: nat -> ApiClient.Response): Run
  {
    match payload
    case Failure(e) => Run(ErrorText(Render(e)), [], [])
    case Success(p) => SubmitAndQuery(c, endpoint, p, answers)
  }

  /** The text-to-video payload: the nine arguments under their API names. */
  function TextPayload(p: TextParams): (payload: Fields)
    ensures payload.Keys == {"model", "style", "prompt", "duration", "seed", "aspect_ratio", "resolution",
                             "movement_amplitude", "bgm"}
    ensures payload["model"] == String(p.model) && payload["style"] == String(p.style)
    ensures payload["prompt"] == String(p.prompt)
    ensures payload["duration"] == Number(p.duration) && payload["seed"] == Number(p.seed)
    ensures payload["aspect_ratio"] == String(p.aspectRatio) && payload["resolution"] == String(p.resolution)
    ensures payload["movement_amplitude"] == String(p.movementAmplitude) && payload["bgm"] == Bool(p.bgm)
  {
    map["model" := String(p.model), "style" := String(p.style), "prompt" := String(p.prompt),
        "duration" := Number(p.duration), "seed" := Number(p.seed), "aspect_ratio" := String(p.aspectRatio),
        "resolution" := String(p.resolution), "movement_amplitude" := String(p.movementAmplitude),
        "bgm" := Bool(p.bgm)]
  }

  /** `generate_text_to_video`: an empty prompt is rejected before any request. */
  function GenerateTextToVideo(c: ApiClient.Client, p: TextParams, answers: nat -> ApiClient.Response): (run: Run)
    ensures run.sent == [] <==> p.prompt == ""
    ensures p.prompt == "" ==> run == Run(ErrorText(ApiErrorPrefix + "Prompt is required"), [], [])
    ensures p.prompt != "" ==>
      && run.sent[0].verb == "POST" && run.sent[0].url == c.apiHost + TextEndpoint
      && run.sent[0].json == Some(TextPayload(p))
    ensures p.prompt != "" ==> run == SubmitAndQuery(c, TextEndpoint, TextPayload(p), answers)
    ensures |run.sent| <= 1 + MaxRetries
  {
    var payload := if p.prompt == "" then Failure(RequestFailure("Prompt is required")) else Success(TextPayload(p));
    SubmitIfValid(c, TextEndpoint, payload, answers)
  }

  /** The image-to-video payload, with the one normalised image in a list. */
  function ImagePayload(p: ImageParams, image: string): (payload: Fields)
    ensures payload.Keys == {"model", "images", "prompt", "duration", "seed", "resolution",
                             "movement_amplitude", "bgm"}
    ensures payload["images"] == Array([String(image)])
    ensures payload["model"] == String(p.model) && payload["prompt"] == String(p.prompt)
    ensures payload["duration"] == Number(p.duration) && payload["seed"] == Number(p.seed)
    ensures payload["resolution"] == String(p.resolution)
    ensures payload["movement_amplitude"] == String(p.movementAmplitude) && payload["bgm"] == Bool(p.bgm)
  {
    map["model" := String(p.model), "images" := Array([String(image)]), "prompt" := String(p.prompt),
        "duration" := Number(p.duration), "seed" := Number(p.seed), "resolution" := String(p.resolution),
        "movement_amplitude" := String(p.movementAmplitude), "bgm" := Bool(p.bgm)]
  }

  /** The checks `generate_img_to_video` makes before its request. */
  function ImageRequest(fs: ImageInput.FileSystem, p: ImageParams): Result<Fields, Failure> {
    if p.image == "" then Failure(RequestFailure("image is required"))
    else
      match ImageInput.NormalizeImage(fs, String(p.image))
      case Failure(e) => Failure(e)
      case Success(image) => Success(ImagePayload(p, image))
  }

  /** `generate_img_to_video`: no request unless the image is given and
      resolves; the request carries the resolved image. */
  function GenerateImageToVideo(c: ApiClient.Client, fs: ImageInput.FileSystem, p: ImageParams,
                                answers: nat -> ApiClient.Response): (run: Run)
    ensures run.sent == [] <==> p.image == "" || ImageInput.NormalizeImage(fs, String(p.image)).Failure?
    ensures p.image == "" ==> run == Run(ErrorText(ApiErrorPrefix + "image is required"), [], [])
    ensures p.image != "" && ImageInput.NormalizeImage(fs, String(p.image)).Failure? ==>
      run == Run(ErrorText(Render(ImageInput.NormalizeImage(fs, String(p.image)).error)), [], [])
    ensures run.sent != [] ==>
      && run.sent[0].verb == "POST" && run.sent[0].url == c.apiHost + ImageEndpoint
      && run.sent[0].json == Some(ImagePayload(p, ImageInput.NormalizeImage(fs, String(p.image)).value))
    ensures run.sent != [] ==>
      run == SubmitAndQuery(c, ImageEndpoint, ImagePayload(p, ImageInput.NormalizeImage(fs, String(p.image)).value),
                            answers)
    ensures |run.sent| <= 1 + MaxRetries
  {
    SubmitIfValid(c, ImageEndpoint, ImageRequest(fs, p), answers)
  }

  /** The reference-to-video payload. */
  function ReferencePayload(p: ReferenceParams, images: seq<string>): (payload: Fields)
    ensures payload.Keys == {"model", "images", "prompt", "duration", "seed", "aspect_ratio", "resolution",
                             "movement_amplitude", "bgm"}
    ensures payload["images"] == AsJsonArray(images)
    ensures payload["model"] == String(p.model) && payload["prompt"] == String(p.prompt)
    ensures payload["duration"] == Number(p.duration) && payload["seed"] == Number(p.seed)
    ensures payload["aspect_ratio"] == String(p.aspectRatio) && payload["resolution"] == String(p.resolution)
    ensures payload["movement_amplitude"] == String(p.movementAmplitude) && payload["bgm"] == Bool(p.bgm)
  {
    map["model" := String(p.model), "images" := AsJsonArray(images), "prompt" := String(p.prompt),
        "duration" := Number(p.duration), "seed" := Number(p.seed), "aspect_ratio" := String(p.aspectRatio),
        "resolution" := String(p.resolution), "movement_amplitude" := String(p.movementAmplitude),
        "bgm" := Bool(p.bgm)]
  }

  function ReferenceRequest(fs: ImageInput.FileSystem, p: ReferenceParams): Result<Fields, Failure> {
    if |p.images| == 0 then Failure(RequestFailure("images is required"))
    else if p.prompt == "" then Failure(RequestFailure("prompt is required"))
    else
      match ImageInput.NormalizeImages(fs, AsJsonStrings(p.images))
      case Failure(e) => Failure(e)
      case Success(images) => Success(ReferencePayload(p, images))
  }

  /** `generate_reference2video_to_video`: images are checked before the
      prompt, and every image must resolve before anything is sent. */
  function GenerateReferenceToVideo(c: ApiClient.Client, fs: ImageInput.FileSystem, p: ReferenceParams,
                                    answers: nat -> ApiClient.Response): (run: Run)
    ensures run.sent == [] <==>
      |p.images| == 0 || p.prompt == "" || ImageInput.NormalizeImages(fs, AsJsonStrings(p.images)).Failure?
    ensures |p.images| == 0 ==> run == Run(ErrorText(ApiErrorPrefix + "images is required"), [], [])
    ensures |p.images| > 0 && p.prompt == "" ==> run == Run(ErrorText(ApiErrorPrefix + "prompt is required"), [], [])
    ensures |p.images| > 0 && p.prompt != "" && ImageInput.NormalizeImages(fs, AsJsonStrings(p.images)).Failure? ==>
      run == Run(ErrorText(Render(ImageInput.NormalizeImages(fs, AsJsonStrings(p.images)).error)), [], [])
    ensures run.sent != [] ==>
      && run.sent[0].verb == "POST" && run.sent[0].url == c.apiHost + ReferenceEndpoint
      && run.sent[0].json == Some(ReferencePayload(p, ImageInput.NormalizeImages(fs, AsJsonStrings(p.images)).value))
    ensures run.sent != [] ==>
      run == SubmitAndQuery(c, ReferenceEndpoint,
                            ReferencePayload(p, ImageInput.NormalizeImages(fs, AsJsonStrings(p.images)).value), answers)
    ensures |run.sent| <= 1 + MaxRetries
  {
    SubmitIfValid(c, ReferenceEndpoint, ReferenceRequest(fs, p), answers)
  }

  /** The start-end-to-video payload. */
  function StartEndPayload(p: StartEndParams, images: seq<string>): (payload: Fields)
    ensures payload.Keys == {"model", "images", "prompt", "duration", "seed", "resolution",
                             "movement_amplitude", "bgm"}
    ensures payload["images"] == AsJsonArray(images)
    ensures payload["model"] == String(p.model) && payload["prompt"] == String(p.prompt)
    ensures payload["duration"] == Number(p.duration) && payload["seed"] == Number(p.seed)
    ensures payload["resolution"] == String(p.resolution)
    ensures payload["movement_amplitude"] == String(p.movementAmplitude) && payload["bgm"] == Bool(p.bgm)
  {
    map["model" := String(p.model), "images" := AsJsonArray(images), "prompt" := String(p.prompt),
        "duration" := Number(p.duration), "seed" := Number(p.seed), "resolution" := String(p.resolution),
        "movement_amplitude" := String(p.movementAmplitude), "bgm" := Bool(p.bgm)]
  }

  function StartEndRequest(fs: ImageInput.FileSystem, p: StartEndParams): Result<Fields, Failure> {
    if |p.images| == 0 then Failure(RequestFailure("images is required"))
    else
      match ImageInput.NormalizeImages(fs, AsJsonStrings(p.images))
      case Failure(e) => Failure(e)
      case Success(images) => Success(StartEndPayload(p, images))
  }

  /** `generate_startend2video_to_video`: the number of images is not checked
      beyond being non-empty. */
  function GenerateStartEndToVideo(c: ApiClient.Client, fs: ImageInput.FileSystem, p: StartEndParams,
                                   answers: nat -> ApiClient.Response): (run: Run)
    ensures run.sent == [] <==>
      |p.images| == 0 || ImageInput.NormalizeImages(fs, AsJsonStrings(p.images)).Failure?
    ensures |p.images| == 0 ==> run == Run(ErrorText(ApiErrorPrefix + "images is required"), [], [])
    ensures |p.images| > 0 && ImageInput.NormalizeImages(fs, AsJsonStrings(p.images)).Failure? ==>
      run == Run(ErrorText(Render(ImageInput.NormalizeImages(fs, AsJsonStrings(p.images)).error)), [], [])
    ensures run.sent != [] ==>
      && run.sent[0].verb == "POST" && run.sent[0].url == c.apiHost + StartEndEndpoint
      && run.sent[0].json == Some(StartEndPayload(p, ImageInput.NormalizeImages(fs, AsJsonStrings(p.images)).value))
    ensures run.sent != [] ==>
      run == SubmitAndQuery(c, StartEndEndpoint,
                            StartEndPayload(p, ImageInput.NormalizeImages(fs, AsJsonStrings(p.images)).value), answers)
    ensures |run.sent| <= 1 + MaxRetries
  {
    SubmitIfValid(c, StartEndEndpoint, StartEndRequest(fs, p), answers)
  }

  /** The fields every template payload carries. */
  function TemplateBase(p: TemplateParams, images: seq<string>): Fields {
    map["template" := String(p.template), "images" := AsJsonArray(images), "prompt" := String(p.prompt),
        "seed" := Number(p.seed), "aspect_ratio" := String(p.aspectRatio), "bgm" := Bool(p.bgm)]
  }

  const TemplateBaseKeys: set<string> := {"template", "images", "prompt", "seed", "aspect_ratio", "bgm"}

  /** The template payload. `template is "..."` compares object identity,
      which strings do not have here: `interned` says whether the argument is
      the interned object for its contents, so that `template is L` holds
      exactly when it is interned and equal to `L`. Whether a name decoded
      from a request is interned depends on the JSON decoder and the host;
      normally it is not. */
  function TemplatePayload(p: TemplateParams, images: seq<string>, interned: bool): (payload: Fields)
    ensures "area" in payload ==> p.template == AreaTemplate && payload["area"] == String(p.area)
    ensures "beast" in payload ==> p.template == BeastTemplate && payload["beast"] == String(p.beast)
    ensures TemplateBaseKeys <= payload.Keys <= TemplateBaseKeys + {"area", "beast"}
    ensures !interned ==> payload.Keys == TemplateBaseKeys
    ensures payload["template"] == String(p.template) && payload["images"] == AsJsonArray(images)
    ensures payload["prompt"] == String(p.prompt) && payload["seed"] == Number(p.seed)
    ensures payload["aspect_ratio"] == String(p.aspectRatio) && payload["bgm"] == Bool(p.bgm)
  {
    var base := TemplateBase(p, images);
    var withArea := if interned && p.template == AreaTemplate then base["area" := String(p.area)] else base;
    if interned && p.template == BeastTemplate then withArea["beast" := String(p.beast)] else withArea
  }

  /** Neither extra field appears for any other template name. */
  lemma TemplateExtrasOnlyForTheirTemplates(p: TemplateParams, images: seq<string>, interned: bool)
    requires p.template != AreaTemplate && p.template != BeastTemplate
    ensures TemplatePayload(p, images, interned).Keys == TemplateBaseKeys
  {
  }

  function TemplateRequest(fs: ImageInput.FileSystem, p: TemplateParams, interned: bool): Result<Fields, Failure> {
    if p.template == "" then Failure(RequestFailure("template is required"))
    else if |p.images| == 0 then Failure(RequestFailure("images is required"))
    else
      match ImageInput.NormalizeImages(fs, AsJsonStrings(p.images))
      case Failure(e) => Failure(e)
      case Success(images) => Success(TemplatePayload(p, images, interned))
  }

  /** `generate_template_to_video`. */
  function GenerateTemplateToVideo(c: ApiClient.Client, fs: ImageInput.FileSystem, p: TemplateParams, interned: bool,
                                   answers: nat -> ApiClient.Response): (run: Run)
    ensures run.sent == [] <==>
      p.template == "" || |p.images| == 0 || ImageInput.NormalizeImages(fs, AsJsonStrings(p.images)).Failure?
    ensures p.template == "" ==> run == Run(ErrorText(ApiErrorPrefix + "template is required"), [], [])
    ensures p.template != "" && |p.images| == 0 ==>
      run == Run(ErrorText(ApiErrorPrefix + "images is required"), [], [])
    ensures p.template != "" && |p.images| > 0 && ImageInput.NormalizeImages(fs, AsJsonStrings(p.images)).Failure? ==>
      run == Run(ErrorText(Render(ImageInput.NormalizeImages(fs, AsJsonStrings(p.images)).error)), [], [])
    ensures run.sent != [] ==>
      && run.sent[0].verb == "POST" && run.sent[0].url == c.apiHost + TemplateEndpoint
      && run.sent[0].json == Some(TemplatePayload(p, ImageInput.NormalizeImages(fs, AsJsonStrings(p.images)).value,
                                                  interned))
    ensures run.sent != [] ==>
      run == SubmitAndQuery(c, TemplateEndpoint,
                            TemplatePayload(p, ImageInput.NormalizeImages(fs, AsJsonStrings(p.images)).value, interned),
                            answers)
    ensures |run.sent| <= 1 + MaxRetries
  {
    SubmitIfValid(c, TemplateEndpoint, TemplateRequest(fs, p, interned), answers)
  }

  /** With a client made by `NewClient`, every request of a tool call, the
      POST and each poll, sends `Authorization: Token <api_key>` and the JSON
      content type. */
  lemma EveryRequestIsAuthorized(apiKey: string, apiHost: string, defaults: map<string, string>,
                                 endpoint: string, payload: Fields, answers: nat -> ApiClient.Response)
    ensures var run := SubmitAndQuery(ApiClient.NewClient(apiKey, apiHost, defaults), endpoint, payload, answers);
      forall i :: 0 <= i < |run.sent| ==>
        && ApiClient.AuthorizationHeader in run.sent[i].headers
        && run.sent[i].headers[ApiClient.AuthorizationHeader] == ApiClient.TokenScheme + apiKey
        && ApiClient.ContentTypeHeader in run.sent[i].headers
        && run.sent[i].headers[ApiClient.ContentTypeHeader] == ApiClient.JsonContentType
  {
    ApiClient.NewClientAuthorizes(apiKey, apiHost, defaults, false);
  }

  /** A local image file reaches the API as a JPEG data URI whose Base64
      payload decodes to the file's bytes. */
  lemma ImageToolSendsFileContents(c: ApiClient.Client, fs: ImageInput.FileSystem, p: ImageParams,
                                   answers: nat -> ApiClient.Response)
    requires p.image != "" && !ImageInput.IsPassThrough(p.image) && p.image in fs
    ensures var run := GenerateImageToVideo(c, fs, p, answers);
      && run.sent != [] && run.sent[0].json.Some?
      && var images := run.sent[0].json.value["images"];
      && images.Array? && |images.items| == 1 && images.items[0].String?
      && StartsWith(images.items[0].s, ImageInput.JpegDataUriPrefix)
      && Base64.Decode(images.items[0].s[|ImageInput.JpegDataUriPrefix|..]) == Some(fs[p.image])
  {
    ImageInput.NormalizeLocalFile(fs, p.image);
  }

  /** The list tools send the images in order, each as `del_input_image`
      resolves it, and send nothing if any one fails. */
  lemma ImageListIsNormalisedInOrder(fs: ImageInput.FileSystem, images: seq<string>)
    ensures ImageInput.NormalizeImages(fs, AsJsonStrings(images)).Success?
        <==> forall i :: 0 <= i < |images| ==> ImageInput.NormalizeImage(fs, String(images[i])).Success?
    ensures ImageInput.NormalizeImages(fs, AsJsonStrings(images)).Success? ==>
      var sent := AsJsonArray(ImageInput.NormalizeImages(fs, AsJsonStrings(images)).value);
      && |sent.items| == |images|
      && forall i :: 0 <= i < |images| ==>
           ImageInput.NormalizeImage(fs, String(images[i])) == Success(sent.items[i].s)
  {
    ImageInput.NormalizeImagesSuccess(fs, AsJsonStrings(images));
  }

  /** The answer that accepts a task under the id `taskId`. */
  function AcceptedAnswer(taskId: string): ApiClient.Response {
    ApiClient.Body(map["task_id" := String(taskId)])
  }

  lemma AcceptedAnswerNamesTask(taskId: string)
    ensures ApiClient.Interpret(AcceptedAnswer(taskId)).Success?
    ensures Lookup(ApiClient.Interpret(AcceptedAnswer(taskId)).value, "task_id") == String(taskId)
  {
    assert ApiClient.Interpret(AcceptedAnswer(taskId)) == Success(map["task_id" := String(taskId)]);
  }

  /** Any tool's submission answered with a task id, two "processing" polls
      and a finished one: four requests, two waits, and the record. */
  lemma SubmissionEndToEnd(c: ApiClient.Client, endpoint: string, payload: Fields, url: string,
                           answers: nat -> ApiClient.Response)
    requires url != ""
    requires answers(0) == AcceptedAnswer("42")
    requires answers(1) == ProcessingAnswer() && answers(2) == ProcessingAnswer()
    requires answers(3) == FinishedAnswer(url)
    ensures var run := SubmitAndQuery(c, endpoint, payload, answers);
      && run.output == VideoJson(VideoRecord(String("42"), "success", String(url)))
      && |run.sent| == 4 && run.sleeps == [RetryInterval, RetryInterval]
  {
    AcceptedAnswerNamesTask("42");
    var x := ApiClient.Post(c, endpoint, payload, answers(0));
    ProcessingThenSuccess(x.client, String("42"), url, Later(answers));
  }

  /** A prompt, a task id, two "processing" polls and a finished one: four
      requests, forty seconds of sleep, and the record for that task. */
  lemma TextToVideoEndToEnd(c: ApiClient.Client, prompt: string, url: string, answers: nat -> ApiClient.Response)
    requires prompt != "" && url != ""
    requires answers(0) == AcceptedAnswer("42")
    requires answers(1) == ProcessingAnswer() && answers(2) == ProcessingAnswer()
    requires answers(3) == FinishedAnswer(url)
    ensures var run := GenerateTextToVideo(c, TextDefaults(prompt), answers);
      && run.output == VideoJson(VideoRecord(String("42"), "success", String(url)))
      && |run.sent| == 4 && TotalWait(run.sleeps) == 40
  {
    SubmissionEndToEnd(c, TextEndpoint, TextPayload(TextDefaults(prompt)), url, answers);
    RetryWaitsTotal([RetryInterval, RetryInterval]);
  }
}
