/** The two remote vision providers and the dispatch between them
    (gauge_reader_app.py lines 74-89 and 110-120). The network calls themselves
    are not modelled: `remote` stands for whichever provider answers a request,
    and its answer is either the response text or the text of the exception
    the client library raised. */
module Providers {
  import opened Wrappers

  /** The option of the model selector that routes to Google Gemini (line 46). */
  const GeminiOption: string := "Gemini 1.5 Flash (Google)"

  /** The model Gemini is asked for (line 78). */
  const GeminiModelName: string := "gemini-1.5-flash-latest"

  /** The OpenRouter model used for every option other than Gemini's (line 118). */
  const OpenRouterModelName: string := "meta-llama/llama-4-maverick"

  /** The encoding the rotated image is sent in, by both providers (lines 111, 115, 87). */
  const PngMimeType: string := "image/png"

  /** Shown instead of an empty or missing analysis result (line 120). */
  const NoResultSentinel: string := "解析結果を取得できませんでした。"

  /** Label put in front of a Gemini failure (line 81). */
  const GeminiErrorPrefix: string := "Geminiでの解析中にエラー: "

  /** Label put in front of an OpenRouter failure, naming the model (line 89). */
  function OpenRouterErrorPrefix(modelName: string): (prefix: string)
    ensures "OpenRouter (" + modelName + ")" <= prefix
  {
    "OpenRouter (" + modelName + ") での解析中にエラー: "
  }

  /** The uploaded file, rotated clockwise by `clockwiseDegrees` and encoded
      as PNG; pixels and dimensions are not modelled. */
  datatype PngImage = PngImage(fileId: string, clockwiseDegrees: int)

  /** What a provider is sent. For Gemini the image is a part
      `{mime_type, data}` next to the prompt; for OpenRouter it is a base64
      data URL of media type `mimeType` inside a chat message. */
  datatype Request =
    | GeminiRequest(apiKey: string, modelName: string, mimeType: string, image: PngImage, prompt: string)
    | OpenRouterRequest(apiKey: string, modelName: string, mimeType: string, image: PngImage, prompt: string)

  /** A provider's answer: the response text (the OpenRouter client may give
      `None`), or the message of the exception raised on the way. */
  datatype ProviderOutcome = Ok(text: Option<string>) | Err(message: string)

  /** The remote side: every request gets some outcome. */
  type Remote = Request -> ProviderOutcome

  /** Shared shape of both wrappers' `try`/`except`: a response passes through
      unchanged, an exception becomes the labelled message, and nothing escapes. */
  function Normalise(errorPrefix: string, outcome: ProviderOutcome): (result: Option<string>)
    ensures outcome.Ok? ==> result == outcome.text
    ensures outcome.Err? ==> result.Some? && errorPrefix <= result.value
    ensures outcome.Err? ==> result.value[|errorPrefix|..] == outcome.message
  {
    match outcome
    case Ok(text) => text
    case Err(message) => Some(errorPrefix + message)
  }

  /** The image part handed to Gemini (line 115). */
  datatype ImagePart = ImagePart(mimeType: string, data: PngImage)

  /** The request `analyze_with_gemini` makes (lines 77-79). */
  function GeminiCall(apiKey: string, imagePart: ImagePart, finalPrompt: string): (request: Request)
    ensures request.GeminiRequest? && request.modelName == GeminiModelName
    ensures request.apiKey == apiKey && request.prompt == finalPrompt
    ensures request.mimeType == imagePart.mimeType && request.image == imagePart.data
  {
    GeminiRequest(apiKey, GeminiModelName, imagePart.mimeType, imagePart.data, finalPrompt)
  }

  /** The request `analyze_with_openrouter_vision` makes (lines 85-87); the
      data URL always declares PNG. */
  function OpenRouterCall(apiKey: string, modelName: string, imageBytes: PngImage, finalPrompt: string): (request: Request)
    ensures request.OpenRouterRequest? && request.modelName == modelName
    ensures request.apiKey == apiKey && request.prompt == finalPrompt
    ensures request.mimeType == PngMimeType && request.image == imageBytes
  {
    OpenRouterRequest(apiKey, modelName, PngMimeType, imageBytes, finalPrompt)
  }

  /** `analyze_with_gemini` (lines 75-81). */
  function AnalyzeWithGemini(remote: Remote, apiKey: string, imagePart: ImagePart, finalPrompt: string): (result: Option<string>)
    ensures remote(GeminiCall(apiKey, imagePart, finalPrompt)).Ok? ==>
      result == remote(GeminiCall(apiKey, imagePart, finalPrompt)).text
    ensures remote(GeminiCall(apiKey, imagePart, finalPrompt)).Err? ==>
      result == Some(GeminiErrorPrefix + remote(GeminiCall(apiKey, imagePart, finalPrompt)).message)
  {
    Normalise(GeminiErrorPrefix, remote(GeminiCall(apiKey, imagePart, finalPrompt)))
  }

  /** `analyze_with_openrouter_vision` (lines 83-89). */
  function AnalyzeWithOpenRouterVision(remote: Remote, apiKey: string, modelName: string, imageBytes: PngImage, finalPrompt: string): (result: Option<string>)
    ensures remote(OpenRouterCall(apiKey, modelName, imageBytes, finalPrompt)).Ok? ==>
      result == remote(OpenRouterCall(apiKey, modelName, imageBytes, finalPrompt)).text
    ensures remote(OpenRouterCall(apiKey, modelName, imageBytes, finalPrompt)).Err? ==>
      result == Some(OpenRouterErrorPrefix(modelName) + remote(OpenRouterCall(apiKey, modelName, imageBytes, finalPrompt)).message)
  {
    Normalise(OpenRouterErrorPrefix(modelName), remote(OpenRouterCall(apiKey, modelName, imageBytes, finalPrompt)))
  }

  /** The label a failure of `request` is reported under. */
  function ErrorPrefixFor(request: Request): (prefix: string)
    ensures prefix != ""
    ensures request.GeminiRequest? ==> prefix == GeminiErrorPrefix
    ensures request.OpenRouterRequest? ==> prefix == OpenRouterErrorPrefix(request.modelName)
  {
    match request
    case GeminiRequest(_, _, _, _, _) => GeminiErrorPrefix
    case OpenRouterRequest(_, modelName, _, _, _) => OpenRouterErrorPrefix(modelName)
  }

  /** Lines 113-118: the exact Gemini option goes to Gemini, every other option
      to OpenRouter with the fixed Llama model; both send the PNG image, the
      given key and the given prompt. `sent` is the one request made, and the
      result is its normalised outcome. */
  method Analyze(remote: Remote, selectedModelOption: string, activeApiKey: string, image: PngImage, finalPrompt: string)
    returns (sent: Request, analysisResult: Option<string>)
    ensures sent.GeminiRequest? <==> selectedModelOption == GeminiOption
    ensures sent.GeminiRequest? ==> sent.modelName == GeminiModelName
    ensures sent.OpenRouterRequest? ==> sent.modelName == OpenRouterModelName
    ensures sent.mimeType == PngMimeType && sent.image == image
    ensures sent.apiKey == activeApiKey && sent.prompt == finalPrompt
    ensures remote(sent).Ok? ==> analysisResult == remote(sent).text
    ensures remote(sent).Err? ==>
      analysisResult == Some(ErrorPrefixFor(sent) + remote(sent).message)
  {
    analysisResult := Some("");
    if selectedModelOption == GeminiOption {
      var imagePart := ImagePart(PngMimeType, image);
      sent := GeminiCall(activeApiKey, imagePart, finalPrompt);
      analysisResult := AnalyzeWithGemini(remote, activeApiKey, imagePart, finalPrompt);
    } else {
      sent := OpenRouterCall(activeApiKey, OpenRouterModelName, image, finalPrompt);
      analysisResult := AnalyzeWithOpenRouterVision(remote, activeApiKey, OpenRouterModelName, image, finalPrompt);
    }
  }

  /** Line 120: a non-empty result is shown as it is; `""` and `None` are
      both shown as the sentinel. What is shown is never empty. */
  function Display(analysisResult: Option<string>): (shown: string)
    ensures shown != ""
    ensures analysisResult.Some? && analysisResult.value != "" ==> shown == analysisResult.value
    ensures analysisResult == None || analysisResult == Some("") ==> shown == NoResultSentinel
  {
    if analysisResult.Some? && analysisResult.value != "" then analysisResult.value else NoResultSentinel
  }

  /** A provider failure is always shown as its labelled message, never as the
      empty-result sentinel, and the exception text can be read back from it. */
  lemma FailureIsNeverTheSentinel(request: Request, message: string)
    ensures Display(Normalise(ErrorPrefixFor(request), Err(message))) != NoResultSentinel
    ensures ErrorPrefixFor(request) <= Display(Normalise(ErrorPrefixFor(request), Err(message)))
    ensures Display(Normalise(ErrorPrefixFor(request), Err(message)))[|ErrorPrefixFor(request)|..] == message
  {
  }

  /** A provider that answers with no text, or with empty text, is shown as
      the sentinel whichever provider it was. */
  lemma EmptyAnswerIsTheSentinel(text: Option<string>)
    requires text == None || text == Some("")
    ensures forall prefix :: Display(Normalise(prefix, Ok(text))) == NoResultSentinel
  {
  }
}
