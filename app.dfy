/** One run of the page script gauge_reader_app.py, from the session defaults
    to the rendered result: key gating, upload tracking, rotation, prompt
    composition, dispatch and display. Widgets are inputs: the selected model
    option, the uploaded file's id, the two buttons and the checkbox. */
module GaugeReaderApp {
  import opened Wrappers
  import opened Session
  import opened Prompt
  import opened Providers

  /** Outcome of the key check of lines 52-62. */
  datatype KeyCheck = Missing | Present(activeApiKey: string)

  /** The selected option picks the stored key: Gemini's for the exact Gemini
      option, OpenRouter's for any other. A key that is absent or empty stops
      the page. */
  function CheckApiKey(selectedModelOption: string, v: SessionView): (check: KeyCheck)
    ensures check.Present? ==> check.activeApiKey != ""
    ensures check.Present? && selectedModelOption == GeminiOption ==> v.geminiApiKey == Some(check.activeApiKey)
    ensures check.Present? && selectedModelOption != GeminiOption ==> v.openrouterApiKey == Some(check.activeApiKey)
    ensures check.Missing? <==>
      var stored := if selectedModelOption == GeminiOption then v.geminiApiKey else v.openrouterApiKey;
      stored == None || stored == Some("")
  {
    var stored := if selectedModelOption == GeminiOption then v.geminiApiKey else v.openrouterApiKey;
    if stored.None? || stored.value == "" then Missing else Present(stored.value)
  }

  /** The widget state one run of the script sees. `st.button` is true only
      in the rerun its own click started, so a real run has at most one of
      `rotatePressed` and `analyzePressed` set. */
  datatype PageInput = PageInput(
    selectedModelOption: string,
    uploadedFileId: Option<FileId>,
    rotatePressed: bool,
    isOptionEnabled: bool,
    analyzePressed: bool)

  /** What a run ends with: the missing-key warning (`st.stop()`), the page
      without an upload, the preview of the rotated image, or the preview
      followed by the analysis of the request `sent`. */
  datatype PageOutcome =
    | KeyMissingWarning
    | WaitingForUpload
    | Preview(angle: int)
    | Analysis(angle: int, sent: Request, shown: string)

  /** The two session changes of a run that gets past the key check with a
      file uploaded: the upload check, then a rotation if it was pressed. */
  function PageActions(input: PageInput): (actions: seq<Action>)
    requires input.uploadedFileId.Some?
  {
    [Upload(input.uploadedFileId.value)] + (if input.rotatePressed then [RotatePress] else [])
  }

  /** The session after one run: defaults filled in; then, unless the key
      check stopped the page or nothing is uploaded, the upload check of
      lines 94-96 and, if pressed, the rotation of line 101. */
  function PageSession(v: SessionView, input: PageInput): (w: SessionView)
    ensures w.Initialized()
    ensures w.geminiApiKey == WithDefaults(v).geminiApiKey
    ensures w.openrouterApiKey == WithDefaults(v).openrouterApiKey
  {
    var u := WithDefaults(v);
    if CheckApiKey(input.selectedModelOption, u).Missing? || input.uploadedFileId.None? then u
    else
      var uploaded := AfterUpload(u, input.uploadedFileId.value);
      if input.rotatePressed then AfterRotate(uploaded) else uploaded
  }

  /** A run that gets past the key check with a file uploaded changes the
      session exactly as replaying its actions does. */
  lemma PageSessionIsReplay(v: SessionView, input: PageInput)
    requires CheckApiKey(input.selectedModelOption, WithDefaults(v)).Present?
    requires input.uploadedFileId.Some?
    ensures PageSession(v, input) == Replay(WithDefaults(v), PageActions(input))
  {
    var u := WithDefaults(v);
    var upload := [Upload(input.uploadedFileId.value)];
    assert upload[..0] == [];
    assert Replay(u, upload) == AfterUpload(u, input.uploadedFileId.value);
    if input.rotatePressed {
      assert PageActions(input)[..1] == upload;
    } else {
      assert PageActions(input) == upload;
    }
  }

  /** The session after a series of runs. */
  function AfterPages(v: SessionView, inputs: seq<PageInput>): (w: SessionView)
    ensures w.Initialized() || inputs == []
    decreases |inputs|
  {
    if inputs == [] then v
    else PageSession(AfterPages(v, inputs[..|inputs| - 1]), inputs[|inputs| - 1])
  }

  /** No series of runs takes the angle outside the four quarter turns, from
      a session whose angle is missing or already a quarter turn. */
  lemma {:induction false} PagesKeepQuarterTurns(v: SessionView, inputs: seq<PageInput>)
    requires v.rotationAngle.Some? ==> IsQuarterTurn(v.rotationAngle.value)
    ensures var w := AfterPages(v, inputs); w.rotationAngle.Some? ==> IsQuarterTurn(w.rotationAngle.value)
    decreases |inputs|
  {
    if inputs != [] {
      PagesKeepQuarterTurns(v, inputs[..|inputs| - 1]);
    }
  }

  /** One run of the script against the session store (lines 31-120). */
  method RunPage(session: SessionState, remote: Remote, input: PageInput) returns (page: PageOutcome)
    modifies session
    ensures session.View() == PageSession(old(session.View()), input)
    ensures page.KeyMissingWarning? <==>
      CheckApiKey(input.selectedModelOption, WithDefaults(old(session.View()))).Missing?
    ensures page.WaitingForUpload? <==> !page.KeyMissingWarning? && input.uploadedFileId.None?
    ensures page.Preview? || page.Analysis? ==>
      input.uploadedFileId.Some? && page.angle == session.rotationAngle.value
    ensures page.Analysis? <==>
      !page.KeyMissingWarning? && input.uploadedFileId.Some? && input.analyzePressed
    ensures page.Analysis? ==>
      var check := CheckApiKey(input.selectedModelOption, WithDefaults(old(session.View())));
      && check.Present?
      && page.sent.apiKey == check.activeApiKey
      && (page.sent.GeminiRequest? <==> input.selectedModelOption == GeminiOption)
      && (page.sent.OpenRouterRequest? ==> page.sent.modelName == OpenRouterModelName)
      && page.sent.mimeType == PngMimeType
      && page.sent.image == PngImage(input.uploadedFileId.value, page.angle)
      && page.sent.prompt ==
           (if input.isOptionEnabled then PromptTemplate + OptionPromptAddition else PromptTemplate)
      && page.shown == Display(Normalise(ErrorPrefixFor(page.sent), remote(page.sent)))
  {
    session.Initialize();
    var check := CheckApiKey(input.selectedModelOption, session.View());
    if check.Missing? {
      return KeyMissingWarning;
    }
    if input.uploadedFileId.None? {
      return WaitingForUpload;
    }
    var fileId := input.uploadedFileId.value;
    session.OnUpload(fileId);
    if input.rotatePressed {
      session.Rotate();
    }
    // `rotate(-angle, expand=True)` turns the image clockwise by the session
    // angle; it is then encoded as PNG (lines 104, 110-112).
    var angle := session.rotationAngle.value;
    var rotatedImage := PngImage(fileId, angle);
    if !input.analyzePressed {
      return Preview(angle);
    }
    var finalPrompt := BuildPrompt(input.isOptionEnabled);
    var sent, analysisResult := Analyze(remote, input.selectedModelOption, check.activeApiKey, rotatedImage, finalPrompt);
    page := Analysis(angle, sent, Display(analysisResult));
  }

  /** A provider that answers every request with its own prompt. */
  function EchoPrompt(request: Request): ProviderOutcome
  {
    Ok(Some(request.prompt))
  }

  /** A fresh session with a Gemini key, three runs: the upload; a rotate
      press with the yellow-circle option ticked; the analyse press, answered
      by a provider that echoes the prompt.
      The image goes out turned by 90 degrees, and the text shown holds both
      the base instruction and the clause. */
  method EchoScenario() returns (page: PageOutcome)
    ensures page.Analysis? && page.angle == 90
    ensures page.sent.GeminiRequest? && page.sent.image == PngImage("upload-1", 90)
    ensures PromptTemplate <= page.shown && Contains(page.shown, OptionPromptAddition)
  {
    var session := new SessionState();
    session.geminiApiKey := Some("gemini-key");
    var _ := RunPage(session, EchoPrompt, PageInput(GeminiOption, Some("upload-1"), false, false, false));
    var _ := RunPage(session, EchoPrompt, PageInput(GeminiOption, Some("upload-1"), true, true, false));
    page := RunPage(session, EchoPrompt, PageInput(GeminiOption, Some("upload-1"), false, true, true));
    assert OccursAt(page.shown, OptionPromptAddition, |PromptTemplate|);
  }

  /** With no OpenRouter key stored, choosing the Llama option stops the page
      before anything is uploaded or sent, and leaves only the defaults. */
  method MissingKeyScenario() returns (page: PageOutcome, after: SessionView)
    ensures page.KeyMissingWarning?
    ensures after == SessionView(Some("gemini-key"), Some(""), Some(0), Some(None))
  {
    var session := new SessionState();
    session.geminiApiKey := Some("gemini-key");
    page := RunPage(session, EchoPrompt, PageInput("Llama 4 Maverick (OpenRouter)", Some("upload-1"), true, true, true));
    after := session.View();
  }
}
