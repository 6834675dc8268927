# Gauge reader: session and dispatch model

A Dafny model of the orchestration in `gauge_reader_app.py`. This is a Streamlit page where a user uploads a photo of industrial gauges, can rotate it in quarter turns, and can tick a "yellow circle only" option. The photo is then sent, with a fixed Japanese instruction, to Google Gemini or to a Llama model behind OpenRouter. The model covers the session entries the page keeps between reruns, the API-key gate, the prompt, the choice of provider, the error wrapping around each provider call, and how the result is shown.

Modules, one file each:

- `Wrappers` (`wrappers.dfy`): `Option`. It stands for Python's `None` and for an entry missing from `st.session_state`.
- `Session` (`session.dfy`): the class `SessionState`, which holds the four session entries and whose methods update them in place. Beside it are the value `SessionView` and the functions that specify each update: default filling, the upload-id check and the rotation. It also has lemmas about any series of updates.
- `Prompt` (`prompt.dfy`): the base instruction and the region clause, character for character, plus the method that puts the final prompt together.
- `Providers` (`providers.dfy`): the requests sent to each provider and the two wrappers. Their `try`/`except` becomes a total function from the provider's outcome to a string. It also holds the dispatch method and the empty-result sentinel.
- `GaugeReaderApp` (`app.dfy`): the key check and one full run of the script (`RunPage`). It also has the session effect of one run and of a series of runs, and two client scenarios.

The remote services are a parameter `remote: Request -> ProviderOutcome`. The `Request` records what the page sends: the key, the model name, the MIME type, the image and the prompt. The image is a token: the upload's id and the clockwise angle it was turned by. The outcome is either the response text, which may be `None`, or the message of an exception raised in the client library.

Notes on what the code does:

- The key check stops the whole page (`st.stop()` at lines 57 and 62) before the upload is read, so a stopped run neither records the upload nor rotates.
- Error texts are the Japanese labels of lines 81 and 89, followed by the exception's text.
- The wrappers return `Option<string>`: the response text, or the labelled error. `None` stands for a response whose text is `None`, as OpenRouter's `message.content` can be.
- The image is always sent as PNG.

Python's `%` and Dafny's `%` agree when the divisor is positive, so line 101's `(angle + 90) % 360` is used as it is.

## Model

| member | source | states |
|---|---|---|
| `Session.WithDefault` | gauge_reader_app.py:31-38 | an entry already present is kept; a missing one gets the default |
| `Session.WithDefaults` | gauge_reader_app.py:31-38 | afterwards every entry is present; no present entry is overwritten; a fresh session gets keys `""`, angle 0 and last upload `None` |
| `Session.SessionState.constructor` | gauge_reader_app.py:31-38 | a new browser session stores none of the four entries |
| `Session.SessionState.Initialize` | gauge_reader_app.py:31-38 | the store becomes `WithDefaults` of its previous contents |
| `Session.AfterUpload` | gauge_reader_app.py:94-96 | the new id is recorded; a different id than before resets the angle to 0; the same id changes nothing; keys untouched |
| `Session.SessionState.OnUpload` | gauge_reader_app.py:94-96 | the store becomes `AfterUpload` of its previous contents |
| `Session.UploadIsIdempotent` | gauge_reader_app.py:94-96 | processing the same upload twice equals processing it once |
| `Session.RotateAngle` | gauge_reader_app.py:101 | the next angle lies in [0, 360), is congruent to angle + 90 modulo 360, and stays a quarter turn |
| `Session.AfterRotate` | gauge_reader_app.py:101 | only the angle changes, to `RotateAngle` of the old one |
| `Session.SessionState.Rotate` | gauge_reader_app.py:101 | the store becomes `AfterRotate` of its previous contents |
| `Session.RotateTimesIsModular` | gauge_reader_app.py:101 | after n >= 1 presses the angle is (angle + 90n) % 360 |
| `Session.RotationsFromReset` | gauge_reader_app.py:101 | from angle 0, n presses give (90n) % 360 |
| `Session.FourRotationsAreIdentity` | gauge_reader_app.py:101 | four presses return any quarter-turn angle to itself |
| `Session.Replay` | gauge_reader_app.py:94-101 | any series of upload checks and rotations keeps the store initialised and never changes the keys |
| `Session.ReplayKeepsQuarterTurns` | gauge_reader_app.py:94-101 | from a quarter-turn angle, every series of uploads and rotations ends at a quarter turn |
| `Session.ReplayPresses` | gauge_reader_app.py:101 | n rotations change only the angle, to `RotateTimes(angle, n)` |
| `Session.UploadThenRotations` | gauge_reader_app.py:94-101 | a new upload followed by n rotations leaves angle (90n) % 360 with the new id recorded; the same id continues from the old angle |
| `Prompt.TemplateLacksClause` | gauge_reader_app.py:65-72 | the base instruction does not contain the region clause anywhere |
| `Prompt.BuildPrompt` | gauge_reader_app.py:108-109 | the prompt is the template, plus the clause exactly when the option is on; the template is always a prefix; nothing else is appended; the clause occurs iff the option is on |
| `Providers.OpenRouterErrorPrefix` | gauge_reader_app.py:89 | the OpenRouter error label begins with "OpenRouter (" followed by the model name and ")" |
| `Providers.Normalise` | gauge_reader_app.py:75-89 | a response passes through unchanged; an exception becomes prefix + message, from which the message can be read back |
| `Providers.GeminiCall` | gauge_reader_app.py:77-79 | the Gemini request carries the given key, prompt and image part, and the model gemini-1.5-flash-latest |
| `Providers.OpenRouterCall` | gauge_reader_app.py:85-87 | the OpenRouter request carries the given key, model, image and prompt, with a PNG data URL |
| `Providers.AnalyzeWithGemini` | gauge_reader_app.py:75-81 | a successful call returns the response text unchanged; a failing call returns exactly the Gemini error label followed by the exception text; the wrapper is total |
| `Providers.AnalyzeWithOpenRouterVision` | gauge_reader_app.py:83-89 | a successful call returns the message content unchanged; a failing call returns exactly the OpenRouter label for that model followed by the exception text; the wrapper is total |
| `Providers.ErrorPrefixFor` | gauge_reader_app.py:81-89 | a Gemini request's label is the line-81 label, an OpenRouter request's the line-89 label for its model; neither is empty |
| `Providers.Analyze` | gauge_reader_app.py:113-118 | Gemini is called iff the option is exactly the Gemini string; otherwise OpenRouter with meta-llama/llama-4-maverick; both send PNG, the given key, image and prompt; the result is the sent request's normalised outcome |
| `Providers.Display` | gauge_reader_app.py:120 | a non-empty result is shown as is; `""` and `None` show the sentinel; what is shown is never empty |
| `Providers.FailureIsNeverTheSentinel` | gauge_reader_app.py:81-120 | a provider failure is shown with its label, the exception text follows the label, and it is never the sentinel |
| `Providers.EmptyAnswerIsTheSentinel` | gauge_reader_app.py:113-120 | an empty or missing response is shown as the sentinel, whichever provider gave it |
| `GaugeReaderApp.CheckApiKey` | gauge_reader_app.py:52-62 | Gemini's key is used exactly for the Gemini option, OpenRouter's otherwise; the page stops iff that key is absent or empty; a key that passes is non-empty |
| `GaugeReaderApp.PageSession` | gauge_reader_app.py:31-101 | after a run the store is initialised and its keys are the defaulted previous ones |
| `GaugeReaderApp.PageSessionIsReplay` | gauge_reader_app.py:52-101 | a run past the key check with an upload changes the session as replaying its upload and optional rotation does |
| `GaugeReaderApp.AfterPages` | gauge_reader_app.py:31-101 | after any non-empty series of runs the store is initialised |
| `GaugeReaderApp.PagesKeepQuarterTurns` | gauge_reader_app.py:31-101 | over any series of runs the angle stays among 0, 90, 180 and 270 |
| `GaugeReaderApp.RunPage` | gauge_reader_app.py:31-120 | a missing key stops the run with no dispatch; no upload shows nothing more; an analysis sends one request with the selected provider's non-empty key, the image turned by the session angle as PNG, and the composed prompt, and shows its normalised result |
| `GaugeReaderApp.EchoScenario` | gauge_reader_app.py:93-120 | three runs (upload; rotate with the option ticked; analyse) with a prompt-echoing provider: the image goes out at 90 degrees and the shown text holds the template and the clause |
| `GaugeReaderApp.MissingKeyScenario` | gauge_reader_app.py:52-62 | with no OpenRouter key, the Llama option stops the page and the session holds only the defaults |

## Left out

- Streamlit rendering: page setup, title, sidebar, widgets, spinner, captions and markdown (lines 20-27, 42-48, 92, 98-107, 119). Widget values are inputs of `RunPage`; `st.stop()` is a `KeyMissingWarning` outcome after which nothing else happens.
- Image handling by PIL: decoding, `rotate(-angle, expand=True)` and PNG encoding (lines 97, 104, 110-112). The image is a token that records the upload id and the clockwise angle it is turned by. Pixels and dimensions, including the width/height swap at 90 and 270 degrees, are not modelled.
- The provider clients: `genai.configure`, `GenerativeModel.generate_content`, `openai.OpenAI(...)`, the base URL and the headers (lines 77-79, 86-88). They are the uninterpreted `remote`. Latency, timeouts and what any exception contains are not modelled.
- Base64 encoding and the data-URL text (lines 85, 87). The request records the data URL's media type, `image/png`, but not the encoded bytes.
- The library import checks (lines 7-16): environment set-up.
- Storing keys: saving, clearing and persisting them in browser storage. This is done by `pages/1_🔑_API_Key_Settings.py`, which is not part of this model. The page modelled here only reads the keys, so they are fields a caller may set.
- Concurrent sessions and overlapping reruns: Streamlit runs one script run per session at a time, and the model runs one `RunPage` at a time.
