# PicoArt result screen and style-transfer client, modelled in Dafny

PicoArt is a browser app. A user uploads a photo and picks an art style. The app
asks a backend to restyle the photo, polls the backend until the job is done, and
shows the result beside the original along with text about the style. This project
models the two pieces of decision logic in that flow and proves properties of them:

- **Result screen** (`result_screen.dfy`, module `ResultScreen`):
  - which education text is shown: the pre-authored text for the oriental styles,
    text generated from a prompt, or the fallback sentence;
  - which of the three prompt templates `buildPrompt` picks, and where the style
    name and the AI-chosen artist are spliced in;
  - the fallback sentence `이 작품은 <name> 스타일로 변환되었습니다.`;
  - the name of the downloaded file, `picoart-<styleId>-<timestamp>.jpg`.

  `generate2ndEducation` updates component state step by step. It is the class
  `EducationPanel`, whose fields are the two pieces of React state plus the list of
  prompts posted so far.
- **Style-transfer client** (`style_transfer_api.dfy`, module `StyleTransferApi`):
  - the width/height rule of `resizeImage`;
  - the choice of model configuration, with `SDXL` as the default;
  - the two request shapes;
  - the bounded polling loop `pollPrediction`, with at most 90 checks and progress
    capped at 95;
  - the way `processStyleTransfer` extracts the output URL and turns every error
    into `{success: false, error}`.

`common.dfy` holds `Option` and the `Style` record. `text.dfy` models three JavaScript
string operations: `toLowerCase` (on ASCII letters only), `includes` and rendering an
integer in decimal.

Network answers are inputs. The answer to the (n+1)-th status check is `script(n)`,
a total function. With it the loop can be stated for every possible sequence of
answers, with no precondition. The responses to the submit request, the education
request and the image download are also inputs. So are the timestamp (`Date.now()`),
the object URL of the downloaded blob, the encoded photo and the model configuration
map (`MODEL_CONFIG`, defined in a file that is not part of this model).

Two behaviours of the code are worth knowing:

- A category with no template gives the empty prompt, and the code still posts it
  (ResultScreen.jsx:32-41, 188). The same happens for an oriental id with no
  pre-authored text (`UnknownOrientalSendsEmptyPrompt`, and the `sentPrompts`
  postcondition of `Generate2ndEducation`).
- The pre-authored description is used only when it is a non-empty string, because
  of the `if (content)` test. Otherwise control falls through to the prompt path.

## Model

| member | source | states |
|---|---|---|
| `ResultScreen.GetOrientalEducation` | src/components/ResultScreen.jsx:65-92 | a text is returned exactly for the ids korean, chinese and japanese (null otherwise); korean gives the korean description, japanese the japanese one, chinese the gongbi or the ink-wash one |
| `ResultScreen.GongbiAnyCase` | src/components/ResultScreen.jsx:76-79 | for chinese, an artist label containing any upper/lower-case variant of "gongbi" selects the gongbi text |
| `ResultScreen.GongbiHangul` | src/components/ResultScreen.jsx:76-79 | for chinese, an artist label containing "공필" selects the gongbi text (lower-casing keeps the Hangul marker) |
| `ResultScreen.InkByDefault` | src/components/ResultScreen.jsx:76-83 | for chinese, a lowered label with neither marker selects the ink-wash text |
| `ResultScreen.MissingArtistIsInk` | src/components/ResultScreen.jsx:76-83 | for chinese, a missing artist label (treated as '') selects the ink-wash text |
| `ResultScreen.BuildPromptChoice` | src/components/ResultScreen.jsx:95-189 | ancient/byzantineIslamic give template A, the eight movements template B, masters template C, every other category (including oriental) the empty prompt |
| `ResultScreen.ExactlyOneTemplate` | src/components/ResultScreen.jsx:99-188 | for every category exactly one of: template A, template B, template C, the empty prompt |
| `ResultScreen.PeriodPromptNamesStyle` | src/components/ResultScreen.jsx:100-108 | template A contains the style name |
| `ResultScreen.PainterPromptNamesBoth` | src/components/ResultScreen.jsx:133-135 | template B contains both the style name and the painter label |
| `ResultScreen.MasterPromptNamesStyle` | src/components/ResultScreen.jsx:160-161 | template C contains the style name |
| `ResultScreen.BuildPromptSplicesNames` | src/components/ResultScreen.jsx:99-183 | every non-empty prompt contains the style name; a movement prompt contains the AI-selected artist when it is present |
| `ResultScreen.FallbackNamesStyle` | src/components/ResultScreen.jsx:192-194 | the fallback sentence is the fixed lead, then the style name, then the fixed tail; the name can be read back from it |
| `ResultScreen.FallbackInjective` | src/components/ResultScreen.jsx:192-194 | different style names give different fallback sentences |
| `ResultScreen.StaticEducation` | src/components/ResultScreen.jsx:21-29 | static text is used exactly when the category is oriental and the lookup gives a non-empty text, and it is that text |
| `ResultScreen.EducationSources` | src/components/ResultScreen.jsx:17-62 | static text exactly when pre-authored text exists; otherwise the generated text exactly when the reply is ok with success and non-empty text, else exactly the fallback sentence |
| `ResultScreen.KoreanJapaneseStatic` | src/components/ResultScreen.jsx:22-89 | a korean (japanese) oriental style with a non-empty korean (japanese) description shows that description whatever the network reply |
| `ResultScreen.ChineseStatic` | src/components/ResultScreen.jsx:22-83 | a chinese oriental style shows the gongbi text when the lowered label carries a marker and the ink-wash text otherwise, whatever the network reply |
| `ResultScreen.UnknownOrientalSendsEmptyPrompt` | src/components/ResultScreen.jsx:22-32 | an oriental id with no pre-authored text takes the request path, and its prompt is the empty string |
| `ResultScreen.NetworkErrorShowsFallback` | src/components/ResultScreen.jsx:55-58 | a failed request shows exactly "이 작품은 <name> 스타일로 변환되었습니다." |
| `ResultScreen.EducationPanel.constructor` | src/components/ResultScreen.jsx:9-10 | initial state: empty text, loading, nothing posted |
| `ResultScreen.EducationPanel.Generate2ndEducation` | src/components/ResultScreen.jsx:17-62 | loading is false on every path; the shown text is the outcome above; a prompt is posted exactly when no static text is used |
| `ResultScreen.DownloadFilenameFormat` | src/components/ResultScreen.jsx:204 | the filename is `picoart-` + styleId + `-` + decimal digits + `.jpg`, and the digits read back as the timestamp |
| `ResultScreen.DownloadFilenameInjective` | src/components/ResultScreen.jsx:204 | one style downloaded at two different times gets two different filenames |
| `Text.ToLower` | src/components/ResultScreen.jsx:76 | lowers each ASCII letter and keeps every other character, so the length is kept (the ASCII-only reading of `toLowerCase`) |
| `Text.LowerKeepsContains` | src/components/ResultScreen.jsx:76-78 | an occurrence in the label is still an occurrence, lowered, in the lowered label |
| `Text.NatToStringRoundTrip` | src/components/ResultScreen.jsx:204 | the decimal rendering of a timestamp, read back, is that timestamp |
| `StyleTransferApi.ResizeDimensions` | src/utils/styleTransferAPI.js:22-28 | the result width is at most maxWidth; a photo no wider than maxWidth is unchanged; a wider one gets width maxWidth with the aspect ratio kept |
| `StyleTransferApi.ModelKey` | src/utils/styleTransferAPI.js:48 | the key is the style's model when it is present and non-empty, and SDXL when it is absent or empty |
| `StyleTransferApi.GetModelForStyle` | src/utils/styleTransferAPI.js:47-50 | the configuration under the style's model key, absent exactly when the map lacks that key |
| `StyleTransferApi.DefaultsToSdxl` | src/utils/styleTransferAPI.js:48-49 | a style with no model or an empty model uses the SDXL entry |
| `StyleTransferApi.RequestFor` | src/utils/styleTransferAPI.js:151-155 | the template request (with the style's prompt) exactly when the model name contains "flux"; otherwise the AI-selection request carrying the whole style |
| `StyleTransferApi.HandleCheck` | src/utils/styleTransferAPI.js:111-123 | a check stops the loop exactly when it is not a continuing answer, with the matching result or error |
| `StyleTransferApi.PollPrediction` | src/utils/styleTransferAPI.js:101-133 | the loop makes 1 to 90 checks and returns exactly the run of the polling specification |
| `StyleTransferApi.ProgressRange` | src/utils/styleTransferAPI.js:126-128 | the i-th reported value of a stretch of continuing checks is the progress of that check |
| `StyleTransferApi.PollChecksBounded` | src/utils/styleTransferAPI.js:102-105 | the number of checks never exceeds 90 |
| `StyleTransferApi.PollStopsAtFirstTerminal` | src/utils/styleTransferAPI.js:105-129 | the loop ends at the first terminal answer, with that answer's outcome and progress reported for every earlier check |
| `StyleTransferApi.PollTimesOut` | src/utils/styleTransferAPI.js:105-132 | if every remaining answer continues, the loop raises the timeout after exactly 90 checks |
| `StyleTransferApi.PendingThenSucceeded` | src/utils/styleTransferAPI.js:105-119 | answers `[pending]*k ++ [succeeded]` with k+1 <= 90 return the succeeded prediction after exactly k+1 checks |
| `StyleTransferApi.FailsFast` | src/utils/styleTransferAPI.js:111-123 | a failed status or a not-ok answer raises its error at once; no later check is made |
| `StyleTransferApi.AllPendingTimesOut` | src/utils/styleTransferAPI.js:102-132 | 90 pending answers mean "Processing timeout" after 90 checks, with no 91st check |
| `StyleTransferApi.FirstTerminal` | src/utils/styleTransferAPI.js:105-123 | if some answer before the 90th is terminal, there is a first one, and every answer before it continues |
| `StyleTransferApi.PollOutcomes` | src/utils/styleTransferAPI.js:101-133 | every run stops either at the first terminal answer with that answer's outcome, or at the 90th check with the timeout |
| `StyleTransferApi.ProgressReports` | src/utils/styleTransferAPI.js:125-129 | progress is reported once per continuing answer only, equals min(95, 10 + attempts), lies in [11, 95] and never decreases |
| `StyleTransferApi.PollReadsOnlyItsChecks` | src/utils/styleTransferAPI.js:105-109 | the run depends only on the answers to the checks it made |
| `StyleTransferApi.ResultUrl` | src/utils/styleTransferAPI.js:165-169 | the URL is output[0] for an array and output otherwise; it is absent exactly when that value is missing or empty |
| `StyleTransferApi.ProcessStyleTransfer` | src/utils/styleTransferAPI.js:136-199 | the sequential flow returns exactly the request and result of the transfer specification |
| `StyleTransferApi.TransferRequestShape` | src/utils/styleTransferAPI.js:143-155 | no request without a configuration; otherwise the request shape follows "flux" in the model name |
| `StyleTransferApi.TransferSuccess` | src/utils/styleTransferAPI.js:158-190 | success exactly when every step succeeds; it then carries the remote URL, the local URL, the model and aiSelectedArtist = selected_artist |
| `StyleTransferApi.PollDoneSucceeded` | src/utils/styleTransferAPI.js:160-162 | a prediction the loop returns always has status succeeded, so the re-check after polling never fires |
| `StyleTransferApi.TransferErrors` | src/utils/styleTransferAPI.js:158-197 | every error ends as the failure result with its message: a missing configuration gives the TypeError stand-in, a rejected submit, a loop error and a rejected image fetch pass their message through, a not-ok submit gives "FLUX API error: <status>", a missing URL gives "No result image"; "Processing did not succeed" never comes from the client itself |

## Left out

- JSX rendering, the CSS block and the `showInfo` toggle: these are presentation only.
- `fetch`, `FileReader`, `Image` and canvas drawing, `toBlob`, `URL.createObjectURL`/`revokeObjectURL`, the link click in `handleDownload`, `navigator.share`, the clipboard and `alert`: browser I/O. Their results are inputs. The download and share error alerts are not modelled.
- `sleep(2000)` and the 3-minute timing of the loop; `mockStyleTransfer` and its `setInterval`: timer-driven behaviour.
- No cancellation is modelled, and neither is interleaving with other event-loop work. The education flow and the transfer flow are modelled separately.
- The Korean prompt bodies are placeholder constants. Only which template is chosen, and where the style name and artist are spliced in, follow the code.
- The oriental descriptions and `MODEL_CONFIG` are inputs, because they are defined in files that are not part of this model.
- The `onProgress` messages are not modelled as text. The loop's progress is returned as the list of percentages it would format. The model does not distinguish whether `onProgress` is supplied.
- `console.error` logging is not modelled. The education endpoint's HTTP status is not modelled either, because it appears only in a message that is never returned.
- `ResizeDimensions`: works on exact reals. It leaves out the browser's integer truncation when the canvas size is assigned, the JPEG quality 0.95 and the drawing itself.
- `resizeImage` never settles when the image fails to load, because it has no `onerror` handler. The model assumes the photo loads.
- `ToLower` (in `Text`): folds only the ASCII letters and keeps every other character unchanged. JavaScript's `toLowerCase` follows the full Unicode case mapping, which can change other letters and even the length. For example `"GONGBİ"` (with U+0130) lowers to `"gongbi̇"`, which contains `gongbi`, so the code picks the gongbi text while the model picks the ink-wash text. The model covers only artist labels whose non-ASCII characters have no lower-case mapping, such as Hangul.
- `MissingConfigError`: a response for a model key missing from the configuration fails with a fixed message. That message stands in for the runtime's TypeError text, which depends on the JavaScript engine.
- Network failures (`fetch` or `json()` rejecting) carry their runtime message as data. Responses that are not strings or objects of the expected shape are not modelled.
- `applyStyleTransfer` is only an alias of `processStyleTransfer`, so it has no separate member.
