# Photo analysis session controller, modelled in Dafny

This project models the controller inside the `App` component of a small React front end. The user picks a photo, which is previewed through a `blob:` URL. A click on Analyze sends the photo as a multipart POST to `{backend}/analyze`. The answer is a score, notes on five facial features and a list of tips, or an error message.

The component owns five state cells: `image`, `preview`, `loading`, `result` and `error`. Two handlers change them: `onFileChange` and `onUpload`. The model has six modules:

- `Js`: `null`-able values (`Option`) and JavaScript's `||` applied to strings (`OrElse`).
- `Browser`: opaque file handles, `blob:` URLs, and `BlobStore`, the page's object-URL registry. `BlobStore` stands in for `URL.createObjectURL`; nothing in the application ever revokes a URL from it.
- `Endpoint`: the backend base URL (the build-time setting, else `http://localhost:8000`) and the `/analyze` target.
- `Session`: the controller as a pure state machine. It has the handlers' effects (`Select`, `Start`, `Settle`), runs of user and network events (`Step`, `Run`), and the invariant `Consistent` that every reachable state keeps.
- `AppComponent`: the class `App`. It has the five cells as fields. `OnFileChange` models `onFileChange`. The upload handler is split at its `await` into `StartAnalysis` (the guard, the cell updates and the request) and `Complete(outcome)` (the try, catch and finally blocks). Each method's postcondition ties the new cells to the `Session` function of the old ones.
- `ResultView`: the results card. It shows the score as given, five feature boxes in a fixed order and the tips numbered in their order.

The network call is replaced by an `Outcome`:
- `NotOk(bodyText)`: a non-OK response and its body text.
- `Ok(data)`: an OK response whose body parsed. `data` is `None` when the body is JSON `null`.
- `Thrown(message)`: a transport failure, a failure to read the body text of a non-OK response, or an OK body that does not parse.

A non-OK response sets `error` to the body text, or to "Upload failed" when the body is empty. A thrown failure sets `error` to its message, or to "Something went wrong" when the message is empty. An OK response stores the parsed body unchanged, with no check of the score. An OK body of `null` therefore leaves both `result` and `error` empty. `SettleEffect` states exactly this case.

The Analyze button is disabled while `loading` (src/App.jsx:70). So `StartAnalysis` requires `!loading`, and `Complete` requires `loading`: at most one completion is pending. The file input is never disabled. Choosing a file during an upload replaces the image and preview, and the earlier file's response is still stored when it arrives (`ResponseOutlivesReselection`). The code never revokes preview URLs, so the model does not either: every URL `BlobStore` mints stays in `created`.

## Model

| member | source | states |
|---|---|---|
| `Js.OrElse` | src/App.jsx:36 | JavaScript `s || fallback` on a string: the string if non-empty, otherwise the fallback; non-empty whenever the fallback is |
| `Endpoint.Backend` | src/App.jsx:10 | the backend base is the setting when present and non-empty, otherwise `http://localhost:8000`; never empty |
| `Endpoint.AnalyzeUrl` | src/App.jsx:30 | the request target is the base followed by `/analyze` |
| `Browser.BlobStore.constructor` | src/App.jsx:18 | the page starts with no object URLs |
| `Browser.BlobStore.CreateObjectUrl` | src/App.jsx:18 | a URL for the given file that is not among the URLs minted before; it is added to the registry and never removed |
| `Session.FailureMessage` | src/App.jsx:34-41 | the stored error is never empty; for a non-OK response it is the body text, or "Upload failed" when that is empty; for a thrown failure it is the message, or "Something went wrong" when that is empty |
| `Session.InitialConsistent` | src/App.jsx:4-8 | the initial cells satisfy the invariant |
| `Session.SettleEffect` | src/App.jsx:34-44 | after a completion loading is false; OK stores the parsed body unchanged with no error; a failure stores the non-empty message with no result; result and error are never both set, and exactly one is set unless the OK body is `null` |
| `Session.StepPreservesConsistent` | src/App.jsx:12-45 | every handler keeps the invariant: no result and error at once, nothing shown while loading, errors non-empty, the preview is a URL of the image |
| `Session.RunPreservesConsistent` | src/App.jsx:4-45 | every sequence of file choices, clicks and responses keeps the invariant |
| `Session.ChoicesEndSelected` | src/App.jsx:12-20 | after any non-empty run of file choices, the last file is the image with its URL as preview, result and error are cleared and loading is as before |
| `Session.OneUpload` | src/App.jsx:12-45 | choose, click, respond from the first render ends with the file shown, loading off, and exactly the parsed body or the failure message stored |
| `Session.ResponseOutlivesReselection` | src/App.jsx:12-44 | a file chosen during an upload replaces image and preview, and the earlier upload's response is still stored as the result |
| `AppComponent.App.constructor` | src/App.jsx:4-10 | the cells start empty with loading off; the backend comes from the setting |
| `AppComponent.App.OnFileChange` | src/App.jsx:12-20 | no file: no cell and no URL changes; a file: it is stored, result and error are cleared, a URL not minted before is minted and shown as preview, loading is kept; the invariant is kept |
| `AppComponent.App.StartAnalysis` | src/App.jsx:22-33 | no image: no change and no request; otherwise loading on, error and result cleared, and one POST of the image under `file` to `{backend}/analyze` |
| `AppComponent.App.Complete` | src/App.jsx:34-44 | loading off; an OK body is stored as the result with no error; a failure stores the fallback-applied non-empty message with no result; image and preview kept |
| `ResultView.FeatureCards` | src/App.jsx:97-103 | exactly five boxes titled Jawline, Cheekbones, Eyes, Skin, Symmetry in that order, each with the review entry for its key or no text |
| `ResultView.NumberTips` | src/App.jsx:108-110 | one item per tip, in order, keyed by its position |
| `ResultView.Render` | src/App.jsx:94-110 | the score exactly as received, the five boxes, and the tips in order keyed 0, 1, …; no tips when the key is missing |
| `ResultView.ResultsCard` | src/App.jsx:90-116 | the results card is shown exactly when a result is stored, and it is that result rendered: its score, the five feature boxes and the numbered tips |
| `ResultView.SampleResponse` | src/App.jsx:94-110 | the response with score 7, a jawline note and one tip shows 7, the note under Jawline only, and the one tip |

## Left out

- JSX markup, styling, header, footer and disclaimer text: presentation only. The results card's content is modelled as data (`ResultView.View`), not as markup.
- `fetch`, `FormData`, `res.text()` and `res.json()`: browser APIs. The request is returned as a `Request` value, and what comes back is given to `Complete` as an `Outcome`.
- The content of the parsed body beyond `null` or an object with optional `score`, `review` and `tips`: a JSON number, string or array body, a `score` that is not a number (it would be shown as it is), and non-string review notes or tips, are not modelled.
- React's `useState` scheduling and re-rendering: the cells are plain fields updated in order.
- Overlapping uploads and interleaved completions: concurrency. The disabled button is modelled as the `!loading` precondition of `StartAnalysis`.
- `import.meta.env` lookup: the setting is passed in as an optional string.
- `Session.Run`: the serial of a `Choose` event is any number; that each selection gets a URL not minted before is stated by `Browser.BlobStore.CreateObjectUrl` and `AppComponent.App.OnFileChange`, not by the event model.
- `ResultView.Render`: the score is carried as a number; its text `{score}/10` is not modelled.
