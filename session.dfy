/**
 * The upload/analysis session of the App component as a pure state machine:
 * the five state cells, the file-change handler, and the upload handler split
 * at its `await` into a start and a completion.
 */
module Session {
  import opened Js
  import opened Browser

  /** The parsed body of a successful analysis; every key may be missing. */
  datatype Analysis = Analysis(
    score: Option<real>,
    review: Option<map<string, string>>,
    tips: Option<seq<string>>)

  /**
   * How the one POST of an upload ends. `Ok(None)` is an OK response whose
   * body parses to JSON `null`; a body that does not parse is `Thrown`, like
   * a transport failure.
   */
  datatype Outcome =
    | NotOk(bodyText: string)
    | Ok(data: Option<Analysis>)
    | Thrown(message: string)

  /** The five state cells of the component. */
  datatype AppState = AppState(
    image: Option<File>,
    preview: Option<BlobUrl>,
    loading: bool,
    result: Option<Analysis>,
    error: Option<string>)

  const Initial: AppState := AppState(None, None, false, None, None)

  const UploadFailed: string := "Upload failed"
  const SomethingWentWrong: string := "Something went wrong"

  /**
   * The message the catch block stores when an upload fails. A non-OK
   * response throws an Error carrying the body text or "Upload failed"; the
   * catch block then falls back to "Something went wrong" on an empty message.
   */
  function FailureMessage(outcome: Outcome): (m: string)
    requires !outcome.Ok?
    ensures m != ""
    ensures outcome.NotOk? ==> m == if outcome.bodyText == "" then UploadFailed else outcome.bodyText
    ensures outcome.Thrown? ==> m == if outcome.message == "" then SomethingWentWrong else outcome.message
  {
    var thrown := if outcome.NotOk? then OrElse(outcome.bodyText, UploadFailed) else outcome.message;
    OrElse(thrown, SomethingWentWrong)
  }

  /**
   * `onFileChange`: no file leaves everything as it is; a file replaces the
   * image, clears result and error, and shows the URL minted with `serial`.
   * `loading` is never touched.
   */
  function Select(s: AppState, file: Option<File>, serial: nat): AppState {
    match file
    case None => s
    case Some(f) => s.(image := file, result := None, error := None, preview := Some(BlobUrl(f, serial)))
  }

  /** `onUpload` up to its `await`: nothing without an image, else loading with nothing shown. */
  function Start(s: AppState): AppState {
    if s.image.None? then s else s.(loading := true, error := None, result := None)
  }

  /** `onUpload` after its `await`: the try, catch and finally blocks. */
  function Settle(s: AppState, outcome: Outcome): AppState {
    match outcome
    case Ok(data) => s.(result := data, loading := false)
    case _ => s.(error := Some(FailureMessage(outcome)), loading := false)
  }

  /** What the user and the network can do to the page. */
  datatype Event =
    | Choose(file: Option<File>, serial: nat)  // a change event of the file input
    | Click                                    // a click on the Analyze button
    | Respond(outcome: Outcome)                // the pending request settles

  /**
   * One event. The Analyze button is disabled while loading, so a click then
   * does nothing; a response arrives only while a request is in flight, which
   * is exactly while loading. The file input is never disabled.
   */
  function Step(s: AppState, e: Event): AppState {
    match e
    case Choose(file, serial) => Select(s, file, serial)
    case Click => if s.loading then s else Start(s)
    case Respond(outcome) => if s.loading then Settle(s, outcome) else s
  }

  function Run(s: AppState, events: seq<Event>): AppState
    decreases |events|
  {
    if events == [] then s else Run(Step(s, events[0]), events[1..])
  }

  /**
   * The invariant of every reachable state: result and error are never both
   * shown, nothing is shown while loading, an error is never empty, and the
   * preview is a URL of the selected image.
   */
  predicate Consistent(s: AppState) {
    && !(s.result.Some? && s.error.Some?)
    && (s.loading ==> s.image.Some? && s.result.None? && s.error.None?)
    && (s.error.Some? ==> s.error.value != "")
    && (s.image.Some? <==> s.preview.Some?)
    && (s.preview.Some? ==> s.preview.value.file == s.image.value)
  }

  lemma InitialConsistent()
    ensures Consistent(Initial)
  {
  }

  /**
   * A completion of a request in flight ends loading and shows the parsed
   * body or a non-empty message, never both; only an OK `null` body shows
   * neither. Image and preview are kept.
   */
  lemma SettleEffect(s: AppState, outcome: Outcome)
    requires Consistent(s) && s.loading
    ensures var t := Settle(s, outcome);
      && !t.loading
      && t.image == s.image && t.preview == s.preview
      && (outcome.Ok? ==> t.result == outcome.data && t.error.None?)
      && (!outcome.Ok? ==> t.result.None? && t.error == Some(FailureMessage(outcome)))
      && (t.result.Some? || t.error.Some? <==> outcome != Ok(None))
      && !(t.result.Some? && t.error.Some?)
  {
  }

  lemma StepPreservesConsistent(s: AppState, e: Event)
    requires Consistent(s)
    ensures Consistent(Step(s, e))
  {
  }

  /** Every state the page can reach from its first render satisfies the invariant. */
  lemma {:induction false} RunPreservesConsistent(s: AppState, events: seq<Event>)
    requires Consistent(s)
    ensures Consistent(Run(s, events))
    decreases |events|
  {
    if events != [] {
      StepPreservesConsistent(s, events[0]);
      RunPreservesConsistent(Step(s, events[0]), events[1..]);
    }
  }

  predicate ChoosesAFile(e: Event) {
    e.Choose? && e.file.Some?
  }

  /**
   * After any non-empty run of file selections the last file is the image,
   * its URL is the preview, nothing is shown, and `loading` is as before.
   */
  lemma {:induction false} ChoicesEndSelected(s: AppState, events: seq<Event>)
    requires events != []
    requires forall i :: 0 <= i < |events| ==> ChoosesAFile(events[i])
    ensures var t, last := Run(s, events), events[|events| - 1];
      && ChoosesAFile(last)
      && t.image == last.file
      && t.preview == Some(BlobUrl(last.file.value, last.serial))
      && t.result.None? && t.error.None?
      && t.loading == s.loading
    decreases |events|
  {
    var rest := events[1..];
    if rest != [] {
      assert forall i :: 0 <= i < |rest| ==> ChoosesAFile(rest[i]) by {
        forall i | 0 <= i < |rest| ensures ChoosesAFile(rest[i]) {
          assert rest[i] == events[i + 1];
        }
      }
      ChoicesEndSelected(Step(s, events[0]), rest);
      assert events[|events| - 1] == rest[|rest| - 1];
    }
  }

  /** Selecting a file, clicking Analyze and receiving the response, from the first render. */
  lemma OneUpload(f: File, serial: nat, outcome: Outcome)
    ensures Run(Initial, [Choose(Some(f), serial), Click, Respond(outcome)]) ==
      AppState(Some(f), Some(BlobUrl(f, serial)), false,
        if outcome.Ok? then outcome.data else None,
        if outcome.Ok? then None else Some(FailureMessage(outcome)))
  {
    var s1 := Step(Initial, Choose(Some(f), serial));
    var s2 := Step(s1, Click);
    assert Run(Initial, [Choose(Some(f), serial), Click, Respond(outcome)])
      == Run(s1, [Click, Respond(outcome)]);
    assert Run(s1, [Click, Respond(outcome)]) == Run(s2, [Respond(outcome)]);
  }

  /**
   * The file input is not disabled during an upload: choosing another file
   * then changes the image, and the response for the earlier file is still
   * stored as the result shown beside the new preview.
   */
  lemma ResponseOutlivesReselection(f: File, g: File, m: nat, n: nat, a: Analysis)
    ensures var t := Run(Initial, [Choose(Some(f), m), Click, Choose(Some(g), n), Respond(Ok(Some(a)))]);
      t.image == Some(g) && t.preview == Some(BlobUrl(g, n)) && t.result == Some(a)
  {
    var s1 := Step(Initial, Choose(Some(f), m));
    var s2 := Step(s1, Click);
    var s3 := Step(s2, Choose(Some(g), n));
    assert Run(Initial, [Choose(Some(f), m), Click, Choose(Some(g), n), Respond(Ok(Some(a)))])
      == Run(s1, [Click, Choose(Some(g), n), Respond(Ok(Some(a)))]);
    assert Run(s1, [Click, Choose(Some(g), n), Respond(Ok(Some(a)))])
      == Run(s2, [Choose(Some(g), n), Respond(Ok(Some(a)))]);
    assert Run(s2, [Choose(Some(g), n), Respond(Ok(Some(a)))]) == Run(s3, [Respond(Ok(Some(a)))]);
    assert Run(s3, [Respond(Ok(Some(a)))]) == Run(Step(s3, Respond(Ok(Some(a)))), []);
  }
}
