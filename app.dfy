/**
 * The App component's controller: the five state cells as fields and the two
 * event handlers as methods, the upload handler split at its `await`.
 */
module AppComponent {
  import opened Js
  import opened Browser
  import opened Session
  import Endpoint

  /** The one request an upload sends: a multipart POST with the image under `file`. */
  datatype Request = Request(verb: string, url: string, field: string, file: File)

  class App {
    /** The backend base URL, fixed when the component is set up. */
    const backend: string

    var image: Option<File>
    var preview: Option<BlobUrl>
    var loading: bool
    var result: Option<Analysis>
    var error: Option<string>

    function Snapshot(): AppState
      reads this
    {
      AppState(image, preview, loading, result, error)
    }

    ghost predicate Valid()
      reads this
    {
      Consistent(Snapshot())
    }

    /** The first render: every cell at its initial value; `setting` is the build-time backend URL. */
    constructor (setting: Option<string>)
      ensures Valid()
      ensures backend == Endpoint.Backend(setting)
      ensures Snapshot() == Initial
    {
      backend := Endpoint.Backend(setting);
      image, preview, loading, result, error := None, None, false, None, None;
    }

    /** `onFileChange`; `urls` is the page's object-URL registry. */
    method OnFileChange(file: Option<File>, urls: BlobStore)
      requires Valid() && urls.Valid()
      modifies this, urls
      ensures Valid() && urls.Valid()
      ensures Snapshot() == Select(old(Snapshot()), file, |old(urls.created)|)
      ensures file.None? ==> unchanged(this) && unchanged(urls)
      ensures file.Some? ==> && image == file && result.None? && error.None? && loading == old(loading)
                             && preview == Some(BlobUrl(file.value, |old(urls.created)|))
                             && urls.created == old(urls.created) + [file.value]
                             && preview.value !in old(urls.minted) && urls.minted == old(urls.minted) + {preview.value}
    {
      if file.None? {
        return;
      }
      image := file;
      result := None;
      error := None;
      var url := urls.CreateObjectUrl(file.value);
      preview := Some(url);
    }

    /**
     * `onUpload` up to its `await`. The Analyze button is disabled while
     * loading, so it is never started then. Returns the request it sends.
     */
    method StartAnalysis() returns (request: Option<Request>)
      requires Valid() && !loading
      modifies this
      ensures Valid()
      ensures Snapshot() == Start(old(Snapshot()))
      ensures old(image).None? ==> unchanged(this) && request.None?
      ensures old(image).Some? ==> && loading && error.None? && result.None?
                                   && image == old(image) && preview == old(preview)
                                   && request == Some(Request("POST", Endpoint.AnalyzeUrl(backend), "file", old(image).value))
    {
      if image.None? {
        return None;
      }
      loading := true;
      error := None;
      result := None;
      request := Some(Request("POST", Endpoint.AnalyzeUrl(backend), "file", image.value));
    }

    /** `onUpload` after its `await`: the try, catch and finally blocks for one outcome. */
    method Complete(outcome: Outcome)
      requires Valid() && loading
      modifies this
      ensures Valid()
      ensures Snapshot() == Settle(old(Snapshot()), outcome)
      ensures !loading && image == old(image) && preview == old(preview)
      ensures outcome.Ok? ==> result == outcome.data && error.None?
      ensures !outcome.Ok? ==> result.None? && error == Some(FailureMessage(outcome)) && error.value != ""
    {
      var thrown: Option<string> := None;
      match outcome {
        case NotOk(text) =>
          thrown := Some(OrElse(text, UploadFailed));
        case Ok(data) =>
          result := data;
        case Thrown(message) =>
          thrown := Some(message);
      }
      if thrown.Some? {
        error := Some(OrElse(thrown.value, SomethingWentWrong));
      }
      loading := false;
    }
  }
}
