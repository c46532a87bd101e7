/** Where the photo is sent: the configured backend and the analysis route. */
module Endpoint {
  import opened Js

  const DefaultBackend: string := "http://localhost:8000"
  const AnalyzePath: string := "/analyze"

  /**
   * The backend base URL: the build-time setting when it is present and not
   * empty, otherwise the local development server (JavaScript `||`).
   */
  function Backend(setting: Option<string>): (base: string)
    ensures base != ""
    ensures setting.Some? && setting.value != "" ==> base == setting.value
    ensures setting.None? || setting.value == "" ==> base == DefaultBackend
  {
    OrElse(setting.GetOr(""), DefaultBackend)
  }

  /** The target of the upload request: the base followed by `/analyze`. */
  function AnalyzeUrl(base: string): (url: string)
    ensures |url| == |base| + |AnalyzePath|
    ensures url[..|base|] == base
    ensures url[|base|..] == "/analyze"
  {
    base + AnalyzePath
  }
}
