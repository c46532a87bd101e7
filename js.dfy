/** Values of the JavaScript runtime that the controller relies on. */
module Js {

  /** `null`/`undefined` versus a present value. */
  datatype Option<+T> = None | Some(value: T) {
    function GetOr(default: T): T {
      match this
      case Some(v) => v
      case None => default
    }
  }

  /**
   * JavaScript's `s || fallback` where `s` is a string: the empty string is
   * falsy, so it is replaced by the fallback; any other string is kept.
   */
  function OrElse(s: string, fallback: string): (r: string)
    ensures r == s || r == fallback
    ensures s != "" ==> r == s
    ensures s == "" ==> r == fallback
    ensures fallback != "" ==> r != ""
  {
    if s != "" then s else fallback
  }
}
