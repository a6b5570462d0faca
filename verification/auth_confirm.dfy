/**
 * The e-mail confirmation route of the web app (web/app/auth/confirm/route.ts):
 * the sanitiser for the `next` query parameter and the redirect decision of
 * the GET handler. Supabase's `verifyOtp` is a parameter of the decision, and
 * the error-page URL built with `encodeURIComponent` is represented by the
 * message it carries.
 */
module AuthConfirm {
  import opened Wrappers

  predicate StartsWith(s: string, prefix: string) {
    |prefix| <= |s| && s[..|prefix|] == prefix
  }

  /**
   * A path that begins with exactly one "/": its second character is not
   * another "/" (a leading "//" makes a network-path reference, section 4.2
   * of RFC 3986, which names another host). Nothing after the second
   * character is looked at.
   */
  predicate IsLocalPath(p: string) {
    |p| >= 1 && p[0] == '/' && (|p| == 1 || p[1] != '/')
  }

  /** getSafeRedirectPath: keep `path` when it is a local path, otherwise fall back to "/". */
  function SafeRedirectPath(path: Option<string>): (r: string)
    ensures IsLocalPath(r)
    ensures path.Some? && IsLocalPath(path.value) ==> r == path.value
    ensures path.None? || !IsLocalPath(path.value) ==> r == "/"
  {
    if path.None? || path.value == "" then "/"
    else if !StartsWith(path.value, "/") || StartsWith(path.value, "//") then "/"
    else path.value
  }

  /** Sanitising an already sanitised path changes nothing. */
  lemma SafeRedirectPathIdempotent(path: Option<string>)
    ensures SafeRedirectPath(Some(SafeRedirectPath(path))) == SafeRedirectPath(path)
  {
  }

  /** What `supabase.auth.verifyOtp` reports: no error, or an error whose `message` may be missing. */
  datatype VerifyResult = Verified | VerifyError(message: Option<string>)

  /** Where the handler redirects: to a path of this site, or to /auth/error with a message. */
  datatype Redirect = RedirectTo(path: string) | ErrorPage(message: string)

  /** A query parameter counts as given when it is present and not empty (JavaScript truthiness). */
  predicate Given(param: Option<string>) {
    param.Some? && param.value != ""
  }

  /**
   * GET: verify the token when both `token_hash` and `type` are given and
   * redirect to the sanitised `next`; otherwise, or when verification fails,
   * redirect to the error page.
   */
  function Confirm(tokenHash: Option<string>, otpType: Option<string>, next: Option<string>,
                   verifyOtp: (string, string) -> VerifyResult): (r: Redirect)
    ensures !Given(tokenHash) || !Given(otpType) ==> r == ErrorPage("No token hash or type")
    ensures Given(tokenHash) && Given(otpType) && verifyOtp(otpType.value, tokenHash.value).Verified? ==>
      r == RedirectTo(SafeRedirectPath(next))
    ensures Given(tokenHash) && Given(otpType) && verifyOtp(otpType.value, tokenHash.value).VerifyError? ==>
      var m := verifyOtp(otpType.value, tokenHash.value).message;
      r == ErrorPage(if m.Some? then m.value else "Unknown verification error")
    ensures r.RedirectTo? ==> IsLocalPath(r.path)
  {
    var safeNext := SafeRedirectPath(next);
    if Given(tokenHash) && Given(otpType) then
      match verifyOtp(otpType.value, tokenHash.value)
      case Verified => RedirectTo(safeNext)
      case VerifyError(message) =>
        ErrorPage(if message.Some? then message.value else "Unknown verification error")
    else
      ErrorPage("No token hash or type")
  }
}
