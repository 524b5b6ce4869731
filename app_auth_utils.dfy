/** `handleAuthentication(token)` of the app library: the token guard and
    the cookie write, with no navigation. */
module AppAuthUtils {
  import opened Wrappers
  import opened Environment
  import opened SessionCookie

  /** A falsy token throws and leaves the page untouched; otherwise the
      session cookie is written, expiring seven days from `today`, and the
      function returns without navigating: callers must navigate themselves. */
  method HandleAuthentication(page: Browser, token: Option<string>, today: int, toUtc: int -> string)
    returns (out: Outcome)
    modifies page
    ensures !Truthy(token) ==> out == Fail(Error(NoTokenMessage)) && page.effects == old(page.effects)
    ensures Truthy(token) ==> out == Pass
    ensures Truthy(token) ==>
      page.effects == old(page.effects) + [CookieWrite(CookieString(token.value, toUtc(today + ExpiresDays)))]
    ensures (out, page.effects) == (IssueCookie(token, today, toUtc).0, old(page.effects) + IssueCookie(token, today, toUtc).1)
  {
    if !Truthy(token) {
      assert page.effects + [] == page.effects;
      return Fail(Error(NoTokenMessage));
    }
    var expires := today + ExpiresDays;
    page.Record(CookieWrite(CookieString(token.value, toUtc(expires))));
    return Pass;
  }
}
