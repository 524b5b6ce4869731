/** `handleAuthentication(token, router, redirectPath)` of the shared
    library: the token guard, the cookie write, then navigation. */
module AuthUtils {
  import opened Wrappers
  import opened Environment
  import opened SessionCookie

  const DefaultRedirectPath: string := "/home"

  /** A falsy token throws, writes no cookie and does not navigate;
      otherwise the session cookie is written, expiring seven days from
      `today`, and only then the router goes to `redirectPath`. */
  method HandleAuthentication(page: Browser, token: Option<string>, today: int, toUtc: int -> string,
                              redirectPath: string := DefaultRedirectPath)
    returns (out: Outcome)
    modifies page
    ensures !Truthy(token) ==> out == Fail(Error(NoTokenMessage)) && page.effects == old(page.effects)
    ensures Truthy(token) ==> out == Pass
    ensures Truthy(token) ==>
      page.effects == old(page.effects) +
        [CookieWrite(CookieString(token.value, toUtc(today + ExpiresDays))), Navigate(redirectPath)]
  {
    if !Truthy(token) {
      return Fail(Error(NoTokenMessage));
    }
    var expires := today + ExpiresDays;
    page.Record(CookieWrite(CookieString(token.value, toUtc(expires))));
    page.Record(Navigate(redirectPath));
    return Pass;
  }
}
