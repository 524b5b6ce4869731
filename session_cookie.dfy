/** The session cookie both `handleAuthentication` variants issue: the
    token guard, the exact cookie string, and its seven-day expiry. Dates are
    day numbers; `toUtc` stands for `Date.prototype.toUTCString`. */
module SessionCookie {
  import opened Wrappers
  import opened Environment
  import Middleware

  const CookieName: string := "auth_token"
  const ExpiresDays: int := 7
  const NoTokenMessage: string := "Authentication failed. No token received."

  /** The string assigned to `document.cookie`. */
  function CookieString(token: string, expires: string): string {
    CookieName + "=" + token + "; expires=" + expires + "; path=/; SameSite=Strict"
  }

  /** A position found by `IndexOf` is the first occurrence. */
  lemma IndexOfIsFirst(s: string, c: char, i: nat)
    requires i < |s| && s[i] == c
    requires forall j :: 0 <= j < i ==> s[j] != c
    ensures IndexOf(s, c) == i
  {
  }

  /** The browser reads the cookie string back as `auth_token` set to the
      token, for any token without a `;`. */
  lemma {:induction false} CookieStringRoundTrip(token: string, expires: string)
    requires ';' !in token
    ensures ParseCookieAssignment(CookieString(token, expires)) == Some((CookieName, token))
  {
    var c := CookieString(token, expires);
    var head := CookieName + "=" + token;
    assert c == head + "; expires=" + expires + "; path=/; SameSite=Strict";
    assert c[|head|] == ';';
    forall j | 0 <= j < |head| ensures c[j] != ';' {
      assert c[j] == head[j];
      if j > |CookieName| { assert head[j] == token[j - |CookieName| - 1]; }
    }
    IndexOfIsFirst(c, ';', |head|);
    var pair := c[..|head|];
    assert pair == head;
    IndexOfIsFirst(pair, '=', |CookieName|);
    assert pair[..|CookieName|] == CookieName;
    assert pair[|CookieName| + 1..] == token;
  }

  /** The guard and cookie write of `handleAuthentication`: a falsy token
      throws "Authentication failed. No token received." and writes nothing;
      any other token writes the cookie once, expiring seven days from
      `today`, and the jar then holds the token. */
  function IssueCookie(token: Option<string>, today: int, toUtc: int -> string): (r: (Outcome, seq<Effect>))
    ensures r.0.Pass? <==> Truthy(token)
    ensures r.0.Fail? ==> r.0.error == Error(NoTokenMessage) && r.1 == []
    ensures r.0.Pass? ==> r.1 == [CookieWrite(CookieString(token.value, toUtc(today + ExpiresDays)))]
    ensures r.0.Pass? && ';' !in token.value ==>
      CookieName in Jar(r.1) && Jar(r.1)[CookieName] == token.value
  {
    if !Truthy(token) then (Fail(Error(NoTokenMessage)), [])
    else
      var writes := [CookieWrite(CookieString(token.value, toUtc(today + ExpiresDays)))];
      if ';' !in token.value then
        CookieStringRoundTrip(token.value, toUtc(today + ExpiresDays));
        assert writes[..0] == [];
        (Pass, writes)
      else (Pass, writes)
  }

  /** A cookie write after any run of effects leaves `auth_token` set to
      the issued token, and the gate then lets every request through. */
  lemma {:induction false} IssuedCookieAdmits(before: seq<Effect>, token: string, expires: string, url: Middleware.Url)
    requires token != "" && ';' !in token
    ensures var jar := Jar(before + [CookieWrite(CookieString(token, expires))]);
      CookieName in jar && jar[CookieName] == token &&
      Middleware.Decide(Middleware.Request(url, jar)) == Middleware.Next
  {
    var effects := before + [CookieWrite(CookieString(token, expires))];
    CookieStringRoundTrip(token, expires);
    assert effects[..|effects| - 1] == before;
  }

  /** Effects that write no cookie leave the jar as it was. */
  lemma {:induction false} JarIgnoresOtherEffects(before: seq<Effect>, after: seq<Effect>)
    requires forall i :: 0 <= i < |after| ==> !after[i].CookieWrite?
    ensures Jar(before + after) == Jar(before)
    decreases |after|
  {
    if after == [] {
      assert before + after == before;
    } else {
      var n := |after| - 1;
      JarIgnoresOtherEffects(before, after[..n]);
      var all := before + after;
      assert all[..|all| - 1] == before + after[..n];
      assert all[|all| - 1] == after[n];
    }
  }
}
