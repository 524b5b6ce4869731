/** The page's outside world: `document.cookie`, the router, and the
    requests sent to the remote API, recorded as one ordered log of effects;
    and the browser's reading of a cookie assignment. */
module Environment {
  import opened Wrappers
  import UserRepository

  datatype Effect =
    | CookieWrite(assignment: string)                   // document.cookie = assignment
    | Navigate(path: string)                            // router.push(path)
    | CreateUserFetch(request: UserRepository.FetchRequest)
    | Authenticate(email: string, password: string)     // authenticateUser(email, password)

  /** What `await authenticateUser(email, password)` gives once `{ token }`
      is destructured from it: the token (absent when the body has none), or
      the error thrown, by the request or by destructuring an `undefined`
      response. */
  datatype AuthOutcome = Token(token: Option<string>) | Failed(error: Thrown)

  /** The document, the router and the network, as seen from the page. */
  class Browser {
    var effects: seq<Effect>

    constructor ()
      ensures effects == []
    {
      effects := [];
    }

    method Record(e: Effect)
      modifies this
      ensures effects == old(effects) + [e]
    {
      effects := effects + [e];
    }
  }

  /** The position of the first `c` in `s`, or `|s|` when there is none. */
  function IndexOf(s: string, c: char): (i: nat)
    ensures i <= |s|
    ensures i < |s| ==> s[i] == c
    ensures forall j :: 0 <= j < i ==> s[j] != c
  {
    if s == [] then 0
    else if s[0] == c then 0
    else 1 + IndexOf(s[1..], c)
  }

  /** How the browser reads an assignment to `document.cookie`: the text up
      to the first `;` is the name-value pair, split at its first `=`. */
  function ParseCookieAssignment(s: string): (r: Option<(string, string)>)
    ensures r.Some? ==> |r.value.0| + 1 + |r.value.1| <= |s|
    ensures r.Some? ==> s[..|r.value.0| + 1 + |r.value.1|] == r.value.0 + "=" + r.value.1
    ensures r.Some? ==> '=' !in r.value.0 && ';' !in r.value.0 + r.value.1
  {
    var pair := s[..IndexOf(s, ';')];
    var eq := IndexOf(pair, '=');
    if eq == |pair| then None
    else
      var r := (pair[..eq], pair[eq + 1..]);
      assert pair == r.0 + "=" + r.1;
      Some(r)
  }

  /** The cookie jar after a run of effects: each cookie write sets the
      named cookie; nothing else touches the jar. */
  function Jar(effects: seq<Effect>): map<string, string> {
    if effects == [] then map[]
    else
      var jar := Jar(effects[..|effects| - 1]);
      var last := effects[|effects| - 1];
      if last.CookieWrite? && ParseCookieAssignment(last.assignment).Some? then
        var (name, value) := ParseCookieAssignment(last.assignment).value;
        jar[name := value]
      else jar
  }

  /** The navigations in a run of effects, in order. */
  function Navigations(effects: seq<Effect>): (paths: seq<string>)
    ensures |paths| <= |effects|
    ensures forall p :: p in paths <==> Navigate(p) in effects
  {
    if effects == [] then []
    else
      var rest := Navigations(effects[1..]);
      assert forall e :: e in effects <==> e == effects[0] || e in effects[1..];
      if effects[0].Navigate? then [effects[0].path] + rest else rest
  }

  /** A run without a navigation effect has no navigations. */
  lemma {:induction false} NoNavigateNoNavigations(effects: seq<Effect>)
    requires forall i :: 0 <= i < |effects| ==> !effects[i].Navigate?
    ensures Navigations(effects) == []
  {
    if effects != [] {
      NoNavigateNoNavigations(effects[1..]);
    }
  }
}
