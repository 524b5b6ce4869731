/** zod validation issues and the fold both forms use to turn a failed
    parse into a field-to-message map. */
module ValidationIssues {
  import opened Wrappers

  /** One zod issue: the path into the parsed object and its message. */
  datatype Issue = Issue(path: seq<string>, message: string)

  /** The `formData` of the login form, and the object the login schemas parse. */
  datatype LoginFormData = LoginFormData(email: string, password: string)

  /** The `formData` of the register form, and the object the register
      schemas parse (a schema without a `confirmPassword` key ignores it). */
  datatype RegisterFormData = RegisterFormData(name: string, email: string, password: string, confirmPassword: string)

  /** The issues of a field schema placed at one path, in order. */
  function AtPath(path: seq<string>, messages: seq<string>): (r: seq<Issue>)
    ensures |r| == |messages|
    ensures forall i :: 0 <= i < |r| ==> r[i] == Issue(path, messages[i])
  {
    seq(|messages|, i requires 0 <= i < |messages| => Issue(path, messages[i]))
  }

  /** A schema over values of type T: the issues its parse reports, in
      order. The parse succeeds exactly when there are none. */
  type Schema<!T> = T -> seq<Issue>

  /** The key `curr.path[0]` contributes, if it is truthy. */
  function KeyOf(i: Issue): Option<string> {
    if |i.path| > 0 && i.path[0] != "" then Some(i.path[0]) else None
  }

  /** Reference definition of "last one wins": the message of the last issue
      whose first path segment is `k`, if any. */
  function LastKeyed(issues: seq<Issue>, k: string): Option<string> {
    if issues == [] then None
    else
      var later := LastKeyed(issues[1..], k);
      if later.Some? then later
      else if KeyOf(issues[0]) == Some(k) then Some(issues[0].message)
      else None
  }

  /** `LastKeyed` names a message exactly when some issue carries the key,
      and the message it names belongs to an issue that no later issue with
      the same key follows. */
  lemma {:induction false} LastKeyedIsLast(issues: seq<Issue>, k: string)
    ensures LastKeyed(issues, k).Some? <==> exists j :: 0 <= j < |issues| && KeyOf(issues[j]) == Some(k)
    ensures LastKeyed(issues, k).Some? ==>
      exists j :: 0 <= j < |issues| && KeyOf(issues[j]) == Some(k) &&
        issues[j].message == LastKeyed(issues, k).value &&
        forall j' :: j < j' < |issues| ==> KeyOf(issues[j']) != Some(k)
  {
    if issues != [] {
      var tail := issues[1..];
      LastKeyedIsLast(tail, k);
      var later := LastKeyed(tail, k);
      if later.Some? {
        var j :| 0 <= j < |tail| && KeyOf(tail[j]) == Some(k) && tail[j].message == later.value &&
          forall j' :: j < j' < |tail| ==> KeyOf(tail[j']) != Some(k);
        assert issues[j + 1] == tail[j];
        forall j' | j + 1 < j' < |issues| ensures KeyOf(issues[j']) != Some(k) {
          assert issues[j'] == tail[j' - 1];
        }
      } else if KeyOf(issues[0]) == Some(k) {
        forall j' | 0 < j' < |issues| ensures KeyOf(issues[j']) != Some(k) {
          assert issues[j'] == tail[j' - 1];
        }
      } else {
        forall j | 0 <= j < |issues| ensures KeyOf(issues[j]) != Some(k) {
          if j > 0 { assert issues[j] == tail[j - 1]; }
        }
      }
    }
  }

  /** `issues.reduce((acc, curr) => { if (curr.path[0]) acc[curr.path[0]] = curr.message; return acc }, acc)` */
  function FoldIssues(acc: map<string, string>, issues: seq<Issue>): map<string, string>
    decreases |issues|
  {
    if issues == [] then acc
    else
      var key := KeyOf(issues[0]);
      var acc' := if key.Some? then acc[key.value := issues[0].message] else acc;
      FoldIssues(acc', issues[1..])
  }

  /** Folding keeps every key of the start map that no issue overwrites and
      gives each issued key the message of its last issue. */
  lemma {:induction false} FoldIssuesLastWins(acc: map<string, string>, issues: seq<Issue>, k: string)
    ensures k in FoldIssues(acc, issues) <==> LastKeyed(issues, k).Some? || k in acc
    ensures k in FoldIssues(acc, issues) ==>
      FoldIssues(acc, issues)[k] == if LastKeyed(issues, k).Some? then LastKeyed(issues, k).value else acc[k]
    decreases |issues|
  {
    if issues != [] {
      var key := KeyOf(issues[0]);
      var acc' := if key.Some? then acc[key.value := issues[0].message] else acc;
      FoldIssuesLastWins(acc', issues[1..], k);
    }
  }

  /** `formatValidationErrors`: each issue's first path segment maps to its
      message; for a repeated key the later issue wins, and an issue without
      a truthy first segment adds no key. */
  function FormatValidationErrors(issues: seq<Issue>): (m: map<string, string>)
    ensures forall k :: k in m <==> LastKeyed(issues, k).Some?
    ensures forall k :: k in m ==> LastKeyed(issues, k) == Some(m[k])
  {
    var m := FoldIssues(map[], issues);
    assert forall k :: (k in m <==> LastKeyed(issues, k).Some?) &&
                       (k in m ==> LastKeyed(issues, k) == Some(m[k])) by {
      forall k ensures (k in m <==> LastKeyed(issues, k).Some?) &&
                       (k in m ==> LastKeyed(issues, k) == Some(m[k])) {
        FoldIssuesLastWins(map[], issues, k);
      }
    }
    m
  }

  /** The formatted map has a key exactly for the first path segments that
      some issue carries, and each value is the message of the last issue
      with that key. */
  lemma FormatValidationErrorsByIndex(issues: seq<Issue>, k: string)
    ensures k in FormatValidationErrors(issues) <==>
      exists j :: 0 <= j < |issues| && KeyOf(issues[j]) == Some(k)
    ensures k in FormatValidationErrors(issues) ==>
      exists j :: 0 <= j < |issues| && KeyOf(issues[j]) == Some(k) &&
        issues[j].message == FormatValidationErrors(issues)[k] &&
        forall j' :: j < j' < |issues| ==> KeyOf(issues[j']) != Some(k)
  {
    LastKeyedIsLast(issues, k);
  }

  /** The last issue always shows: its key maps to its message. */
  lemma LastIssueShows(issues: seq<Issue>, k: string)
    requires |issues| > 0 && KeyOf(issues[|issues| - 1]) == Some(k)
    ensures k in FormatValidationErrors(issues)
    ensures FormatValidationErrors(issues)[k] == issues[|issues| - 1].message
  {
    LastKeyedIsLast(issues, k);
  }

  /** Concretely: two issues on `email` leave the second message; an issue
      on the empty path adds nothing. */
  lemma FormatExample()
    ensures FormatValidationErrors([Issue(["email"], "a"), Issue([], "x"), Issue(["email"], "b")]) == map["email" := "b"]
  {
    var m := FormatValidationErrors([Issue(["email"], "a"), Issue([], "x"), Issue(["email"], "b")]);
    assert LastKeyed([Issue(["email"], "b")], "email") == Some("b");
    assert LastKeyed([Issue([], "x"), Issue(["email"], "b")], "email") == Some("b");
    assert m.Keys == {"email"} by {
      forall k ensures k in m <==> k == "email" {
        var s := [Issue(["email"], "a"), Issue([], "x"), Issue(["email"], "b")];
        if k != "email" {
          assert LastKeyed(s[2..], k) == None;
          assert LastKeyed(s[1..], k) == None;
        }
      }
    }
  }
}
