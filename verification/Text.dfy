/** Strings as the Go standard library treats them, and the two result types of the project. */
module Text {

  datatype Option<+T> = None | Some(value: T)

  /** A Go `(value, error)` pair: a value, or an error with its message. */
  datatype Result<+T> = Ok(value: T) | Err(message: string)

  predicate HasSuffix(s: string, suffix: string) {
    |suffix| <= |s| && s[|s| - |suffix|..] == suffix
  }

  function TrimPrefix(s: string, prefix: string): string {
    if prefix <= s then s[|prefix|..] else s
  }

  function TrimSuffix(s: string, suffix: string): string {
    if HasSuffix(s, suffix) then s[..|s| - |suffix|] else s
  }

  /** `strings.Cut`: the text before and after the first separator. */
  datatype Cutting = Cutting(before: string, after: string, found: bool)

  function Cut(s: string, sep: char): (c: Cutting)
    ensures c.found ==> s == c.before + [sep] + c.after && sep !in c.before
    ensures !c.found ==> sep !in s && c.before == s && c.after == ""
  {
    if s == "" then Cutting("", "", false)
    else if s[0] == sep then Cutting("", s[1..], true)
    else
      var c := Cut(s[1..], sep);
      assert s == [s[0]] + s[1..];
      Cutting([s[0]] + c.before, c.after, c.found)
  }

  /** A text whose first part is free of the separator is cut exactly there. */
  lemma CutAtFirst(a: string, b: string, sep: char)
    requires sep !in a
    ensures Cut(a + [sep] + b, sep) == Cutting(a, b, true)
  {
    var s := a + [sep] + b;
    var c := Cut(s, sep);
    assert s[|a|] == sep;
    assert c.found;
    assert s == c.before + [sep] + c.after;
    assert forall i :: 0 <= i < |a| ==> s[i] == a[i];
    assert forall i :: 0 <= i < |c.before| ==> s[i] == c.before[i];
    assert s[|c.before|] == sep;
    assert |c.before| == |a|;
    assert c.before == s[..|a|] == a;
    assert c.after == s[|a| + 1..] == b;
  }

  /** `strings.Split` on a one-character separator. */
  function Split(s: string, sep: char): (parts: seq<string>)
    ensures |parts| >= 1
    ensures forall i :: 0 <= i < |parts| ==> sep !in parts[i]
    decreases |s|
  {
    var c := Cut(s, sep);
    if c.found then [c.before] + Split(c.after, sep) else [s]
  }

  /** `strings.TrimSpace` for any classification of characters as white space. */
  function TrimSpace(space: char -> bool, s: string): (t: string)
    ensures t == "" || (!space(t[0]) && !space(t[|t| - 1]))
    decreases |s|
  {
    if s == "" then ""
    else if space(s[0]) then TrimSpace(space, s[1..])
    else if space(s[|s| - 1]) then TrimSpace(space, s[..|s| - 1])
    else s
  }

  /** Exactly the white space at both ends goes. */
  lemma TrimSpaceIs(space: char -> bool, s: string) returns (i: nat, j: nat)
    ensures i <= j <= |s| && TrimSpace(space, s) == s[i..j]
    ensures forall k :: 0 <= k < i || j <= k < |s| ==> space(s[k])
    ensures i == j || (!space(s[i]) && !space(s[j - 1]))
    decreases |s|
  {
    i, j := 0, |s|;
    if s != "" && space(s[0]) {
      i, j := TrimSpaceIs(space, s[1..]);
      assert s[1..][i..j] == s[i + 1..j + 1];
      i, j := i + 1, j + 1;
    } else if s != "" && space(s[|s| - 1]) {
      i, j := TrimSpaceIs(space, s[..|s| - 1]);
      assert s[..|s| - 1][i..j] == s[i..j];
    }
  }

  function Joined(parts: seq<string>, sep: char): string
    requires parts != []
  {
    if |parts| == 1 then parts[0] else parts[0] + [sep] + Joined(parts[1..], sep)
  }

  /** The parts are the text between the separators, none of which is left in a part. */
  lemma {:induction false} SplitJoins(s: string, sep: char)
    ensures Joined(Split(s, sep), sep) == s && forall p :: p in Split(s, sep) ==> sep !in p
    decreases |s|
  {
    var c := Cut(s, sep);
    if c.found {
      SplitJoins(c.after, sep);
      assert Split(s, sep)[1..] == Split(c.after, sep);
    }
  }

  lemma TrimSpaceIdempotent(space: char -> bool, s: string)
    ensures TrimSpace(space, TrimSpace(space, s)) == TrimSpace(space, s)
  {}
}
