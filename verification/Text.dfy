/** The string operations the service leans on. */
module Text {
  /** White space as ECMAScript's String.prototype.trim understands it. */
  predicate IsSpace(c: char) {
    c in "\t\n\U{000B}\U{000C}\r \U{00A0}\U{1680}\U{2028}\U{2029}\U{202F}\U{205F}\U{3000}\U{FEFF}" ||
    '\U{2000}' <= c <= '\U{200A}'
  }

  function TrimStart(s: string): string {
    if s != "" && IsSpace(s[0]) then TrimStart(s[1..]) else s
  }

  function TrimEnd(s: string): string {
    if s != "" && IsSpace(s[|s| - 1]) then TrimEnd(s[..|s| - 1]) else s
  }

  function Trim(s: string): string {
    TrimEnd(TrimStart(s))
  }

  predicate IsBlank(s: string) {
    Trim(s) == ""
  }

  lemma {:induction false} TrimStartResult(s: string)
    ensures var r := TrimStart(s); r != "" ==> !IsSpace(r[0])
  {
    if s != "" && IsSpace(s[0]) {
      TrimStartResult(s[1..]);
    }
  }

  lemma {:induction false} TrimEndResult(s: string)
    ensures var r := TrimEnd(s);
            && r <= s
            && (r != "" ==> !IsSpace(r[|r| - 1]) && r[0] == s[0])
  {
    if s != "" && IsSpace(s[|s| - 1]) {
      TrimEndResult(s[..|s| - 1]);
    }
  }

  lemma {:induction false} TrimIdempotent(s: string)
    ensures Trim(Trim(s)) == Trim(s)
  {
    TrimStartResult(s);
    TrimEndResult(TrimStart(s));
  }

  lemma {:induction false} TrimUnchanged(s: string)
    requires s != "" ==> !IsSpace(s[0]) && !IsSpace(s[|s| - 1])
    ensures Trim(s) == s
  {
  }

  predicate AllSpaces(s: string) {
    forall i :: 0 <= i < |s| ==> IsSpace(s[i])
  }

  /** Trimming takes white space from both ends, all of it, and nothing else. */
  lemma {:induction false} TrimIsTheMiddle(s: string) returns (before: string, after: string)
    ensures s == before + Trim(s) + after && AllSpaces(before) && AllSpaces(after)
    ensures Trim(s) != "" ==> !IsSpace(Trim(s)[0]) && !IsSpace(Trim(s)[|Trim(s)| - 1])
  {
    before := StartOf(s);
    after := EndOf(TrimStart(s));
    TrimStartResult(s);
    TrimEndResult(TrimStart(s));
    assert s == before + (Trim(s) + after);
  }

  lemma {:induction false} StartOf(s: string) returns (before: string)
    ensures s == before + TrimStart(s) && AllSpaces(before)
  {
    before := "";
    if s != "" && IsSpace(s[0]) {
      var rest := StartOf(s[1..]);
      before := [s[0]] + rest;
      assert s == [s[0]] + s[1..];
    }
  }

  lemma {:induction false} EndOf(s: string) returns (after: string)
    ensures s == TrimEnd(s) + after && AllSpaces(after)
  {
    after := "";
    if s != "" && IsSpace(s[|s| - 1]) {
      var rest := EndOf(s[..|s| - 1]);
      after := rest + [s[|s| - 1]];
      assert s == s[..|s| - 1] + [s[|s| - 1]];
    }
  }
}
