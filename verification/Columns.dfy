/** What the database's columns take, and give back. */
module Columns {
  import opened Wrappers

  function LowerHex(c: char): char {
    if 'A' <= c <= 'F' then (c as int - 'A' as int + 'a' as int) as char else c
  }

  /** How a uuid column gives back a hyphenated value. */
  function Canonical(id: string): string {
    seq(|id|, i requires 0 <= i < |id| => LowerHex(id[i]))
  }

  predicate IsCanonical(id: string) {
    Canonical(id) == id
  }

  predicate IsHex(c: char) {
    '0' <= c <= '9' || 'a' <= c <= 'f' || 'A' <= c <= 'F'
  }

  /** The hyphenated form, in either case. */
  predicate IsUuid(id: string) {
    |id| == 36 && forall i :: 0 <= i < 36 ==> if i in {8, 13, 18, 23} then id[i] == '-' else IsHex(id[i])
  }

  predicate IsPlainUuid(id: string) {
    |id| == 32 && forall i :: 0 <= i < 32 ==> IsHex(id[i])
  }

  function Hyphenated(id: string): string
    requires |id| == 32
  {
    id[..8] + "-" + id[8..12] + "-" + id[12..16] + "-" + id[16..20] + "-" + id[20..]
  }

  /** The uuid a text stands for: hyphenated, plain, in braces, or as a URN. */
  function UuidOf(s: string): Option<string> {
    if IsUuid(s) then Some(Canonical(s))
    else if IsPlainUuid(s) then Some(Canonical(Hyphenated(s)))
    else if |s| == 38 && s[0] == '{' && s[37] == '}' && IsUuid(s[1..37]) then Some(Canonical(s[1..37]))
    else if |s| == 45 && s[..9] == "urn:uuid:" && IsUuid(s[9..]) then Some(Canonical(s[9..]))
    else None
  }

  predicate HasNul(s: string) {
    exists i :: 0 <= i < |s| && s[i] == '\0'
  }

  /** A varchar(n) column takes n characters and drops further spaces; no text column takes a NUL. */
  predicate FitsVarchar(s: string, n: nat) {
    !HasNul(s) && (|s| <= n || forall i :: n <= i < |s| ==> s[i] == ' ')
  }

  lemma {:induction false} CanonicalTwice(id: string)
    ensures IsCanonical(Canonical(id))
  {
    var once := Canonical(id);
    assert forall i :: 0 <= i < |id| ==> Canonical(once)[i] == once[i];
  }

  /** Only the case of the digits changes, and only down. */
  lemma {:induction false} CanonicalLowers(id: string, i: nat)
    requires i < |id|
    ensures |Canonical(id)| == |id|
    ensures var c := Canonical(id)[i];
            if 'A' <= id[i] <= 'F' then c as int == id[i] as int + 32 else c == id[i]
  {}

  /** The spellings of one uuid agree. */
  lemma {:induction false} SpellingsAgree(id: string)
    requires IsUuid(id)
    ensures UuidOf(id) == UuidOf("{" + id + "}") == UuidOf("urn:uuid:" + id) == Some(Canonical(id))
    ensures IsUuid(Canonical(id))
  {
    assert ("{" + id + "}")[1..37] == id;
    assert ("urn:uuid:" + id)[9..] == id && ("urn:uuid:" + id)[..9] == "urn:uuid:";
  }

  function WithoutHyphens(id: string): string
    requires |id| == 36
  {
    id[..8] + (id[9..13] + (id[14..18] + (id[19..23] + id[24..])))
  }

  lemma {:induction false} PlainSpellingAgrees(id: string)
    requires IsUuid(id)
    ensures UuidOf(WithoutHyphens(id)) == UuidOf(id)
  {
    var plain := WithoutHyphens(id);
    assert |plain| == 32;
    forall i | 0 <= i < 32 ensures IsHex(plain[i]) {
      var j := if i < 8 then i else if i < 12 then i + 1 else if i < 16 then i + 2 else if i < 20 then i + 3 else i + 4;
      assert plain[i] == id[j];
    }
    assert plain[..8] == id[..8] && plain[8..12] == id[9..13] && plain[12..16] == id[14..18];
    assert plain[16..20] == id[19..23] && plain[20..] == id[24..];
    assert Hyphenated(plain) == id;
  }

  /** What fits a column of n characters: no NUL, and nothing but spaces beyond them. */
  lemma {:induction false} WhatFits(s: string, n: nat)
    ensures (exists i :: 0 <= i < |s| && s[i] == '\0') ==> !FitsVarchar(s, n)
    ensures (exists i :: n <= i < |s| && s[i] != ' ') ==> !FitsVarchar(s, n)
    ensures (forall i :: 0 <= i < |s| ==> s[i] != '\0' && (i < n || s[i] == ' ')) ==> FitsVarchar(s, n)
  {}
}
