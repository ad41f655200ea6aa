/** Address ranges of the internal diagnostics guard (service/src/runtime/guards/internal-diagnostics.guard.ts). */
module Cidr {
  import opened Bits
  import opened Decimal
  import opened Wrappers

  // ---- Text ----

  /** String.prototype.split with a one-character separator. */
  function Split(s: string, separator: char): (parts: seq<string>)
    ensures |parts| > 0
  {
    if s == "" then [""]
    else
      var rest := Split(s[1..], separator);
      if s[0] == separator then [""] + rest else [[s[0]] + rest[0]] + rest[1..]
  }

  /** One to three digits, four times, with dots between. */
  predicate IsValidIp4(s: string) {
    var parts := Split(s, '.');
    |parts| == 4 && forall i :: 0 <= i < 4 ==> 1 <= |parts[i]| <= 3 && AllDigits(parts[i])
  }

  type Octets = o: seq<int> | |o| == 4 && forall i :: 0 <= i < 4 ==> 0 <= o[i] < 256
    witness [0, 0, 0, 0]

  function Combined(o: Octets): int {
    Unsigned(ShiftLeft(o[0], 24)) + Unsigned(ShiftLeft(o[1], 16)) + Unsigned(ShiftLeft(o[2], 8)) + Unsigned(o[3])
  }

  function OctetsOf(s: string): Option<Octets> {
    if !IsValidIp4(s) then None
    else
      var parts := Split(s, '.');
      var numbers := [Number(parts[0]), Number(parts[1]), Number(parts[2]), Number(parts[3])];
      if exists i :: 0 <= i < 4 && !(0 <= numbers[i] <= 255) then None else Some(numbers)
  }

  function ParseIp4(s: string): Option<int> {
    match OctetsOf(s)
    case None => None
    case Some(o) => Some(Combined(o))
  }

  // ---- The check ----

  /** `toNumber` is JavaScript's Number on text; None stands for NaN and the infinities. */
  function PrefixLength(toNumber: string -> Option<real>, text: string): Option<nat> {
    match toNumber(text)
    case None => None
    case Some(n) => if n.Floor as real == n && 0.0 <= n <= 32.0 then Some(n.Floor) else None
  }

  function Mask(bits: nat): int
    requires 0 < bits <= 32
  {
    if bits == 32 then 0xffff_ffff else Unsigned(ShiftLeft(0xffff_ffff, 32 - bits))
  }

  predicate IsIpInCidr(toNumber: string -> Option<real>, ip: string, cidr: string) {
    var parts := Split(cidr, '/');
    if |parts| < 2 || parts[0] == "" || parts[1] == "" then false
    else
      match PrefixLength(toNumber, parts[1])
      case None => false
      case Some(bits) =>
        match (ParseIp4(ip), ParseIp4(parts[0]))
        case (Some(ipValue), Some(netValue)) => bits == 0 || And(ipValue, Mask(bits)) == And(netValue, Mask(bits))
        case _ => false
  }

  // ---- Integer arithmetic ----

  function Value(o: Octets): nat {
    ((o[0] * 256 + o[1]) * 256 + o[2]) * 256 + o[3]
  }

  /** Agreement of the first `bits` binary digits. */
  predicate SamePrefix(a: int, b: int, bits: nat)
    requires bits <= 32
  {
    a / Pow2(32 - bits) == b / Pow2(32 - bits)
  }

  lemma {:induction false} Shifts()
    ensures Pow2(8) == 256 && Pow2(16) == 65536 && Pow2(24) == 16777216
  {
    Pow2Split(8, 8);
    Pow2Split(8, 16);
  }

  /** The signed shifts add up to the address read in base 256. */
  lemma {:induction false} CombinedIsValue(o: Octets)
    ensures Combined(o) == Value(o) < WORD
  {
    Shifts();
    ShiftFits(o[0], 24, 16777216);
    ShiftFits(o[1], 16, 65536);
    ShiftFits(o[2], 8, 256);
  }

  /** Two texts parse to the same number exactly when they have the same octets. */
  lemma {:induction false} ParsingIsInjective(s: string, t: string)
    requires ParseIp4(s).Some? && ParseIp4(t).Some?
    ensures ParseIp4(s) == ParseIp4(t) <==> OctetsOf(s) == OctetsOf(t)
  {
    var a, b := OctetsOf(s).value, OctetsOf(t).value;
    CombinedIsValue(a);
    CombinedIsValue(b);
    if Value(a) == Value(b) {
      assert a[0] == b[0] && a[1] == b[1] && a[2] == b[2] && a[3] == b[3];
      assert a == b;
    }
  }

  lemma {:induction false} MaskValue(bits: nat)
    requires 0 < bits <= 32
    ensures Mask(bits) == WORD - Pow2(32 - bits) && 0 <= Mask(bits) < WORD
  {
    if bits < 32 {
      ShiftedOnes(32 - bits);
    }
  }

  lemma {:induction false} QuotientFits(a: nat, p: nat, q: nat, c: nat)
    requires p > 0 && q == a / p && c == q * p
    ensures c <= a
  {
  }

  lemma {:induction false} AndOfWords(a: nat, b: nat)
    requires a < WORD && b < WORD
    ensures And(a, b) == ToInt32(AndDigits(a, b))
  {
  }

  lemma {:induction false} Cleared(a: nat, mask: nat, s: nat, p: nat) returns (q: nat, c: nat)
    requires a < WORD && s <= 32 && p == Pow2(s) && mask == WORD - p
    ensures q == a / p && c == q * p && c < WORD && And(a, mask) == ToInt32(c)
  {
    Word();
    MaskClearsLowDigits(a, 32, s);
    q := a / p;
    c := AndDigits(a, mask);
    QuotientFits(a, p, q, c);
    AndOfWords(a, mask);
  }

  lemma {:induction false} SameMultiples(q: nat, r: nat, p: nat)
    requires p > 0
    ensures q * p == r * p <==> q == r
  {
    if q < r {
      TimesGrows(p, q, r);
    } else if r < q {
      TimesGrows(p, r, q);
    }
  }

  lemma {:induction false} MaskIsPrefix(a: nat, b: nat, bits: nat)
    requires a < WORD && b < WORD && 0 < bits <= 32
    ensures And(a, Mask(bits)) == And(b, Mask(bits)) <==> SamePrefix(a, b, bits)
  {
    var s, mask := 32 - bits, Mask(bits);
    var p := Pow2(s);
    MaskValue(bits);
    var qa, ca := Cleared(a, mask, s, p);
    var qb, cb := Cleared(b, mask, s, p);
    Int32IsInjective(ca, cb);
    SameMultiples(qa, qb, p);
  }

  /** What the guard accepts: two parsable addresses and a whole prefix length from 0 to 32 on which they agree. */
  ghost predicate Agrees(toNumber: string -> Option<real>, ip: string, cidr: string) {
    var parts := Split(cidr, '/');
    && |parts| >= 2 && parts[1] != ""
    && PrefixLength(toNumber, parts[1]).Some?
    && OctetsOf(ip).Some? && OctetsOf(parts[0]).Some?
    && SamePrefix(Value(OctetsOf(ip).value), Value(OctetsOf(parts[0]).value), PrefixLength(toNumber, parts[1]).value)
  }

  lemma {:induction false} EmptyPrefixAgrees(a: nat, b: nat)
    requires a < WORD && b < WORD
    ensures SamePrefix(a, b, 0)
  {
    Word();
    assert a / WORD == 0 && b / WORD == 0;
  }

  lemma {:induction false} MaskedIffSamePrefix(a: Octets, b: Octets, bits: nat, m: nat, n: nat)
    requires bits <= 32 && m == Value(a) && n == Value(b)
    ensures bits == 0 || And(Combined(a), Mask(bits)) == And(Combined(b), Mask(bits)) <==> SamePrefix(m, n, bits)
  {
    CombinedIsValue(a);
    CombinedIsValue(b);
    if bits == 0 {
      EmptyPrefixAgrees(m, n);
    } else {
      MaskIsPrefix(m, n, bits);
    }
  }

  /** Signed masking decides agreement of the leading binary digits, for every text. */
  lemma {:induction false} CidrIsIntegerPrefix(toNumber: string -> Option<real>, ip: string, cidr: string)
    ensures IsIpInCidr(toNumber, ip, cidr) <==> Agrees(toNumber, ip, cidr)
  {
    var parts := Split(cidr, '/');
    if |parts| >= 2 && PrefixLength(toNumber, parts[1]).Some? && OctetsOf(ip).Some? && OctetsOf(parts[0]).Some? {
      var a, b := OctetsOf(ip).value, OctetsOf(parts[0]).value;
      MaskedIffSamePrefix(a, b, PrefixLength(toNumber, parts[1]).value, Value(a), Value(b));
      EmptyIsNoAddress();
    }
  }

  lemma {:induction false} EmptyIsNoAddress()
    ensures OctetsOf("").None?
  {
  }

  /** Agreement on a longer prefix is agreement on every shorter one. */
  lemma {:induction false} ShorterPrefixAgrees(a: nat, b: nat, bits: nat, fewer: nat)
    requires fewer <= bits <= 32 && SamePrefix(a, b, bits)
    ensures SamePrefix(a, b, fewer)
    decreases bits - fewer
  {
    if fewer < bits {
      ShorterPrefixAgrees(a, b, bits, fewer + 1);
      var s := 32 - fewer;
      QuotientOfHalf(a, Pow2(s - 1));
      QuotientOfHalf(b, Pow2(s - 1));
    }
  }

  lemma {:induction false} Regrouped(a: nat, p: nat, h: nat, e: nat, r: nat)
    requires a == (2 * h + e) * p + r && e < 2 && r < p
    ensures a / (2 * p) == h
  {
    assert (2 * h + e) * p == h * (2 * p) + e * p;
    assert e * p == if e == 0 then 0 else p;
    DivisionIsUnique(a, 2 * p, h, e * p + r);
  }

  lemma {:induction false} QuotientOfHalf(a: nat, p: nat)
    requires p > 0
    ensures a / (2 * p) == (a / p) / 2
  {
    Regrouped(a, p, (a / p) / 2, (a / p) % 2, a % p);
  }

  /** An address accepted by a range is accepted by every range with the same network and a shorter prefix. */
  lemma {:induction false} ShorterRangeAccepts(
      toNumber: string -> Option<real>, ip: string, network: string, bits: string, fewer: string)
    requires '/' !in network && '/' !in bits && '/' !in fewer && fewer != ""
    requires IsIpInCidr(toNumber, ip, network + "/" + bits)
    requires PrefixLength(toNumber, bits).Some? && PrefixLength(toNumber, fewer).Some?
    requires PrefixLength(toNumber, fewer).value <= PrefixLength(toNumber, bits).value
    ensures IsIpInCidr(toNumber, ip, network + "/" + fewer)
  {
    SplitRange(network, bits);
    SplitRange(network, fewer);
    CidrIsIntegerPrefix(toNumber, ip, network + "/" + bits);
    CidrIsIntegerPrefix(toNumber, ip, network + "/" + fewer);
    var a, b := Value(OctetsOf(ip).value), Value(OctetsOf(network).value);
    ShorterPrefixAgrees(a, b, PrefixLength(toNumber, bits).value, PrefixLength(toNumber, fewer).value);
  }

  /** A length is a text whose number is whole and from 0 to 32, and it compares that many binary digits. */
  lemma {:induction false} LengthSaysTheNumber(
      toNumber: string -> Option<real>, ip: string, network: string, length: string, n: nat)
    requires '/' !in network && '/' !in length && length != "" && n <= 32 && toNumber(length) == Some(n as real)
    requires OctetsOf(ip).Some? && OctetsOf(network).Some?
    ensures IsIpInCidr(toNumber, ip, network + "/" + length) <==>
            Value(OctetsOf(ip).value) / Pow2(32 - n) == Value(OctetsOf(network).value) / Pow2(32 - n)
  {
    SplitRange(network, length);
    CidrIsIntegerPrefix(toNumber, ip, network + "/" + length);
    assert (n as real).Floor == n;
  }

  /** No other number makes a length. */
  lemma {:induction false} OtherLengthsMatchNothing(
      toNumber: string -> Option<real>, ip: string, network: string, length: string)
    requires '/' !in network && '/' !in length
    requires match toNumber(length)
             case None => true
             case Some(x) => x < 0.0 || x > 32.0 || x.Floor as real != x
    ensures !IsIpInCidr(toNumber, ip, network + "/" + length)
  {
    SplitRange(network, length);
  }

  // ---- Writing addresses ----

  lemma {:induction false} SplitAt(before: string, after: string, separator: char)
    requires separator !in before
    ensures Split(before + [separator] + after, separator) == [before] + Split(after, separator)
  {
    var s := before + [separator] + after;
    if before == "" {
      assert s[1..] == after;
    } else {
      assert s[1..] == before[1..] + [separator] + after;
      SplitAt(before[1..], after, separator);
      assert before == [before[0]] + before[1..];
    }
  }

  lemma {:induction false} SplitNothing(s: string, separator: char)
    requires separator !in s
    ensures Split(s, separator) == [s]
  {
    if s != "" {
      SplitNothing(s[1..], separator);
      assert s == [s[0]] + s[1..];
    }
  }

  lemma {:induction false} SplitRange(network: string, bits: string)
    requires '/' !in network && '/' !in bits
    ensures Split(network + "/" + bits, '/') == [network, bits]
  {
    SplitAt(network, bits, '/');
    SplitNothing(bits, '/');
  }

  function Dotted(a: string, b: string, c: string, d: string): string {
    a + "." + (b + "." + (c + "." + d))
  }

  lemma {:induction false} SplitDotted(a: string, b: string, c: string, d: string)
    requires '.' !in a && '.' !in b && '.' !in c && '.' !in d
    ensures Split(Dotted(a, b, c, d), '.') == [a, b, c, d]
  {
    SplitAt(a, b + "." + (c + "." + d), '.');
    SplitAt(b, c + "." + d, '.');
    SplitAt(c, d, '.');
    SplitNothing(d, '.');
  }

  /** A text of one to three digits with this value. */
  predicate Writes(text: string, octet: int) {
    1 <= |text| <= 3 && AllDigits(text) && Number(text) == octet
  }

  /** An octet can be written in any width that holds it; leading zeros are read as decimal. */
  lemma {:induction false} PaddedWrites(octet: nat, width: nat)
    requires 1 <= width <= 3 && octet < Pow10(width)
    ensures Writes(Padded(octet, width), octet)
  {
    NumberOfPadded(octet, width);
  }

  /** Four octets written with dots between them read back, so every address has a text. */
  lemma {:induction false} DottedRoundTrip(o: Octets, a: string, b: string, c: string, d: string)
    requires Writes(a, o[0]) && Writes(b, o[1]) && Writes(c, o[2]) && Writes(d, o[3])
    ensures OctetsOf(Dotted(a, b, c, d)) == Some(o) && ParseIp4(Dotted(a, b, c, d)) == Some(Value(o))
  {
    assert !IsDigit('.');
    SplitDotted(a, b, c, d);
    assert o == [o[0], o[1], o[2], o[3]];
    CombinedIsValue(o);
  }

  function Width(octet: nat): nat {
    if octet < 10 then 1 else if octet < 100 then 2 else 3
  }

  function Text(octet: nat): string {
    Padded(octet, Width(octet))
  }

  /** The usual text of an address reads back as that address, for all of them. */
  lemma {:induction false} EveryAddressHasText(o: Octets)
    ensures ParseIp4(Dotted(Text(o[0]), Text(o[1]), Text(o[2]), Text(o[3]))) == Some(Value(o))
  {
    assert Pow10(1) == 10 && Pow10(2) == 100 && Pow10(3) == 1000;
    PaddedWrites(o[0], Width(o[0]));
    PaddedWrites(o[1], Width(o[1]));
    PaddedWrites(o[2], Width(o[2]));
    PaddedWrites(o[3], Width(o[3]));
    DottedRoundTrip(o, Text(o[0]), Text(o[1]), Text(o[2]), Text(o[3]));
  }

  /** One address, spelled out. */
  lemma {:induction false} OneAddress()
    ensures ParseIp4("10.1.2.255") == Some(0x0A01_02FF)
  {
    OneText("10", "1", "2", "255", [10, 1, 2, 255]);
    assert Dotted("10", "1", "2", "255") == "10.1.2.255";
  }

  lemma {:induction false} OneText(a: string, b: string, c: string, d: string, o: Octets)
    requires a in {"10", "11"} && b in {"0", "1"} && c in {"0", "2"} && d in {"0", "255"}
    requires o == [if a == "10" then 10 else 11, if b == "0" then 0 else 1, if c == "0" then 0 else 2,
            if d == "0" then 0 else 255]
    ensures OctetsOf(Dotted(a, b, c, d)) == Some(o) && ParseIp4(Dotted(a, b, c, d)) == Some(Value(o))
  {
    SmallNumbers();
    DottedRoundTrip(o, a, b, c, d);
  }

  lemma {:induction false} SmallNumbers()
    ensures Writes("0", 0) && Writes("1", 1) && Writes("2", 2) && Writes("10", 10) && Writes("11", 11)
    ensures Writes("255", 255)
  {
    assert "10"[..1] == "1" && "11"[..1] == "1" && "25"[..1] == "2" && "255"[..2] == "25";
    assert "0"[..0] == "" && "1"[..0] == "" && "2"[..0] == "";
    assert Number("25") == 25;
  }

  /** Only the first two pieces of a range count: what follows a second slash is ignored. */
  lemma {:induction false} SecondSlashIsIgnored(
      toNumber: string -> Option<real>, ip: string, network: string, bits: string, rest: string)
    requires '/' !in network && '/' !in bits
    ensures IsIpInCidr(toNumber, ip, network + "/" + (bits + "/" + rest)) ==
            IsIpInCidr(toNumber, ip, network + "/" + bits)
  {
    SplitAt(network, bits + "/" + rest, '/');
    SplitAt(bits, rest, '/');
    SplitRange(network, bits);
  }
}
