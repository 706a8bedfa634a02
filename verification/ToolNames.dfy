/** The names the code itself tries for a plugin tool whose composed name is taken, and why its retry
    loop ends: a hash of plugin, tool and attempt tells apart all attempts that differ in their last
    four digits only. */
module ToolNames {
  import opened Plugins
  import opened PluginMerge

  type Byte = b: nat | b < 256

  // ---- the hash: FNV-1a, 64 bits -----------------------------------------------------------------------

  const HASH_RANGE: nat := 0x1_0000_0000_0000_0000
  const FNV_OFFSET: nat := 0xcbf2_9ce4_8422_2325
  const FNV_PRIME: nat := 0x0000_0100_0000_01b3

  /** Bitwise exclusive or. */
  function Xor(a: nat, b: nat): nat
    decreases a + b
  {
    if a == 0 && b == 0 then 0
    else 2 * Xor(a / 2, b / 2) + if a % 2 == b % 2 then 0 else 1
  }

  function Mixed(h: nat, b: nat): nat {
    Xor(h, b) * FNV_PRIME % HASH_RANGE
  }

  function Fnv(h: nat, bytes: seq<Byte>): nat
    decreases |bytes|
  {
    if bytes == [] then h else Fnv(Mixed(h, bytes[0]), bytes[1..])
  }

  // ---- names ---------------------------------------------------------------------------------------------

  const MAX_TOOL_NAME_LEN := 64
  const TOOL_NAME_HASH_HEX_LEN := 16

  function HexDigit(d: nat): char
    requires d < 16
  {
    "0123456789abcdef"[d]
  }

  function Hex(h: nat): string {
    if h < 16 then [HexDigit(h)] else Hex(h / 16) + [HexDigit(h % 16)]
  }

  function Zeros(n: nat): string {
    seq(n, _ => '0')
  }

  /** Hexadecimal, filled up with zeros in front. */
  function PaddedHex(h: nat): string {
    var digits := Hex(h);
    (if |digits| < TOOL_NAME_HASH_HEX_LEN then Zeros(TOOL_NAME_HASH_HEX_LEN - |digits|) else "") + digits
  }

  function Decimal(k: nat): seq<Byte> {
    if k < 10 then [48 + k] else Decimal(k / 10) + [48 + k % 10]
  }

  /** What is hashed: plugin and tool name, and from the second attempt on its number, set apart by zero bytes. */
  function Identity(utf8: string -> seq<Byte>, plugin: string, raw: string, attempt: nat): seq<Byte> {
    var name := utf8(plugin) + [0] + utf8(raw);
    if attempt == 0 then name else name + [0] + Decimal(attempt)
  }

  function DisambiguatedName(base: string, identity: seq<Byte>): string {
    var n := MAX_TOOL_NAME_LEN - TOOL_NAME_HASH_HEX_LEN - 1;
    (if |base| <= n then base else base[..n]) + "_" + PaddedHex(Fnv(FNV_OFFSET, identity))
  }

  /** The code's naming. How names are composed and encoded in bytes does not matter here. */
  function CodeNaming(compose: (string, string) -> string, utf8: string -> seq<Byte>): Naming {
    Naming(compose, (base: string, plugin: string, raw: string, attempt: nat) => DisambiguatedName(base, Identity(utf8, plugin, raw, attempt)))
  }

  // ---- exclusive or ----------------------------------------------------------------------------------------

  lemma {:induction false} XorNear(a: nat, b: nat)
    ensures a - b <= Xor(a, b) <= a + b
    decreases a + b
  {
    if a != 0 || b != 0 {
      XorNear(a / 2, b / 2);
    }
  }

  lemma {:induction false} XorSelf(a: nat)
    ensures Xor(a, a) == 0
    decreases a
  {
    if a != 0 {
      XorSelf(a / 2);
    }
  }

  /** Different bytes give different results, no further apart than the bytes' own exclusive or. */
  lemma {:induction false} XorApart(a: nat, b: nat, c: nat)
    ensures Xor(a, b) <= Xor(a, c) + Xor(b, c) && Xor(a, c) <= Xor(a, b) + Xor(b, c)
    ensures b != c ==> Xor(a, b) != Xor(a, c)
    decreases a + b + c
  {
    if a != 0 || b != 0 || c != 0 {
      XorApart(a / 2, b / 2, c / 2);
    }
  }

  predicate IsDigit(b: nat) {
    48 <= b < 58
  }

  lemma DigitsAreClose(b: nat, c: nat)
    requires IsDigit(b) && IsDigit(c)
    ensures Xor(b, c) <= 15
  {
    XorSelf(3);
    assert b / 2 / 2 / 2 / 2 == 3 && c / 2 / 2 / 2 / 2 == 3;
    assert Xor(b / 2 / 2 / 2, c / 2 / 2 / 2) <= 1;
    assert Xor(b / 2 / 2, c / 2 / 2) <= 3;
    assert Xor(b / 2, c / 2) <= 7;
  }

  // ---- four digits are told apart ----------------------------------------------------------------------------

  /** The prime is 2^40 + 435, so on the lower 40 bits a step multiplies by 435. */
  const LOW: nat := 0x100_0000_0000

  /** Two hashes whose lower 40 bits differ by `d`, after a step each. */
  lemma MixedApart(x: nat, y: nat, b: nat, c: nat, d: int, q: int) returns (q': int)
    requires Xor(x, b) - Xor(y, c) == d + q * LOW
    ensures Mixed(x, b) - Mixed(y, c) == 435 * d + q' * LOW
  {
    var u, v := Xor(x, b) * FNV_PRIME / HASH_RANGE, Xor(y, c) * FNV_PRIME / HASH_RANGE;
    q' := d + FNV_PRIME * q - 0x100_0000 * u + 0x100_0000 * v;
  }

  /** How far apart hashes may be, for `n` more digits not to bring them together. */
  function Limit(n: nat): nat {
    if n == 0 then 546496798365 else if n == 1 then 1256314365 else if n == 2 then 2887965 else 6525
  }

  predicate Digits(s: seq<Byte>) {
    forall i :: 0 <= i < |s| ==> IsDigit(s[i])
  }

  /** Once apart, hashes drift apart faster than digits can bring them together. */
  lemma {:induction false} StaysApart(x: nat, y: nat, s: seq<Byte>, t: seq<Byte>, d: int, q: int)
    requires |s| == |t| <= 3 && Digits(s) && Digits(t)
    requires x - y == d + q * LOW && (435 <= d <= Limit(|s|) || 435 <= -d <= Limit(|s|))
    ensures Fnv(x, s) != Fnv(y, t)
    decreases |s|
  {
    if s == [] {
      NoMultiple(d, q);
    } else {
      XorNear(x, s[0]);
      XorNear(y, t[0]);
      var e := (Xor(x, s[0]) - x) - (Xor(y, t[0]) - y);
      var q' := MixedApart(x, y, s[0], t[0], d + e, q);
      StaysApart(Mixed(x, s[0]), Mixed(y, t[0]), s[1..], t[1..], 435 * (d + e), q');
    }
  }

  lemma NoMultiple(d: int, q: int)
    requires 0 < d < LOW || 0 < -d < LOW
    ensures d + q * LOW != 0
  {
  }

  /** From one hash, different digits lead to different hashes. */
  lemma {:induction false} DigitsTellApart(h: nat, s: seq<Byte>, t: seq<Byte>)
    requires |s| == |t| <= 4 && Digits(s) && Digits(t) && s != t
    ensures Fnv(h, s) != Fnv(h, t)
    decreases |s|
  {
    if s[0] == t[0] {
      assert s == [s[0]] + s[1..] && t == [t[0]] + t[1..];
      DigitsTellApart(Mixed(h, s[0]), s[1..], t[1..]);
    } else {
      var d := Xor(h, s[0]) - Xor(h, t[0]);
      XorApart(h, s[0], t[0]);
      DigitsAreClose(s[0], t[0]);
      var q := MixedApart(h, h, s[0], t[0], d, 0);
      StaysApart(Mixed(h, s[0]), Mixed(h, t[0]), s[1..], t[1..], 435 * d, q);
    }
  }

  lemma {:induction false} FnvConcat(h: nat, a: seq<Byte>, b: seq<Byte>)
    ensures Fnv(h, a + b) == Fnv(Fnv(h, a), b)
    decreases |a|
  {
    if a == [] {
      assert a + b == b;
    } else {
      assert (a + b)[1..] == a[1..] + b;
      FnvConcat(Mixed(h, a[0]), a[1..], b);
    }
  }

  // ---- from hashes to names ------------------------------------------------------------------------------------

  function DigitValue(c: char): nat {
    if '0' <= c <= '9' then (c - '0') as nat else if 'a' <= c <= 'f' then (c - 'a') as nat + 10 else 0
  }

  /** The number that hexadecimal digits stand for. */
  function Value(digits: string): nat {
    if digits == "" then 0 else 16 * Value(digits[..|digits| - 1]) + DigitValue(digits[|digits| - 1])
  }

  lemma ValueSnoc(digits: string, d: nat)
    requires d < 16
    ensures Value(digits + [HexDigit(d)]) == 16 * Value(digits) + d
  {
    assert (digits + [HexDigit(d)])[..|digits|] == digits;
    DigitIsItsValue(d);
  }

  lemma DigitIsItsValue(d: nat)
    requires d < 16
    ensures DigitValue(HexDigit(d)) == d
  {
  }

  lemma {:induction false} HexIsItsValue(h: nat)
    ensures Value(Hex(h)) == h
  {
    if h < 16 {
      assert "" + [HexDigit(h)] == [HexDigit(h)];
      ValueSnoc("", h);
    } else {
      HexIsItsValue(h / 16);
      ValueSnoc(Hex(h / 16), h % 16);
    }
  }

  /** Zeros in front change nothing. */
  lemma {:induction false} ZerosAreNothing(n: nat, digits: string)
    ensures Value(Zeros(n) + digits) == Value(digits)
    decreases n + |digits|
  {
    var all := Zeros(n) + digits;
    if digits != "" {
      assert all[..|all| - 1] == Zeros(n) + digits[..|digits| - 1];
      ZerosAreNothing(n, digits[..|digits| - 1]);
    } else if n > 0 {
      assert all[..|all| - 1] == Zeros(n - 1) + "";
      ZerosAreNothing(n - 1, "");
    }
  }

  /** The digits of a hash give the hash back. */
  lemma PaddedIsItsValue(h: nat)
    ensures Value(PaddedHex(h)) == h
  {
    HexIsItsValue(h);
    var digits := Hex(h);
    if |digits| < TOOL_NAME_HASH_HEX_LEN {
      ZerosAreNothing(TOOL_NAME_HASH_HEX_LEN - |digits|, digits);
    } else {
      assert "" + digits == digits;
    }
  }

  /** Names with different hashes are different. */
  lemma NamesDiffer(base: string, a: seq<Byte>, b: seq<Byte>)
    requires Fnv(FNV_OFFSET, a) != Fnv(FNV_OFFSET, b)
    ensures DisambiguatedName(base, a) != DisambiguatedName(base, b)
  {
    var front := (if |base| <= 47 then base else base[..47]) + "_";
    PaddedIsItsValue(Fnv(FNV_OFFSET, a));
    PaddedIsItsValue(Fnv(FNV_OFFSET, b));
    assert DisambiguatedName(base, a)[|front|..] == PaddedHex(Fnv(FNV_OFFSET, a));
    assert DisambiguatedName(base, b)[|front|..] == PaddedHex(Fnv(FNV_OFFSET, b));
  }

  /** The last four digits of a number. */
  function LastFour(t: nat): seq<Byte>
    requires t < 10000
  {
    [48 + t / 1000, 48 + t / 100 % 10, 48 + t / 10 % 10, 48 + t % 10]
  }

  lemma OneMoreDigit(k: nat, d: nat)
    requires 0 < k && d < 10
    ensures Decimal(10 * k + d) == Decimal(k) + [48 + d]
  {
  }

  lemma FiveDigits(a: nat, b: nat, c: nat, d: nat)
    requires a < 10 && b < 10 && c < 10 && d < 10
    ensures Decimal(10000 + 1000 * a + 100 * b + 10 * c + d) == [49, 48 + a, 48 + b, 48 + c, 48 + d]
  {
    assert Decimal(1) == [49];
    OneMoreDigit(1, a);
    OneMoreDigit(10 + a, b);
    OneMoreDigit(100 + 10 * a + b, c);
    OneMoreDigit(1000 + 100 * a + 10 * b + c, d);
  }

  /** A number below 10000 is made of its four digits. */
  lemma FourDigits(t: nat)
    requires t < 10000
    ensures t == 1000 * (t / 1000) + 100 * (t / 100 % 10) + 10 * (t / 10 % 10) + t % 10
  {
    assert t / 100 == t / 10 / 10 && t / 1000 == t / 10 / 10 / 10;
  }

  lemma DecimalEnds(t: nat)
    requires t < 10000
    ensures Decimal(10000 + t) == [49] + LastFour(t)
  {
    FourDigits(t);
    FiveDigits(t / 1000, t / 100 % 10, t / 10 % 10, t % 10);
  }

  lemma IdentityEnds(utf8: string -> seq<Byte>, plugin: string, raw: string, t: nat)
    requires t < 10000
    ensures Fnv(FNV_OFFSET, Identity(utf8, plugin, raw, 10000 + t)) ==
            Fnv(Fnv(FNV_OFFSET, utf8(plugin) + [0] + utf8(raw) + [0] + [49]), LastFour(t))
  {
    var front := utf8(plugin) + [0] + utf8(raw) + [0];
    DecimalEnds(t);
    assert front + ([49] + LastFour(t)) == front + [49] + LastFour(t);
    FnvConcat(FNV_OFFSET, front + [49], LastFour(t));
  }

  lemma FoursDiffer(s: nat, t: nat)
    requires s < 10000 && t < 10000 && s != t
    ensures Digits(LastFour(s)) && Digits(LastFour(t)) && LastFour(s) != LastFour(t)
  {
    var a, b := LastFour(s), LastFour(t);
    FourDigits(s);
    FourDigits(t);
    assert a[0] == b[0] && a[1] == b[1] && a[2] == b[2] ==> a[3] != b[3];
  }

  /** The attempts from 10000 to 19999 all have different hashes. */
  lemma HashesDiffer(utf8: string -> seq<Byte>, plugin: string, raw: string, i: nat, j: nat)
    requires i < j < 10000
    ensures Fnv(FNV_OFFSET, Identity(utf8, plugin, raw, 10000 + i)) != Fnv(FNV_OFFSET, Identity(utf8, plugin, raw, 10000 + j))
  {
    IdentityEnds(utf8, plugin, raw, i);
    IdentityEnds(utf8, plugin, raw, j);
    FoursDiffer(i, j);
    DigitsTellApart(Fnv(FNV_OFFSET, utf8(plugin) + [0] + utf8(raw) + [0] + [49]), LastFour(i), LastFour(j));
  }

  /** The attempts from 10000 to 19999 all try different names. */
  lemma AttemptsDiffer(compose: (string, string) -> string, utf8: string -> seq<Byte>, plugin: string, raw: string, i: nat, j: nat)
    requires 10000 <= i < j < 20000
    ensures var search := SearchFor(CodeNaming(compose, utf8), plugin, raw); search.Candidate(i) != search.Candidate(j)
  {
    HashesDiffer(utf8, plugin, raw, i - 10000, j - 10000);
    NamesDiffer(compose(plugin, raw), Identity(utf8, plugin, raw, i), Identity(utf8, plugin, raw, j));
  }

  // ---- the retry loop ends -----------------------------------------------------------------------------------------

  /** With the code's own naming and fewer than 10000 names taken, the retry loop ends, for every plugin
      and tool, by attempt 19999. */
  lemma CodeSearchEnds(compose: (string, string) -> string, utf8: string -> seq<Byte>, plugin: string, raw: string,
                       direct: set<string>, taken: set<string>) returns (k: nat)
    requires |taken| < 10000
    ensures var search := SearchFor(CodeNaming(compose, utf8), plugin, raw);
            Ends(search, direct, taken) && k < 20000 && FirstFree(search, direct, taken, k)
  {
    var search := SearchFor(CodeNaming(compose, utf8), plugin, raw);
    forall i: nat, j: nat | 10000 <= i < j < 20000 ensures search.Candidate(i) != search.Candidate(j) {
      AttemptsDiffer(compose, utf8, plugin, raw, i, j);
    }
    k := WindowEnds(search, direct, taken, 10000, 10000);
  }

  /** With the code's own naming every retry loop of a merge of up to 10000 plugin tools ends. */
  lemma CodeOffersEnd(compose: (string, string) -> string, utf8: string -> seq<Byte>, direct: set<string>, offers: seq<(string, InnerTool)>)
    requires |offers| <= 10000
    ensures OffersEnd(CodeNaming(compose, utf8), direct, offers)
  {
    FirstCodeOffersEnd(compose, utf8, direct, offers, |offers|);
  }

  lemma {:induction false} FirstCodeOffersEnd(compose: (string, string) -> string, utf8: string -> seq<Byte>, direct: set<string>,
                                              offers: seq<(string, InnerTool)>, n: nat)
    requires n <= |offers| && n <= 10000
    ensures OffersEndUpTo(CodeNaming(compose, utf8), direct, offers, n)
  {
    if n > 0 {
      var before := AcceptedUpTo(CodeNaming(compose, utf8), direct, offers, n - 1);
      FirstCodeOffersEnd(compose, utf8, direct, offers, n - 1);
      AcceptedIsNoLonger(CodeNaming(compose, utf8), direct, offers, n - 1);
      NameSetSize(before);
      var k := CodeSearchEnds(compose, utf8, offers[n - 1].0, offers[n - 1].1.name, direct, NameSet(before));
    }
  }

  // ---- the names themselves ------------------------------------------------------------------------------------------

  function Power16(n: nat): nat {
    if n == 0 then 1 else 16 * Power16(n - 1)
  }

  lemma {:induction false} HexIsShort(h: nat, n: nat)
    requires n > 0 && h < Power16(n)
    ensures |Hex(h)| <= n
    decreases n
  {
    if h >= 16 {
      HexIsShort(h / 16, n - 1);
    }
  }

  lemma {:induction false} FnvInRange(h: nat, bytes: seq<Byte>)
    requires h < HASH_RANGE
    ensures Fnv(h, bytes) < HASH_RANGE
    decreases |bytes|
  {
    if bytes != [] {
      FnvInRange(Mixed(h, bytes[0]), bytes[1..]);
    }
  }

  lemma HashFitsHex()
    ensures Power16(16) == HASH_RANGE
  {
    assert Power16(4) == 0x1_0000;
    assert Power16(8) == 0x1_0000_0000;
    assert Power16(12) == 0x1_0000_0000_0000;
  }

  lemma PaddedIsSixteen(identity: seq<Byte>)
    ensures |PaddedHex(Fnv(FNV_OFFSET, identity))| == 16
  {
    FnvInRange(FNV_OFFSET, identity);
    HashFitsHex();
    HexIsShort(Fnv(FNV_OFFSET, identity), 16);
  }

  /** A name made from a hash has at most 64 characters: at most 47 of the composed name, an underscore,
      and exactly the 16 hexadecimal digits of the hash. */
  lemma NamesFit(base: string, identity: seq<Byte>)
    ensures var name, n := DisambiguatedName(base, identity), if |base| < 47 then |base| else 47;
            && |name| == n + 17 <= 64
            && name[..n] == base[..n] && name[n] == '_'
            && Value(name[n + 1..]) == Fnv(FNV_OFFSET, identity)
  {
    var n, digits := if |base| < 47 then |base| else 47, PaddedHex(Fnv(FNV_OFFSET, identity));
    PaddedIsSixteen(identity);
    PaddedIsItsValue(Fnv(FNV_OFFSET, identity));
    assert DisambiguatedName(base, identity) == base[..n] + "_" + digits;
    assert (base[..n] + "_" + digits)[n + 1..] == digits;
  }

  /** The hash of nothing is the offset, and a byte is mixed in by exclusive or, then multiplication. */
  lemma HashIs(bytes: seq<Byte>, b: Byte)
    ensures Fnv(FNV_OFFSET, []) == 0xcbf2_9ce4_8422_2325
    ensures Fnv(FNV_OFFSET, bytes + [b]) == Xor(Fnv(FNV_OFFSET, bytes), b) * 0x100_0000_01b3 % 0x1_0000_0000_0000_0000
  {
    FnvConcat(FNV_OFFSET, bytes, [b]);
    assert [b][1..] == [];
    assert Fnv(Fnv(FNV_OFFSET, bytes), [b]) == Fnv(Mixed(Fnv(FNV_OFFSET, bytes), b), []);
  }

  // ---- what is hashed ------------------------------------------------------------------------------------------------

  lemma {:induction false} DecimalTellsApart(j: nat, k: nat)
    requires j != k
    ensures Decimal(j) != Decimal(k)
  {
    if j >= 10 && k >= 10 {
      var a, b := Decimal(j), Decimal(k);
      assert a[..|a| - 1] == Decimal(j / 10) && b[..|b| - 1] == Decimal(k / 10);
      assert a[|a| - 1] == 48 + j % 10 && b[|b| - 1] == 48 + k % 10;
      if j / 10 != k / 10 {
        DecimalTellsApart(j / 10, k / 10);
      }
    } else {
      DecimalIsSomething(j / 10);
      DecimalIsSomething(k / 10);
    }
  }

  lemma DecimalIsSomething(k: nat)
    ensures |Decimal(k)| > 0
  {
  }

  /** Strings of bytes without zeros, one after the other with a zero between, can be told apart again. */
  lemma ZeroSeparates(a: seq<Byte>, b: seq<Byte>, a': seq<Byte>, b': seq<Byte>)
    requires 0 !in a && 0 !in a'
    requires a + [0] + b == a' + [0] + b'
    ensures a == a' && b == b'
  {
    FirstZero(a, b);
    FirstZero(a', b');
    assert |a| == |a'|;
    assert (a + [0] + b)[..|a|] == a && (a' + [0] + b')[..|a'|] == a';
    assert (a + [0] + b)[|a| + 1..] == b && (a' + [0] + b')[|a'| + 1..] == b';
  }

  lemma FirstZero(a: seq<Byte>, b: seq<Byte>)
    requires 0 !in a
    ensures (a + [0] + b)[|a|] == 0 && forall i :: 0 <= i < |a| ==> (a + [0] + b)[i] != 0
  {
    assert forall i :: 0 <= i < |a| ==> (a + [0] + b)[i] == a[i];
  }

  /** With names that contain no zero byte, different plugins, tools or attempts are hashed differently:
      what is hashed is different. */
  lemma IdentityTellsApart(utf8: string -> seq<Byte>, plugin: string, raw: string, i: nat, plugin': string, raw': string, j: nat)
    requires forall s, t :: utf8(s) == utf8(t) ==> s == t
    requires 0 !in utf8(plugin) && 0 !in utf8(raw) && 0 !in utf8(plugin') && 0 !in utf8(raw')
    requires Identity(utf8, plugin, raw, i) == Identity(utf8, plugin', raw', j)
    ensures plugin == plugin' && raw == raw' && i == j
  {
    var tail := (raw: string, k: nat) => utf8(raw) + if k == 0 then [] else [0] + Decimal(k);
    assert Identity(utf8, plugin, raw, i) == utf8(plugin) + [0] + tail(raw, i);
    assert Identity(utf8, plugin', raw', j) == utf8(plugin') + [0] + tail(raw', j);
    ZeroSeparates(utf8(plugin), tail(raw, i), utf8(plugin'), tail(raw', j));
    TailTellsApart(utf8(raw), i, utf8(raw'), j);
  }

  lemma TailTellsApart(a: seq<Byte>, i: nat, b: seq<Byte>, j: nat)
    requires 0 !in a && 0 !in b
    requires a + (if i == 0 then [] else [0] + Decimal(i)) == b + if j == 0 then [] else [0] + Decimal(j)
    ensures a == b && i == j
  {
    var x, y := a + (if i == 0 then [] else [0] + Decimal(i)), b + if j == 0 then [] else [0] + Decimal(j);
    assert i == 0 ==> x == a;
    assert j == 0 ==> y == b;
    assert i != 0 ==> x[|a|] == 0 && 0 in x;
    assert j != 0 ==> y[|b|] == 0 && 0 in y;
    if i != 0 && j != 0 {
      assert x == a + [0] + Decimal(i) && y == b + [0] + Decimal(j);
      ZeroSeparates(a, Decimal(i), b, Decimal(j));
      if i != j {
        DecimalTellsApart(i, j);
      }
    }
  }
}
