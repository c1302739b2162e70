/** Account identifiers: 128-bit UUIDs (RFC 9562), their canonical text, and the order of that text.
    SettlePayment decides which account row to lock first by comparing two texts with Go's `<`. */
module Uuids {
  const UUID_COUNT: nat := 0x1_0000_0000_0000_0000_0000_0000_0000_0000

  /** A UUID as the 128-bit number its sixteen bytes spell, most significant byte first. */
  type Uuid = n: nat | n < UUID_COUNT

  /** The `len` least significant bytes of `n`, most significant byte first. */
  function LowBytes(n: nat, len: nat): (bytes: seq<nat>)
    ensures |bytes| == len
    ensures forall i :: 0 <= i < len ==> bytes[i] < 256
  {
    if len == 0 then [] else LowBytes(n / 256, len - 1) + [n % 256]
  }

  /** The sixteen bytes of a UUID in network order (section 4 of RFC 9562). */
  function Bytes(u: Uuid): seq<nat> {
    LowBytes(u, 16)
  }

  function HexChar(digit: nat): char
    requires digit < 16
  {
    "0123456789abcdef"[digit]
  }

  /** Two lower-case hexadecimal digits for each byte. */
  function Hex(bytes: seq<nat>): (h: string)
    requires forall i :: 0 <= i < |bytes| ==> bytes[i] < 256
    ensures |h| == 2 * |bytes|
  {
    if bytes == [] then []
    else [HexChar(bytes[0] / 16), HexChar(bytes[0] % 16)] + Hex(bytes[1..])
  }

  /** The canonical 8-4-4-4-12 text in lower case (section 4 of RFC 9562). */
  function Text(u: Uuid): string {
    var h := Hex(Bytes(u));
    h[..8] + ("-" + (h[8..12] + ("-" + (h[12..16] + ("-" + (h[16..20] + ("-" + h[20..])))))))
  }

  function Codes(s: string): seq<nat> {
    seq(|s|, i requires 0 <= i < |s| => s[i] as int)
  }

  /** Lexicographic order; a proper prefix comes first. */
  predicate LexLess(a: seq<nat>, b: seq<nat>) {
    if b == [] then false
    else if a == [] then true
    else if a[0] != b[0] then a[0] < b[0]
    else LexLess(a[1..], b[1..])
  }

  /** Go's `<` on strings. */
  predicate GoLess(a: string, b: string) {
    LexLess(Codes(a), Codes(b))
  }

  /** The comparison SettlePayment makes. It is the numeric order, hence a strict total order. */
  predicate TextLess(a: Uuid, b: Uuid): (less: bool)
    ensures less <==> a < b
  {
    TextOrder(a, b);
    GoLess(Text(a), Text(b))
  }

  lemma {:induction false} LexIrreflexive(a: seq<nat>)
    ensures !LexLess(a, a)
  {
    if a == [] {
    } else {
      LexIrreflexive(a[1..]);
    }
  }

  lemma {:induction false} LexConcat(p: seq<nat>, x: seq<nat>, q: seq<nat>, y: seq<nat>)
    requires |p| == |q|
    ensures LexLess(p + x, q + y) <==> LexLess(p, q) || (p == q && LexLess(x, y))
  {
    if p == [] {
      assert p + x == x && q + y == y;
    } else {
      assert (p + x)[1..] == p[1..] + x && (q + y)[1..] == q[1..] + y;
      LexConcat(p[1..], x, q[1..], y);
      assert p == [p[0]] + p[1..] && q == [q[0]] + q[1..];
    }
  }

  function Span(len: nat): nat {
    if len == 0 then 1 else 256 * Span(len - 1)
  }

  lemma WidthOfUuid()
    ensures Span(16) == UUID_COUNT
  {
    assert Span(4) == 0x1_0000_0000;
    assert Span(8) == 0x1_0000_0000_0000_0000;
    assert Span(12) == 0x1_0000_0000_0000_0000_0000_0000;
  }

  lemma AppendOrder(p: seq<nat>, i: nat, q: seq<nat>, j: nat)
    requires |p| == |q|
    ensures LexLess(p + [i], q + [j]) <==> LexLess(p, q) || (p == q && i < j)
    ensures p + [i] == q + [j] <==> p == q && i == j
  {
    LexConcat(p, [i], q, [j]);
    if p + [i] == q + [j] {
      assert p == (p + [i])[..|p|] == (q + [j])[..|q|] == q;
      assert i == (p + [i])[|p|] == (q + [j])[|q|] == j;
    }
  }

  /** Big-endian bytes of one width are compared like the numbers they spell. */
  lemma {:induction false} BytesOrder(m: nat, n: nat, len: nat)
    requires m < Span(len) && n < Span(len)
    ensures LexLess(LowBytes(m, len), LowBytes(n, len)) <==> m < n
    ensures LowBytes(m, len) == LowBytes(n, len) <==> m == n
  {
    if len == 0 {
    } else {
      BytesOrder(m / 256, n / 256, len - 1);
      AppendOrder(LowBytes(m / 256, len - 1), m % 256, LowBytes(n / 256, len - 1), n % 256);
    }
  }

  lemma HexCharOrder(i: nat, j: nat)
    requires i < 16 && j < 16
    ensures HexChar(i) as int < HexChar(j) as int <==> i < j
  {
  }

  function HexPair(byte: nat): (pair: seq<nat>)
    requires byte < 256
    ensures |pair| == 2
  {
    [HexChar(byte / 16) as int, HexChar(byte % 16) as int]
  }

  lemma HexPairOrder(x: nat, y: nat)
    requires x < 256 && y < 256
    ensures LexLess(HexPair(x), HexPair(y)) <==> x < y
    ensures HexPair(x) == HexPair(y) <==> x == y
  {
    var i, k, j, l := x / 16, x % 16, y / 16, y % 16;
    HexCharOrder(i, j);
    HexCharOrder(j, i);
    HexCharOrder(k, l);
    HexCharOrder(l, k);
    var p, q := HexPair(x), HexPair(y);
    assert [] + [p[0]] == [p[0]] && [] + [q[0]] == [q[0]];
    AppendOrder([], p[0], [], q[0]);
    assert p == [p[0]] + [p[1]] && q == [q[0]] + [q[1]];
    AppendOrder([p[0]], p[1], [q[0]], q[1]);
  }

  lemma CodesConcat(s: string, t: string)
    ensures Codes(s + t) == Codes(s) + Codes(t)
  {
  }

  lemma {:induction false} HexCodes(a: seq<nat>)
    requires a != [] && forall i :: 0 <= i < |a| ==> a[i] < 256
    ensures Codes(Hex(a)) == HexPair(a[0]) + Codes(Hex(a[1..]))
  {
    hide HexChar;
    var first := [HexChar(a[0] / 16), HexChar(a[0] % 16)];
    assert Codes(first) == HexPair(a[0]);
    hide Codes;
    CodesConcat(first, Hex(a[1..]));
  }

  /** Spelling bytes in hexadecimal keeps their order. */
  lemma {:induction false} HexOrder(a: seq<nat>, b: seq<nat>)
    requires |a| == |b|
    requires forall i :: 0 <= i < |a| ==> a[i] < 256 && b[i] < 256
    ensures GoLess(Hex(a), Hex(b)) <==> LexLess(a, b)
  {
    hide Codes, HexPair;
    if a == [] {
      assert Codes(Hex(b)) == [] by { NoCodes(); }
    } else {
      HexOrder(a[1..], b[1..]);
      HexCodes(a);
      HexCodes(b);
      LexConcat(HexPair(a[0]), Codes(Hex(a[1..])), HexPair(b[0]), Codes(Hex(b[1..])));
      HexPairOrder(a[0], b[0]);
    }
  }

  lemma NoCodes()
    ensures Codes([]) == []
  {
  }

  /** A separator at the same place in both operands does not change the order. */
  lemma Separator(p: string, x: string, x': string, q: string, y: string, y': string)
    requires |p| == |q|
    requires GoLess(x, y) <==> GoLess(x', y')
    ensures GoLess(p + ("-" + x), q + ("-" + y)) <==> GoLess(p + x', q + y')
  {
    var dash := Codes("-");
    assert Codes(p + ("-" + x)) == Codes(p) + (dash + Codes(x));
    assert Codes(q + ("-" + y)) == Codes(q) + (dash + Codes(y));
    assert Codes(p + x') == Codes(p) + Codes(x') && Codes(q + y') == Codes(q) + Codes(y');
    LexConcat(Codes(p), dash + Codes(x), Codes(q), dash + Codes(y));
    LexConcat(dash, Codes(x), dash, Codes(y));
    LexIrreflexive(dash);
    LexConcat(Codes(p), Codes(x'), Codes(q), Codes(y'));
  }

  lemma Joined(s: string, i: nat, j: nat)
    requires i <= j <= |s|
    ensures s[i..j] + s[j..] == s[i..]
  {
  }

  /** A separator put before position `j` of two strings, in what is left of them from position `i`. */
  lemma SeparatorAt(h: string, k: string, i: nat, j: nat, x: string, y: string)
    requires i <= j <= |h| && |h| == |k|
    requires GoLess(x, y) <==> GoLess(h[j..], k[j..])
    ensures GoLess(h[i..j] + ("-" + x), k[i..j] + ("-" + y)) <==> GoLess(h[i..], k[i..])
  {
    hide GoLess;
    Separator(h[i..j], x, h[j..], k[i..j], y, k[j..]);
    Joined(h, i, j);
    Joined(k, i, j);
  }

  /** Comparing the texts of two UUIDs compares the UUIDs. */
  lemma TextOrder(a: Uuid, b: Uuid)
    ensures GoLess(Text(a), Text(b)) <==> a < b
  {
    hide GoLess;
    var h, k := Hex(Bytes(a)), Hex(Bytes(b));
    SeparatorAt(h, k, 16, 20, h[20..], k[20..]);
    var h4, k4 := h[16..20] + ("-" + h[20..]), k[16..20] + ("-" + k[20..]);
    SeparatorAt(h, k, 12, 16, h4, k4);
    var h3, k3 := h[12..16] + ("-" + h4), k[12..16] + ("-" + k4);
    SeparatorAt(h, k, 8, 12, h3, k3);
    var h2, k2 := h[8..12] + ("-" + h3), k[8..12] + ("-" + k3);
    SeparatorAt(h, k, 0, 8, h2, k2);
    assert h[0..] == h && k[0..] == k && h[0..8] == h[..8] && k[0..8] == k[..8];
    HexOrder(Bytes(a), Bytes(b));
    WidthOfUuid();
    BytesOrder(a, b, 16);
  }

  /** The text order and the order of the sixteen bytes are the same strict total order on all
      2^128 identifiers, and distinct identifiers have distinct texts. */
  lemma LockOrderSound(a: Uuid, b: Uuid, c: Uuid)
    ensures GoLess(Text(a), Text(b)) <==> LexLess(Bytes(a), Bytes(b))
    ensures !GoLess(Text(a), Text(a))
    ensures GoLess(Text(a), Text(b)) && GoLess(Text(b), Text(c)) ==> GoLess(Text(a), Text(c))
    ensures a != b ==> (GoLess(Text(a), Text(b)) != GoLess(Text(b), Text(a)))
    ensures Text(a) == Text(b) ==> a == b
  {
    WidthOfUuid();
    TextOrder(a, b);
    TextOrder(b, a);
    TextOrder(b, c);
    TextOrder(a, c);
    TextOrder(a, a);
    BytesOrder(a, b, 16);
  }

  // ---- The text spells the identifier ----

  function DigitValue(c: char): nat {
    if '0' <= c <= '9' then c as int - '0' as int
    else if 'a' <= c <= 'f' then 10 + (c as int - 'a' as int)
    else 0
  }

  /** The number that hexadecimal digits spell, read after `before`; dashes are skipped. */
  function Read(s: string, before: nat): nat {
    if s == [] then before
    else Read(s[1..], if s[0] == '-' then before else 16 * before + DigitValue(s[0]))
  }

  lemma {:induction false} ReadConcat(p: string, q: string, before: nat)
    ensures Read(p + q, before) == Read(q, Read(p, before))
  {
    if p == [] {
      assert p + q == q;
    } else {
      assert (p + q)[1..] == p[1..] + q;
      ReadConcat(p[1..], q, if p[0] == '-' then before else 16 * before + DigitValue(p[0]));
    }
  }

  lemma HexDigit(digit: nat)
    requires digit < 16
    ensures var c := HexChar(digit); DigitValue(c) == digit && ('0' <= c <= '9' || 'a' <= c <= 'f')
  {
  }

  lemma {:induction false} HexConcat(a: seq<nat>, byte: nat)
    requires byte < 256 && forall i :: 0 <= i < |a| ==> a[i] < 256
    ensures Hex(a + [byte]) == Hex(a) + [HexChar(byte / 16), HexChar(byte % 16)]
  {
    hide HexChar;
    if a == [] {
      assert [] + [byte] == [byte] && [byte][1..] == [];
    } else {
      assert (a + [byte])[1..] == a[1..] + [byte];
      HexConcat(a[1..], byte);
    }
  }

  lemma {:induction false} ReadDigit(c: char, rest: string, before: nat)
    requires c != '-'
    ensures Read([c] + rest, before) == Read(rest, 16 * before + DigitValue(c))
  {
    assert ([c] + rest)[1..] == rest;
  }

  lemma {:induction false} ReadByte(byte: nat, before: nat)
    requires byte < 256
    ensures Read([HexChar(byte / 16), HexChar(byte % 16)], before) == 256 * before + byte
  {
    HexDigit(byte / 16);
    HexDigit(byte % 16);
    var i, j := HexChar(byte / 16), HexChar(byte % 16);
    hide HexChar, DigitValue;
    ReadDigit(i, [j], before);
    ReadDigit(j, [], 16 * before + DigitValue(i));
    assert [i, j] == [i] + [j] && [j] == [j] + [];
  }

  lemma {:induction false} ReadBytes(n: nat, len: nat)
    requires n < Span(len)
    ensures Read(Hex(LowBytes(n, len)), 0) == n
  {
    hide HexChar;
    if len == 0 {
    } else {
      ReadBytes(n / 256, len - 1);
      HexConcat(LowBytes(n / 256, len - 1), n % 256);
      ReadConcat(Hex(LowBytes(n / 256, len - 1)), [HexChar(n % 256 / 16), HexChar(n % 256 % 16)], 0);
      ReadByte(n % 256, n / 256);
    }
  }

  /** A dash does not change what is read. */
  lemma ReadDash(p: string, x: string, y: string, before: nat)
    requires forall acc: nat :: Read(x, acc) == Read(y, acc)
    ensures Read(p + ("-" + x), before) == Read(p + y, before)
  {
    ReadConcat(p, "-" + x, before);
    ReadConcat(p, y, before);
    assert ("-" + x)[0] == '-' && ("-" + x)[1..] == x;
  }

  lemma ReadDashAt(h: string, i: nat, j: nat, x: string)
    requires i <= j <= |h| && forall acc: nat :: Read(x, acc) == Read(h[j..], acc)
    ensures forall acc: nat :: Read(h[i..j] + ("-" + x), acc) == Read(h[i..], acc)
  {
    Joined(h, i, j);
    forall acc: nat ensures Read(h[i..j] + ("-" + x), acc) == Read(h[i..], acc) {
      ReadDash(h[i..j], x, h[j..], acc);
    }
  }

  predicate IsLowerHex(c: char) {
    '0' <= c <= '9' || 'a' <= c <= 'f'
  }

  lemma {:induction false} HexIsLower(bytes: seq<nat>)
    requires forall i :: 0 <= i < |bytes| ==> bytes[i] < 256
    ensures forall i :: 0 <= i < |Hex(bytes)| ==> IsLowerHex(Hex(bytes)[i])
  {
    if bytes == [] {
    } else {
      HexDigit(bytes[0] / 16);
      HexDigit(bytes[0] % 16);
      HexIsLower(bytes[1..]);
      var h, rest := Hex(bytes), Hex(bytes[1..]);
      hide Hex, HexChar, IsLowerHex;
      assert h == [HexChar(bytes[0] / 16), HexChar(bytes[0] % 16)] + rest by { HexSplit(bytes); }
      assert IsLowerHex(h[0]) && IsLowerHex(h[1]) by { LowerDigits(bytes[0]); }
      assert forall i :: 2 <= i < |h| ==> h[i] == rest[i - 2];
    }
  }

  lemma HexSplit(bytes: seq<nat>)
    requires bytes != [] && forall i :: 0 <= i < |bytes| ==> bytes[i] < 256
    ensures Hex(bytes) == [HexChar(bytes[0] / 16), HexChar(bytes[0] % 16)] + Hex(bytes[1..])
  {
  }

  lemma LowerDigits(byte: nat)
    requires byte < 256
    ensures IsLowerHex(HexChar(byte / 16)) && IsLowerHex(HexChar(byte % 16))
  {
    HexDigit(byte / 16);
    HexDigit(byte % 16);
  }

  /** The text is that of RFC 9562: 36 characters, dashes after the 8th, 12th, 16th and 20th digit, the
      digits in lower case. */
  lemma TextShape(u: Uuid)
    ensures |Text(u)| == 36
    ensures Text(u)[8] == '-' && Text(u)[13] == '-' && Text(u)[18] == '-' && Text(u)[23] == '-'
    ensures forall i :: 0 <= i < 36 && i != 8 && i != 13 && i != 18 && i != 23 ==>
      '0' <= Text(u)[i] <= '9' || 'a' <= Text(u)[i] <= 'f'
  {
    var h, t := Hex(Bytes(u)), Text(u);
    HexIsLower(Bytes(u));
    TextDigits(u);
    forall i | 0 <= i < 36 && i != 8 && i != 13 && i != 18 && i != 23 ensures IsLowerHex(t[i]) {
      var j := i - (if i > 23 then 4 else if i > 18 then 3 else if i > 13 then 2 else if i > 8 then 1 else 0);
      assert t[i] == h[j];
    }
  }

  /** Where the digits stand between the dashes. */
  lemma TextDigits(u: Uuid)
    ensures var h, t := Hex(Bytes(u)), Text(u);
      && |t| == 36 && t[8] == '-' && t[13] == '-' && t[18] == '-' && t[23] == '-'
      && (forall i :: 0 <= i < 8 ==> t[i] == h[i])
      && (forall i :: 9 <= i < 13 ==> t[i] == h[i - 1])
      && (forall i :: 14 <= i < 18 ==> t[i] == h[i - 2])
      && (forall i :: 19 <= i < 23 ==> t[i] == h[i - 3])
      && (forall i :: 24 <= i < 36 ==> t[i] == h[i - 4])
  {
    hide Hex, LowBytes;
    var h := Hex(Bytes(u));
    assert |h| == 32;
    hide Bytes;
    var t4 := h[16..20] + ("-" + h[20..]);
    Dashed(h[16..20], h[20..]);
    var t3 := h[12..16] + ("-" + t4);
    Dashed(h[12..16], t4);
    var t2 := h[8..12] + ("-" + t3);
    Dashed(h[8..12], t3);
    Dashed(h[..8], t2);
  }

  lemma Dashed(s: string, rest: string)
    ensures var t := s + ("-" + rest);
      && |t| == |s| + 1 + |rest| && t[|s|] == '-'
      && (forall i :: 0 <= i < |s| ==> t[i] == s[i])
      && (forall i :: |s| < i < |t| ==> t[i] == rest[i - |s| - 1])
  {
  }

  /** Its digits spell the 128-bit number: reading the text gives the identifier back. */
  lemma TextReads(u: Uuid)
    ensures Read(Text(u), 0) == u
  {
    WidthOfUuid();
    ReadBytes(u, 16);
    var h := Hex(Bytes(u));
    hide Read, Hex, Span;
    ReadDashAt(h, 16, 20, h[20..]);
    ReadDashAt(h, 12, 16, h[16..20] + ("-" + h[20..]));
    ReadDashAt(h, 8, 12, h[12..16] + ("-" + (h[16..20] + ("-" + h[20..]))));
    ReadDashAt(h, 0, 8, h[8..12] + ("-" + (h[12..16] + ("-" + (h[16..20] + ("-" + h[20..]))))));
    assert h[0..8] == h[..8] && h[0..] == h;
  }
}
