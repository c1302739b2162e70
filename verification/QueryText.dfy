/** The text of a query determines the query, so that the meaning of the tree is a meaning of the text. */
module QueryText {
  import opened Records
  import opened Listing

  lemma CancelPrefix(p: string, x: string, y: string)
    requires p + x == p + y
    ensures x == y
  {
    assert x == (p + x)[|p|..] == (p + y)[|p|..] == y;
  }

  lemma {:induction false} DecimalDigits(n: nat)
    ensures |Decimal(n)| > 0 && forall i :: 0 <= i < |Decimal(n)| ==> '0' <= Decimal(n)[i] <= '9'
  {
    if n < 10 {
    } else {
      DecimalDigits(n / 10);
    }
  }

  lemma {:induction false} DecimalInjective(m: nat, n: nat)
    requires Decimal(m) == Decimal(n)
    ensures m == n
  {
    if m < 10 && n < 10 {
    } else if m < 10 {
      DecimalDigits(n / 10);
    } else if n < 10 {
      DecimalDigits(m / 10);
    } else {
      var x, y := Decimal(m / 10), Decimal(n / 10);
      assert x == Decimal(m)[..|Decimal(m)| - 1] == Decimal(n)[..|Decimal(n)| - 1] == y;
      assert Decimal(m)[|x|] == Decimal(n)[|y|];
      DecimalInjective(m / 10, n / 10);
    }
  }

  /** The number a text of decimal digits spells. */
  function Number(s: string): int {
    if s == [] then 0 else 10 * Number(s[..|s| - 1]) + (s[|s| - 1] as int - '0' as int)
  }

  /** The digits of a placeholder spell its number. */
  lemma {:induction false} DecimalReads(n: nat)
    ensures Number(Decimal(n)) == n
  {
    if n < 10 {
      assert Decimal(n)[..0] == [];
    } else {
      DecimalReads(n / 10);
      assert Decimal(n)[..|Decimal(n)| - 1] == Decimal(n / 10);
    }
  }

  predicate NoDigitFirst(s: string) {
    s == [] || !('0' <= s[0] <= '9')
  }

  lemma DigitsReach(a: string, b: string, x: string, y: string)
    requires a + x == b + y && NoDigitFirst(x)
    requires forall i :: 0 <= i < |b| ==> '0' <= b[i] <= '9'
    ensures |b| <= |a|
  {
    var s := a + x;
    assert forall i :: 0 <= i < |b| ==> s[i] == b[i];
    assert |s| > |a| ==> s[|a|] == x[0];
  }

  /** A number ends where its digits end. */
  lemma DecimalPrefix(m: nat, n: nat, x: string, y: string)
    requires Decimal(m) + x == Decimal(n) + y && NoDigitFirst(x) && NoDigitFirst(y)
    ensures m == n && x == y
  {
    var a, b := Decimal(m), Decimal(n);
    DecimalDigits(m);
    DecimalDigits(n);
    hide Decimal;
    DigitsReach(a, b, x, y);
    DigitsReach(b, a, y, x);
    assert a == (a + x)[..|a|] == (b + y)[..|b|] == b;
    DecimalInjective(m, n);
    CancelPrefix(a, x, y);
  }

  predicate SameKind(c: Cond, d: Cond) {
    c.PartyIs? == d.PartyIs? && c.StatusIs? == d.StatusIs? && c.CreatedFrom? == d.CreatedFrom?
  }

  /** The characters that tell the kinds apart. */
  lemma HeadMarks(c: Cond)
    ensures |CondHead(c)| > 5 && (CondHead(c)[5] == if c.PartyIs? then '(' else if c.StatusIs? then 's' else 'c')
    ensures c.CreatedFrom? || c.CreatedUntil? ==>
      |CondHead(c)| > 16 && CondHead(c)[16] == if c.CreatedFrom? then '>' else '<'
  {
  }

  /** Two conditions whose texts begin alike are of one kind. */
  lemma HeadPrefix(c: Cond, d: Cond, x: string, y: string)
    requires CondHead(c) + x == CondHead(d) + y
    ensures SameKind(c, d) && x == y
  {
    HeadMarks(c);
    HeadMarks(d);
    hide CondHead;
    var s, t := CondHead(c) + x, CondHead(d) + y;
    assert s[5] == CondHead(c)[5] && t[5] == CondHead(d)[5];
    assert |CondHead(c)| > 16 ==> s[16] == CondHead(c)[16];
    assert |CondHead(d)| > 16 ==> t[16] == CondHead(d)[16];
    KindHasHead(c, d);
    CancelPrefix(CondHead(c), x, y);
  }

  lemma KindHasHead(c: Cond, d: Cond)
    requires SameKind(c, d)
    ensures CondHead(c) == CondHead(d)
  {
  }

  lemma RestPrefix(c: Cond, d: Cond, x: string, y: string)
    requires SameKind(c, d) && CondRest(c) + x == CondRest(d) + y && NoDigitFirst(x) && NoDigitFirst(y)
    ensures c == d && x == y
  {
    hide Decimal, NoDigitFirst;
    match c
    case PartyIs(p, q) => PartyPrefix(p, q, d.sender, d.receiver, x, y);
    case StatusIs(p) => DecimalPrefix(p, d.p, x, y);
    case CreatedFrom(p) => DecimalPrefix(p, d.p, x, y);
    case CreatedUntil(p) => DecimalPrefix(p, d.p, x, y);
  }

  lemma CondTextPrefix(c: Cond, d: Cond, x: string, y: string)
    requires CondText(c) + x == CondText(d) + y && NoDigitFirst(x) && NoDigitFirst(y)
    ensures c == d && x == y
  {
    hide CondHead, CondRest, NoDigitFirst, SameKind;
    assert CondText(c) + x == CondHead(c) + (CondRest(c) + x);
    assert CondText(d) + y == CondHead(d) + (CondRest(d) + y);
    HeadPrefix(c, d, CondRest(c) + x, CondRest(d) + y);
    RestPrefix(c, d, x, y);
  }

  lemma PartyText(p: nat, q: nat, x: string)
    ensures CondRest(PartyIs(p, q)) + x == Decimal(p) + (RECEIVER + (Decimal(q) + (")" + x)))
  {
    hide Decimal;
    var end := Decimal(q) + ")";
    assert end + x == Decimal(q) + (")" + x);
    assert RECEIVER + end + x == RECEIVER + (end + x);
    assert Decimal(p) + (RECEIVER + end) + x == Decimal(p) + (RECEIVER + end + x);
  }

  lemma PartyPrefix(p: nat, q: nat, p': nat, q': nat, x: string, y: string)
    requires CondRest(PartyIs(p, q)) + x == CondRest(PartyIs(p', q')) + y
    ensures p == p' && q == q' && x == y
  {
    hide Decimal;
    PartyText(p, q, x);
    PartyText(p', q', y);
    hide CondRest;
    var s, t := Decimal(q) + (")" + x), Decimal(q') + (")" + y);
    DecimalPrefix(p, p', RECEIVER + s, RECEIVER + t);
    CancelPrefix(RECEIVER, s, t);
    DecimalPrefix(q, q', ")" + x, ")" + y);
    CancelPrefix(")", x, y);
  }

  /** The texts of the conditions, one after the other, and then `rest`. */
  function Tail(conds: seq<Cond>, rest: string): string {
    if conds == [] then rest else CondText(conds[0]) + Tail(conds[1..], rest)
  }

  lemma {:induction false} TailSnoc(conds: seq<Cond>, last: Cond, rest: string)
    ensures Tail(conds + [last], rest) == Tail(conds, CondText(last) + rest)
  {
    hide CondText;
    if conds == [] {
      assert ([] + [last])[1..] == [];
    } else {
      TailSnoc(conds[1..], last, rest);
      assert (conds + [last])[1..] == conds[1..] + [last];
    }
  }

  lemma {:induction false} CondsTextIsTail(conds: seq<Cond>, rest: string)
    ensures CondsText(conds) + rest == COLUMNS + Tail(conds, rest)
  {
    hide CondText;
    if conds == [] {
    } else {
      var init, last := conds[..|conds| - 1], conds[|conds| - 1];
      CondsTextIsTail(init, CondText(last) + rest);
      TailSnoc(init, last, rest);
      assert conds == init + [last];
      assert CondsText(init) + CondText(last) + rest == CondsText(init) + (CondText(last) + rest);
    }
  }

  /** What follows the conditions. */
  predicate IsEnd(s: string) {
    ORDER <= s
  }

  lemma TailStart(conds: seq<Cond>, rest: string)
    requires IsEnd(rest)
    ensures |Tail(conds, rest)| > 5 && Tail(conds, rest)[0] == ' '
    ensures Tail(conds, rest)[5] == 'R' <==> conds == []
  {
    hide CondRest;
    if conds == [] {
      assert rest[..|ORDER|] == ORDER;
      assert rest[0] == ORDER[0] && rest[5] == ORDER[5];
    }
  }

  lemma {:induction false} TailInjective(c: seq<Cond>, d: seq<Cond>, x: string, y: string)
    requires IsEnd(x) && IsEnd(y) && Tail(c, x) == Tail(d, y)
    ensures c == d && x == y
  {
    hide CondText, IsEnd;
    TailStart(c, x);
    TailStart(d, y);
    if c == [] {
    } else {
      TailStart(c[1..], x);
      TailStart(d[1..], y);
      CondTextPrefix(c[0], d[0], Tail(c[1..], x), Tail(d[1..], y));
      TailInjective(c[1..], d[1..], x, y);
      assert c == [c[0]] + c[1..] && d == [d[0]] + d[1..];
    }
  }

  lemma EndInjective(m: nat, n: nat, a: Option<nat>, b: Option<nat>)
    requires Decimal(m) + OffsetText(a) == Decimal(n) + OffsetText(b)
    ensures m == n && a == b
  {
    hide Decimal;
    DecimalPrefix(m, n, OffsetText(a), OffsetText(b));
    if a.Some? && b.Some? {
      CancelPrefix(" OFFSET $", Decimal(a.value), Decimal(b.value));
      DecimalInjective(a.value, b.value);
    }
  }

  /** Queries with one text are one query, so that a text has one meaning. */
  lemma RenderInjective(q: Query, r: Query)
    requires Render(q) == Render(r)
    ensures q == r
  {
    hide Decimal, OffsetText, CondsText, Tail;
    var x, y := Decimal(q.limit) + OffsetText(q.offset), Decimal(r.limit) + OffsetText(r.offset);
    CondsTextIsTail(q.conds, ORDER + x);
    CondsTextIsTail(r.conds, ORDER + y);
    CancelPrefix(COLUMNS, Tail(q.conds, ORDER + x), Tail(r.conds, ORDER + y));
    TailInjective(q.conds, r.conds, ORDER + x, ORDER + y);
    CancelPrefix(ORDER, x, y);
    EndInjective(q.limit, r.limit, q.offset, r.offset);
  }

  // ---- The text in full ----

  lemma Digits()
    ensures Decimal(1) == "1" && Decimal(2) == "2" && Decimal(3) == "3"
    ensures Decimal(4) == "4" && Decimal(5) == "5" && Decimal(6) == "6"
  {
  }

  lemma FourConds(c: Cond, d: Cond, e: Cond, g: Cond)
    ensures CondsText([c, d, e, g]) == COLUMNS + CondText(c) + CondText(d) + CondText(e) + CondText(g)
  {
    hide CondText;
    CondsTextAppend([], c);
    CondsTextAppend([c], d);
    CondsTextAppend([c, d], e);
    CondsTextAppend([c, d, e], g);
    assert [] + [c] == [c] && [c] + [d] == [c, d] && [c, d] + [e] == [c, d, e] && [c, d, e] + [g] == [c, d, e, g];
    NoConds();
  }

  lemma PartyCondText()
    ensures CondText(PartyIs(1, 1)) == " AND (sender_id = $1 OR receiver_id = $1)"
  {
    Digits();
    hide Decimal;
    var end := " OR receiver_id = $1)";
    assert RECEIVER + ("1" + ")") == end;
    assert "1" + end == "1 OR receiver_id = $1)";
  }

  lemma StatusCondText()
    ensures CondText(StatusIs(2)) == " AND status = $2"
  {
    Digits();
  }

  lemma FromCondText()
    ensures CondText(CreatedFrom(3)) == " AND created_at >= $3"
  {
    Digits();
  }

  lemma UntilCondText()
    ensures CondText(CreatedUntil(4)) == " AND created_at <= $4"
  {
    Digits();
  }

  /** The query of a filter with every piece given. */
  lemma FullText(f: Filter)
    requires f.accountId != "" && f.status != "" && f.dateFrom != "" && f.dateTo != "" && f.offset > 0
    ensures Render(QueryOf(f)) ==
      "SELECT id, idempotency_key, sender_id, receiver_id, amount, currency, status, description, metadata, "
      + "provider_ref, created_at, updated_at FROM transactions WHERE 1=1"
      + " AND (sender_id = $1 OR receiver_id = $1)" + " AND status = $2"
      + " AND created_at >= $3" + " AND created_at <= $4"
      + (" ORDER BY created_at DESC LIMIT $" + ("5" + (" OFFSET $" + "6")))
  {
    var q := QueryOf(f);
    assert q.conds == [PartyIs(1, 1), StatusIs(2), CreatedFrom(3), CreatedUntil(4)];
    assert q.limit == 5 && q.offset == Some(6);
    hide QueryOf, CondText;
    FourConds(PartyIs(1, 1), StatusIs(2), CreatedFrom(3), CreatedUntil(4));
    PartyCondText();
    StatusCondText();
    FromCondText();
    UntilCondText();
    Digits();
    hide Decimal, CondsText;
  }
}
