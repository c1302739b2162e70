/** ListTransactions: the filter is translated, piece by piece, into a query with numbered
    placeholders and an argument list. Here the query has a syntax tree and a meaning, and the
    translation is proved to mean the filter. */
module Listing {
  import opened Uuids
  import opened Records

  /** A stored transaction with the column the list is ordered by. */
  datatype Stored = Stored(txn: Transaction, createdAt: int)

  datatype Filter = Filter(accountId: string, status: string, dateFrom: string, dateTo: string, limit: int, offset: int)

  datatype Arg = TextArg(text: string) | NumArg(num: int)

  /** Placeholders are numbered from 1. */
  datatype Cond = PartyIs(sender: nat, receiver: nat) | StatusIs(p: nat) | CreatedFrom(p: nat) | CreatedUntil(p: nat)

  datatype Query = Query(conds: seq<Cond>, limit: nat, offset: Option<nat>)

  /** How PostgreSQL reads a text parameter as a UUID and as a timestamp; None is an error. */
  datatype Casts = Casts(uuid: string -> Option<Uuid>, time: string -> Option<int>)

  function StatusText(status: Status): string {
    match status
    case Pending => "pending"
    case Authorized => "authorized"
    case Settled => "settled"
    case Failed => "failed"
    case Refunded => "refunded"
  }

  // ---- Text ----

  function Decimal(n: nat): string {
    if n < 10 then ["0123456789"[n]] else Decimal(n / 10) + ["0123456789"[n % 10]]
  }

  const COLUMNS :=
    "SELECT id, idempotency_key, sender_id, receiver_id, amount, currency, status, description, metadata, "
    + "provider_ref, created_at, updated_at FROM transactions WHERE 1=1"

  /** The text of a condition up to its first placeholder number. */
  function CondHead(cond: Cond): string {
    match cond
    case PartyIs(_, _) => " AND (sender_id = $"
    case StatusIs(_) => " AND status = $"
    case CreatedFrom(_) => " AND created_at >= $"
    case CreatedUntil(_) => " AND created_at <= $"
  }

  const RECEIVER := " OR receiver_id = $"

  function CondRest(cond: Cond): string {
    match cond
    case PartyIs(p, q) => Decimal(p) + (RECEIVER + (Decimal(q) + ")"))
    case StatusIs(p) => Decimal(p)
    case CreatedFrom(p) => Decimal(p)
    case CreatedUntil(p) => Decimal(p)
  }

  function CondText(cond: Cond): string {
    CondHead(cond) + CondRest(cond)
  }

  function CondsText(conds: seq<Cond>): string {
    if conds == [] then COLUMNS else CondsText(conds[..|conds| - 1]) + CondText(conds[|conds| - 1])
  }

  function OffsetText(offset: Option<nat>): string {
    if offset.Some? then " OFFSET $" + Decimal(offset.value) else ""
  }

  const ORDER := " ORDER BY created_at DESC LIMIT $"

  /** The SQL text of a query. */
  function Render(q: Query): string {
    CondsText(q.conds) + (ORDER + (Decimal(q.limit) + OffsetText(q.offset)))
  }

  // ---- Meaning of a query ----

  predicate TextAt(args: seq<Arg>, p: nat) {
    1 <= p <= |args| && args[p - 1].TextArg?
  }

  predicate CountAt(args: seq<Arg>, p: nat) {
    1 <= p <= |args| && args[p - 1].NumArg? && args[p - 1].num >= 0
  }

  /** Every parameter of the condition is there and can be read as its column's type. */
  predicate CondBinds(cond: Cond, args: seq<Arg>, casts: Casts) {
    match cond
    case PartyIs(p, q) =>
      && TextAt(args, p) && casts.uuid(args[p - 1].text).Some?
      && TextAt(args, q) && casts.uuid(args[q - 1].text).Some?
    case StatusIs(p) => TextAt(args, p)
    case CreatedFrom(p) => TextAt(args, p) && casts.time(args[p - 1].text).Some?
    case CreatedUntil(p) => TextAt(args, p) && casts.time(args[p - 1].text).Some?
  }

  predicate Binds(q: Query, args: seq<Arg>, casts: Casts) {
    && (forall i :: 0 <= i < |q.conds| ==> CondBinds(q.conds[i], args, casts))
    && CountAt(args, q.limit)
    && (q.offset.Some? ==> CountAt(args, q.offset.value))
  }

  predicate CondHolds(cond: Cond, args: seq<Arg>, casts: Casts, row: Stored)
    requires CondBinds(cond, args, casts)
  {
    match cond
    case PartyIs(p, q) =>
      || row.txn.sender == casts.uuid(args[p - 1].text).value
      || row.txn.receiver == casts.uuid(args[q - 1].text).value
    case StatusIs(p) => StatusText(row.txn.status) == args[p - 1].text
    case CreatedFrom(p) => row.createdAt >= casts.time(args[p - 1].text).value
    case CreatedUntil(p) => row.createdAt <= casts.time(args[p - 1].text).value
  }

  function Where(q: Query, args: seq<Arg>, casts: Casts, table: seq<Stored>): seq<Stored>
    requires Binds(q, args, casts)
  {
    if table == [] then []
    else
      var last := table[|table| - 1];
      Where(q, args, casts, table[..|table| - 1])
      + if forall i :: 0 <= i < |q.conds| ==> CondHolds(q.conds[i], args, casts, last) then [last] else []
  }

  ghost predicate NewestFirst(rows: seq<Stored>) {
    forall i, j :: 0 <= i < j < |rows| ==> rows[i].createdAt >= rows[j].createdAt
  }

  /** ORDER BY created_at DESC: rows of equal time may come in any order. */
  ghost predicate Sorts(sorted: seq<Stored>, rows: seq<Stored>) {
    NewestFirst(sorted) && multiset(sorted) == multiset(rows)
  }

  function Min(a: int, b: int): int {
    if a < b then a else b
  }

  function Page(rows: seq<Stored>, offset: nat, limit: nat): seq<Stored> {
    rows[Min(offset, |rows|)..Min(offset + limit, |rows|)]
  }

  /** `out` is an answer the database may give; None is an error. */
  ghost predicate Answers(q: Query, args: seq<Arg>, casts: Casts, table: seq<Stored>, out: Option<seq<Stored>>) {
    if !Binds(q, args, casts) then out == None
    else
      var offset := if q.offset.Some? then args[q.offset.value - 1].num else 0;
      out.Some? && exists sorted ::
        Sorts(sorted, Where(q, args, casts, table)) && out.value == Page(sorted, offset, args[q.limit - 1].num)
  }

  // ---- Meaning of a filter ----

  function EffectiveLimit(f: Filter): (limit: nat)
    ensures if 1 <= f.limit <= 100 then limit == f.limit else limit == 50
  {
    if f.limit <= 0 || f.limit > 100 then 50 else f.limit
  }

  function EffectiveOffset(f: Filter): (offset: nat)
    ensures if f.offset > 0 then offset == f.offset else offset == 0
  {
    if f.offset > 0 then f.offset else 0
  }

  predicate Readable(f: Filter, casts: Casts) {
    && (f.accountId != "" ==> casts.uuid(f.accountId).Some?)
    && (f.dateFrom != "" ==> casts.time(f.dateFrom).Some?)
    && (f.dateTo != "" ==> casts.time(f.dateTo).Some?)
  }

  predicate Selected(f: Filter, casts: Casts, row: Stored)
    requires Readable(f, casts)
  {
    && (f.accountId != "" ==>
          row.txn.sender == casts.uuid(f.accountId).value || row.txn.receiver == casts.uuid(f.accountId).value)
    && (f.status != "" ==> StatusText(row.txn.status) == f.status)
    && (f.dateFrom != "" ==> casts.time(f.dateFrom).value <= row.createdAt)
    && (f.dateTo != "" ==> row.createdAt <= casts.time(f.dateTo).value)
  }

  function Select(f: Filter, casts: Casts, table: seq<Stored>): seq<Stored>
    requires Readable(f, casts)
  {
    if table == [] then []
    else
      var last := table[|table| - 1];
      Select(f, casts, table[..|table| - 1]) + if Selected(f, casts, last) then [last] else []
  }

  /** What listing with `f` should give: an error for an unreadable filter, otherwise one page of the
      selected rows, newest first. */
  ghost predicate Lists(f: Filter, casts: Casts, table: seq<Stored>, out: Option<seq<Stored>>) {
    if !Readable(f, casts) then out == None
    else
      out.Some? && exists sorted ::
        Sorts(sorted, Select(f, casts, table)) && out.value == Page(sorted, EffectiveOffset(f), EffectiveLimit(f))
  }

  // ---- The translation ----

  /** The conditions and arguments built so far; the next placeholder is |args| + 1. */
  datatype Build = Build(conds: seq<Cond>, args: seq<Arg>)

  function Add(b: Build, cond: Cond, text: string): Build {
    Build(b.conds + [cond], b.args + [TextArg(text)])
  }

  function AddParty(f: Filter, b: Build): Build {
    if f.accountId != "" then Add(b, PartyIs(|b.args| + 1, |b.args| + 1), f.accountId) else b
  }

  function AddStatus(f: Filter, b: Build): Build {
    if f.status != "" then Add(b, StatusIs(|b.args| + 1), f.status) else b
  }

  function AddFrom(f: Filter, b: Build): Build {
    if f.dateFrom != "" then Add(b, CreatedFrom(|b.args| + 1), f.dateFrom) else b
  }

  function AddUntil(f: Filter, b: Build): Build {
    if f.dateTo != "" then Add(b, CreatedUntil(|b.args| + 1), f.dateTo) else b
  }

  function Conditions(f: Filter): Build {
    AddUntil(f, AddFrom(f, AddStatus(f, AddParty(f, Build([], [])))))
  }

  function ArgsOf(f: Filter): seq<Arg> {
    Conditions(f).args + [NumArg(EffectiveLimit(f))] + if f.offset > 0 then [NumArg(f.offset)] else []
  }

  function QueryOf(f: Filter): Query {
    var n := |Conditions(f).args|;
    Query(Conditions(f).conds, n + 1, if f.offset > 0 then Some(n + 2) else None)
  }

  lemma CondsTextAppend(conds: seq<Cond>, cond: Cond)
    ensures CondsText(conds + [cond]) == CondsText(conds) + CondText(cond)
  {
    assert (conds + [cond])[..|conds|] == conds;
  }

  /** The rendering in the order in which the builder appends it. */
  lemma RenderText(q: Query)
    ensures var text := CondsText(q.conds) + " ORDER BY created_at DESC" + (" LIMIT $" + Decimal(q.limit));
      Render(q) == if q.offset.Some? then text + (" OFFSET $" + Decimal(q.offset.value)) else text
  {
    hide Decimal, CondsText;
    assert ORDER == " ORDER BY created_at DESC" + " LIMIT $";
  }

  /** The builder: query text, argument list and next placeholder number grow together. */
  method BuildQuery(f: Filter) returns (query: string, args: seq<Arg>)
    ensures query == Render(QueryOf(f)) && args == ArgsOf(f)
    ensures f.offset <= 0 ==> |args| > 0 && args[|args| - 1] == NumArg(if 1 <= f.limit <= 100 then f.limit else 50)
    ensures f.offset > 0 ==>
      && |args| > 1 && args[|args| - 2] == NumArg(if 1 <= f.limit <= 100 then f.limit else 50)
      && args[|args| - 1] == NumArg(f.offset)
  {
    hide Decimal, CondsText, Conditions, Render;
    var argIdx;
    query, args, argIdx := BuildConditions(f);
    RenderText(QueryOf(f));
    query := query + " ORDER BY created_at DESC";
    var limit := f.limit;
    if limit <= 0 || limit > 100 {
      limit := 50;
    }
    query := query + (" LIMIT $" + Decimal(argIdx));
    args := args + [NumArg(limit)];
    argIdx := argIdx + 1;
    if f.offset > 0 {
      query := query + (" OFFSET $" + Decimal(argIdx));
      args := args + [NumArg(f.offset)];
    }
  }

  method BuildConditions(f: Filter) returns (query: string, args: seq<Arg>, argIdx: nat)
    ensures query == CondsText(Conditions(f).conds) && args == Conditions(f).args && argIdx == |args| + 1
  {
    hide Decimal, CondsText;
    query := COLUMNS;
    args := [];
    argIdx := 1;
    ghost var b := Build([], []);
    assert query == CondsText(b.conds) by { NoConds(); }
    if f.accountId != "" {
      CondsTextAppend(b.conds, PartyIs(argIdx, argIdx));
      query := query + (" AND (sender_id = $" + (Decimal(argIdx) + (" OR receiver_id = $" + (Decimal(argIdx) + ")"))));
      args := args + [TextArg(f.accountId)];
      argIdx := argIdx + 1;
    }
    b := AddParty(f, b);
    assert argIdx == |args| + 1 && args == b.args && query == CondsText(b.conds);
    if f.status != "" {
      CondsTextAppend(b.conds, StatusIs(argIdx));
      query := query + (" AND status = $" + Decimal(argIdx));
      args := args + [TextArg(f.status)];
      argIdx := argIdx + 1;
    }
    b := AddStatus(f, b);
    assert argIdx == |args| + 1 && args == b.args && query == CondsText(b.conds);
    if f.dateFrom != "" {
      CondsTextAppend(b.conds, CreatedFrom(argIdx));
      query := query + (" AND created_at >= $" + Decimal(argIdx));
      args := args + [TextArg(f.dateFrom)];
      argIdx := argIdx + 1;
    }
    b := AddFrom(f, b);
    assert argIdx == |args| + 1 && args == b.args && query == CondsText(b.conds);
    if f.dateTo != "" {
      CondsTextAppend(b.conds, CreatedUntil(argIdx));
      query := query + (" AND created_at <= $" + Decimal(argIdx));
      args := args + [TextArg(f.dateTo)];
      argIdx := argIdx + 1;
    }
    b := AddUntil(f, b);
  }

  lemma NoConds()
    ensures CondsText([]) == COLUMNS
  {
  }

  // ---- The translation means the filter ----

  function CondPlaceholders(cond: Cond): set<nat> {
    match cond
    case PartyIs(p, q) => {p, q}
    case StatusIs(p) => {p}
    case CreatedFrom(p) => {p}
    case CreatedUntil(p) => {p}
  }

  predicate Uses(conds: seq<Cond>, p: nat) {
    exists i :: 0 <= i < |conds| && p in CondPlaceholders(conds[i])
  }

  /** The placeholders used are exactly 1 to the number of arguments. */
  ghost predicate Exact(b: Build) {
    forall p: nat :: Uses(b.conds, p) <==> 1 <= p <= |b.args|
  }

  lemma AddIsExact(b: Build, cond: Cond, text: string)
    requires Exact(b) && CondPlaceholders(cond) == {|b.args| + 1}
    ensures Exact(Add(b, cond, text))
  {
    var c := Add(b, cond, text);
    forall p: nat ensures Uses(c.conds, p) <==> 1 <= p <= |c.args| {
      if Uses(b.conds, p) {
        var i :| 0 <= i < |b.conds| && p in CondPlaceholders(b.conds[i]);
        assert c.conds[i] == b.conds[i];
      }
      if p == |b.args| + 1 {
        assert c.conds[|b.conds|] == cond && p in CondPlaceholders(cond);
      }
      if Uses(c.conds, p) {
        var i :| 0 <= i < |c.conds| && p in CondPlaceholders(c.conds[i]);
        if i < |b.conds| { assert b.conds[i] == c.conds[i] && Uses(b.conds, p); }
      }
    }
  }

  lemma ConditionsExact(f: Filter)
    ensures Exact(Conditions(f))
  {
    hide Exact, Add;
    var b0 := Build([], []);
    assert Exact(b0) by { NothingUsed(); }
    var b1 := AddParty(f, b0);
    if f.accountId != "" { AddIsExact(b0, PartyIs(|b0.args| + 1, |b0.args| + 1), f.accountId); }
    var b2 := AddStatus(f, b1);
    if f.status != "" { AddIsExact(b1, StatusIs(|b1.args| + 1), f.status); }
    var b3 := AddFrom(f, b2);
    if f.dateFrom != "" { AddIsExact(b2, CreatedFrom(|b2.args| + 1), f.dateFrom); }
    if f.dateTo != "" { AddIsExact(b3, CreatedUntil(|b3.args| + 1), f.dateTo); }
  }

  lemma NothingUsed()
    ensures Exact(Build([], []))
  {
  }

  /** Every placeholder of the built query is in range and every argument is used. */
  lemma PlaceholdersExact(f: Filter, p: nat)
    ensures var q := QueryOf(f);
      1 <= p <= |ArgsOf(f)| <==> Uses(q.conds, p) || p == q.limit || q.offset == Some(p)
  {
    ConditionsExact(f);
  }

  /** What a list of conditions asks of a row; None if some argument cannot be read. */
  function Verdict(conds: seq<Cond>, args: seq<Arg>, casts: Casts, row: Stored): Option<bool> {
    if conds == [] then Some(true)
    else
      var before, last := Verdict(conds[..|conds| - 1], args, casts, row), conds[|conds| - 1];
      if before.None? || !CondBinds(last, args, casts) then None
      else Some(before.value && CondHolds(last, args, casts, row))
  }

  lemma {:induction false} VerdictMeans(conds: seq<Cond>, args: seq<Arg>, casts: Casts, row: Stored)
    ensures Verdict(conds, args, casts, row).Some?
      <==> forall i :: 0 <= i < |conds| ==> CondBinds(conds[i], args, casts)
    ensures Verdict(conds, args, casts, row).Some? ==>
      Verdict(conds, args, casts, row).value
        == forall i :: 0 <= i < |conds| ==> CondHolds(conds[i], args, casts, row)
  {
    if conds == [] {
    } else {
      var init := conds[..|conds| - 1];
      VerdictMeans(init, args, casts, row);
      assert conds == init + [conds[|conds| - 1]];
    }
  }

  /** Conditions do not see arguments added after the ones they use. */
  lemma {:induction false} VerdictStable(conds: seq<Cond>, args: seq<Arg>, more: seq<Arg>, casts: Casts, row: Stored)
    requires forall p: nat :: Uses(conds, p) ==> 1 <= p <= |args|
    ensures Verdict(conds, args + more, casts, row) == Verdict(conds, args, casts, row)
  {
    if conds == [] {
    } else {
      var n := |conds| - 1;
      var init, last := conds[..n], conds[n];
      forall p: nat | Uses(init, p) ensures 1 <= p <= |args| {
        var i :| 0 <= i < |init| && p in CondPlaceholders(init[i]);
        assert conds[i] == init[i] && Uses(conds, p);
      }
      VerdictStable(init, args, more, casts, row);
      forall p | p in CondPlaceholders(last) ensures 1 <= p <= |args| {
        assert p in CondPlaceholders(conds[n]) && Uses(conds, p);
      }
      CondStable(last, args, more, casts, row);
    }
  }

  lemma CondStable(cond: Cond, args: seq<Arg>, more: seq<Arg>, casts: Casts, row: Stored)
    requires forall p :: p in CondPlaceholders(cond) ==> 1 <= p <= |args|
    ensures CondBinds(cond, args + more, casts) <==> CondBinds(cond, args, casts)
    ensures CondBinds(cond, args, casts) ==>
      (CondHolds(cond, args + more, casts, row) <==> CondHolds(cond, args, casts, row))
  {
    match cond
    case PartyIs(p, q) => assert p in CondPlaceholders(cond) && q in CondPlaceholders(cond);
    case StatusIs(p) => assert p in CondPlaceholders(cond);
    case CreatedFrom(p) => assert p in CondPlaceholders(cond);
    case CreatedUntil(p) => assert p in CondPlaceholders(cond);
  }

  function And(a: Option<bool>, b: Option<bool>): Option<bool> {
    if a.None? || b.None? then None else Some(a.value && b.value)
  }

  /** What a condition asks of a row when `text` is bound to its placeholder. */
  function Asks(cond: Cond, text: string, casts: Casts, row: Stored): Option<bool> {
    match cond
    case PartyIs(_, _) =>
      if casts.uuid(text).None? then None
      else Some(row.txn.sender == casts.uuid(text).value || row.txn.receiver == casts.uuid(text).value)
    case StatusIs(_) => Some(StatusText(row.txn.status) == text)
    case CreatedFrom(_) => if casts.time(text).None? then None else Some(row.createdAt >= casts.time(text).value)
    case CreatedUntil(_) => if casts.time(text).None? then None else Some(row.createdAt <= casts.time(text).value)
  }

  lemma VerdictAfterAdd(b: Build, cond: Cond, text: string, casts: Casts, row: Stored)
    requires Exact(b) && CondPlaceholders(cond) == {|b.args| + 1}
    ensures var c := Add(b, cond, text);
      Verdict(c.conds, c.args, casts, row) == And(Verdict(b.conds, b.args, casts, row), Asks(cond, text, casts, row))
  {
    var c := Add(b, cond, text);
    assert c.conds[..|b.conds|] == b.conds;
    VerdictStable(b.conds, b.args, [TextArg(text)], casts, row);
    match cond
    case PartyIs(p, q) => assert p in CondPlaceholders(cond) && q in CondPlaceholders(cond);
    case StatusIs(p) => assert p in CondPlaceholders(cond);
    case CreatedFrom(p) => assert p in CondPlaceholders(cond);
    case CreatedUntil(p) => assert p in CondPlaceholders(cond);
  }

  /** An optional piece of a filter: an empty text asks nothing. */
  lemma PieceAdded(b: Build, cond: Cond, text: string, casts: Casts, row: Stored)
    requires Exact(b) && CondPlaceholders(cond) == {|b.args| + 1}
    ensures var c := if text != "" then Add(b, cond, text) else b;
      && Exact(c)
      && Verdict(c.conds, c.args, casts, row)
         == And(Verdict(b.conds, b.args, casts, row), if text != "" then Asks(cond, text, casts, row) else Some(true))
  {
    hide Exact, Add, Verdict;
    if text != "" {
      AddIsExact(b, cond, text);
      VerdictAfterAdd(b, cond, text, casts, row);
    }
  }

  /** What the filter asks of a row; None if it cannot be read. */
  function Wanted(f: Filter, casts: Casts, row: Stored): Option<bool> {
    if Readable(f, casts) then Some(Selected(f, casts, row)) else None
  }

  /** The built conditions ask of a row what the filter asks. */
  lemma ConditionsCorrect(f: Filter, casts: Casts, row: Stored)
    ensures Verdict(Conditions(f).conds, Conditions(f).args, casts, row) == Wanted(f, casts, row)
  {
    hide Exact, Verdict, Add;
    var b0 := Build([], []);
    NothingUsed();
    NoVerdict(casts, row);
    PieceAdded(b0, PartyIs(1, 1), f.accountId, casts, row);
    var b1 := AddParty(f, b0);
    PieceAdded(b1, StatusIs(|b1.args| + 1), f.status, casts, row);
    var b2 := AddStatus(f, b1);
    PieceAdded(b2, CreatedFrom(|b2.args| + 1), f.dateFrom, casts, row);
    var b3 := AddFrom(f, b2);
    PieceAdded(b3, CreatedUntil(|b3.args| + 1), f.dateTo, casts, row);
  }

  lemma NoVerdict(casts: Casts, row: Stored)
    ensures Verdict([], [], casts, row) == Some(true)
  {
  }

  lemma TranslationVerdict(f: Filter, casts: Casts, row: Stored)
    ensures Verdict(QueryOf(f).conds, ArgsOf(f), casts, row) == Wanted(f, casts, row)
  {
    hide Conditions, Verdict, Wanted;
    ConditionsExact(f);
    ConditionsCorrect(f, casts, row);
    var more := [NumArg(EffectiveLimit(f))] + if f.offset > 0 then [NumArg(f.offset)] else [];
    assert ArgsOf(f) == Conditions(f).args + more;
    VerdictStable(Conditions(f).conds, Conditions(f).args, more, casts, row);
  }

  lemma TranslationPages(f: Filter)
    ensures var q, args := QueryOf(f), ArgsOf(f);
      && CountAt(args, q.limit) && args[q.limit - 1].num == EffectiveLimit(f)
      && (q.offset.Some? ==> CountAt(args, q.offset.value) && args[q.offset.value - 1].num == f.offset)
      && (q.offset.Some? <==> f.offset > 0)
  {
    hide Conditions;
  }

  lemma TranslationBinds(f: Filter, casts: Casts)
    ensures Binds(QueryOf(f), ArgsOf(f), casts) <==> Readable(f, casts)
  {
    hide QueryOf, ArgsOf, Readable, Verdict, CondBinds;
    var row := Stored(Transaction(0, "", 0, 0, 0, "", Pending, ""), 0);
    TranslationVerdict(f, casts, row);
    VerdictMeans(QueryOf(f).conds, ArgsOf(f), casts, row);
    TranslationPages(f);
  }

  lemma {:induction false} WhereIsSelect(f: Filter, casts: Casts, table: seq<Stored>)
    requires Readable(f, casts) && Binds(QueryOf(f), ArgsOf(f), casts)
    ensures Where(QueryOf(f), ArgsOf(f), casts, table) == Select(f, casts, table)
  {
    hide QueryOf, ArgsOf, Readable, Binds, Selected, Verdict;
    if table == [] {
    } else {
      var last := table[|table| - 1];
      WhereIsSelect(f, casts, table[..|table| - 1]);
      TranslationVerdict(f, casts, last);
      VerdictMeans(QueryOf(f).conds, ArgsOf(f), casts, last);
    }
  }

  /** The translation preserves meaning: the database's possible answers to the built query are
      exactly what the filter asks for, on every table. */
  lemma TranslationCorrect(f: Filter, casts: Casts, table: seq<Stored>, out: Option<seq<Stored>>)
    ensures Answers(QueryOf(f), ArgsOf(f), casts, table, out) <==> Lists(f, casts, table, out)
  {
    hide QueryOf, ArgsOf, Readable, Binds, Sorts, Page;
    TranslationBinds(f, casts);
    TranslationPages(f);
    if Readable(f, casts) {
      WhereIsSelect(f, casts, table);
    }
  }

  // ---- What becomes of the answer ----

  /** What comes back for a query: an error at once, or rows and, after the last, whether reading them
      ended in an error. A row is None if its columns do not scan. */
  datatype Delivery = QueryFailed | Cursor(rows: seq<Option<Stored>>, failed: bool)

  predicate Follows(rows: seq<Option<Stored>>, full: seq<Stored>) {
    |rows| <= |full| && forall i :: 0 <= i < |rows| && rows[i].Some? ==> rows[i].value == full[i]
  }

  /** What may come back: any query can fail; a connection can break after some rows of an answer;
      parameters the server cannot read are reported at once or when rows are read. */
  ghost predicate Sends(q: Query, args: seq<Arg>, casts: Casts, table: seq<Stored>, d: Delivery) {
    d.Cursor? ==>
      if Binds(q, args, casts) then
        exists full ::
          Answers(q, args, casts, table, Some(full)) && Follows(d.rows, full) && (d.failed || |d.rows| == |full|)
      else d.failed && d.rows == []
  }

  predicate Scans(rows: seq<Option<Stored>>) {
    forall i :: 0 <= i < |rows| ==> rows[i].Some?
  }

  function Values(rows: seq<Option<Stored>>): seq<Stored>
    requires Scans(rows)
  {
    seq(|rows|, i requires 0 <= i < |rows| => rows[i].value)
  }

  /** What the caller gets; None is an error. An error met after the last row read is not looked at. */
  function Received(d: Delivery): Option<seq<Stored>> {
    if d.Cursor? && Scans(d.rows) then Some(Values(d.rows)) else None
  }

  /** The number of rows on a page of a list of `total` rows. */
  function PageLength(total: nat, offset: nat, limit: nat): nat {
    if total <= offset then 0 else Min(limit, total - offset)
  }

  lemma ListLength(f: Filter, casts: Casts, table: seq<Stored>, list: seq<Stored>)
    requires Readable(f, casts) && Lists(f, casts, table, Some(list))
    ensures |list| == PageLength(|Select(f, casts, table)|, EffectiveOffset(f), EffectiveLimit(f))
  {
    hide Readable, Select, EffectiveOffset, EffectiveLimit, NewestFirst;
    var sorted :| Sorts(sorted, Select(f, casts, table)) && list == Page(sorted, EffectiveOffset(f), EffectiveLimit(f));
    SameLength(sorted, Select(f, casts, table));
  }

  /** Whether the caller gets what the filter asks for, by the filter and the rows that arrived: an
      error is right exactly for an unreadable filter, a list for a readable one exactly if it has
      the length of its page. */
  lemma ListIsRight(f: Filter, casts: Casts, table: seq<Stored>, d: Delivery)
    requires Sends(QueryOf(f), ArgsOf(f), casts, table, d)
    ensures Lists(f, casts, table, Received(d)) <==>
      match d
      case QueryFailed => !Readable(f, casts)
      case Cursor(rows, failed) =>
        && Readable(f, casts) && Scans(rows)
        && (failed ==> |rows| == PageLength(|Select(f, casts, table)|, EffectiveOffset(f), EffectiveLimit(f)))
  {
    TranslationBinds(f, casts);
    hide Readable, Binds, Answers, Sorts, Page, Select, PageLength, QueryOf, ArgsOf, EffectiveOffset, EffectiveLimit;
    if d.Cursor? && Readable(f, casts) {
      var full :| Answers(QueryOf(f), ArgsOf(f), casts, table, Some(full))
               && Follows(d.rows, full) && (d.failed || |d.rows| == |full|);
      TranslationCorrect(f, casts, table, Some(full));
      ListLength(f, casts, table, full);
      if Scans(d.rows) {
        assert |d.rows| == |full| ==> Values(d.rows) == full;
        if Lists(f, casts, table, Some(Values(d.rows))) {
          ListLength(f, casts, table, Values(d.rows));
        }
      }
    }
  }

  /** The connection holds and the rows scan: only unreadable parameters cause an error. */
  ghost predicate Unbroken(f: Filter, casts: Casts, d: Delivery) {
    match d
    case QueryFailed => !Readable(f, casts)
    case Cursor(rows, failed) => Scans(rows) && (failed ==> !Readable(f, casts))
  }

  /** Over an unbroken connection every answer is right if and only if the filter is readable, which a
      caller can check beforehand. */
  lemma RightIffReadable(f: Filter, casts: Casts, table: seq<Stored>)
    ensures (forall d: Delivery :: Sends(QueryOf(f), ArgsOf(f), casts, table, d) && Unbroken(f, casts, d) ==>
              Lists(f, casts, table, Received(d)))
      <==> Readable(f, casts)
  {
    hide Sends, Readable, Lists, QueryOf, ArgsOf, Scans;
    if Readable(f, casts) {
      forall d: Delivery | Sends(QueryOf(f), ArgsOf(f), casts, table, d) && Unbroken(f, casts, d)
        ensures Lists(f, casts, table, Received(d))
      {
        ListIsRight(f, casts, table, d);
      }
    } else {
      ErrorLost(f, casts, table);
    }
  }

  /** Every filter with a text the server cannot read may come back as an empty list without an error,
      over an unbroken connection, which is not what was asked for. */
  lemma ErrorLost(f: Filter, casts: Casts, table: seq<Stored>)
    requires !Readable(f, casts)
    ensures var d := Cursor([], true);
      && Sends(QueryOf(f), ArgsOf(f), casts, table, d) && Unbroken(f, casts, d)
      && Received(d) == Some([]) && !Lists(f, casts, table, Received(d))
  {
    hide Readable, QueryOf, ArgsOf, Binds;
    TranslationBinds(f, casts);
    assert Values([]) == [];
  }

  /** Sends the built query and copies the rows out; `delivery` is what comes back. */
  method ListTransactions(f: Filter, ghost casts: Casts, ghost table: seq<Stored>, delivery: Delivery)
      returns (query: string, args: seq<Arg>, txns: Option<seq<Stored>>)
    requires Sends(QueryOf(f), ArgsOf(f), casts, table, delivery)
    ensures query == Render(QueryOf(f)) && args == ArgsOf(f)
    ensures delivery.QueryFailed? ==> txns == None && (Lists(f, casts, table, txns) <==> !Readable(f, casts))
    ensures delivery.Cursor? && !delivery.failed ==>
      (Lists(f, casts, table, txns) <==> Readable(f, casts) && Scans(delivery.rows))
    ensures delivery.Cursor? && delivery.failed ==>
      (Lists(f, casts, table, txns) <==>
        && Readable(f, casts) && Scans(delivery.rows)
        && |delivery.rows| == PageLength(|Select(f, casts, table)|, EffectiveOffset(f), EffectiveLimit(f)))
    ensures txns.Some? ==>
      && delivery.Cursor? && |txns.value| == |delivery.rows|
      && (forall i :: 0 <= i < |delivery.rows| ==> delivery.rows[i] == Some(txns.value[i]))
    ensures txns.Some? ==> |txns.value| <= if 1 <= f.limit <= 100 then f.limit else 50
  {
    hide Sends, Lists, Render, QueryOf, ArgsOf, Readable, Select, PageLength, EffectiveOffset, EffectiveLimit;
    query, args := BuildQuery(f);
    ListIsRight(f, casts, table, delivery);
    if delivery.QueryFailed? {
      return query, args, None;
    }
    DeliveryFits(f, casts, table, delivery);
    txns := ScanAll(delivery.rows);
  }

  /** No more rows come back than were asked for. */
  lemma DeliveryFits(f: Filter, casts: Casts, table: seq<Stored>, d: Delivery)
    requires Sends(QueryOf(f), ArgsOf(f), casts, table, d) && d.Cursor?
    ensures |d.rows| <= if 1 <= f.limit <= 100 then f.limit else 50
  {
    TranslationBinds(f, casts);
    hide Readable, Binds, Answers, Sorts, Page, Select, QueryOf, ArgsOf, EffectiveOffset, EffectiveLimit;
    if Readable(f, casts) {
      var full :| Answers(QueryOf(f), ArgsOf(f), casts, table, Some(full))
               && Follows(d.rows, full) && (d.failed || |d.rows| == |full|);
      TranslationCorrect(f, casts, table, Some(full));
      ListLength(f, casts, table, full);
    }
  }

  // ---- What a list is, in terms of the filter and the table alone ----

  /** Listing is to give an error exactly if the account id or a date cannot be read. */
  lemma ErrorMeans(f: Filter, casts: Casts, table: seq<Stored>)
    ensures Lists(f, casts, table, None) <==>
      || (f.accountId != "" && casts.uuid(f.accountId) == None)
      || (f.dateFrom != "" && casts.time(f.dateFrom) == None)
      || (f.dateTo != "" && casts.time(f.dateTo) == None)
  {
    hide Sorts, Select, Page;
  }

  lemma {:induction false} SelectCounts(f: Filter, casts: Casts, table: seq<Stored>, r: Stored)
    requires Readable(f, casts)
    ensures multiset(Select(f, casts, table))[r] == if Selected(f, casts, r) then multiset(table)[r] else 0
  {
    hide Selected, Readable;
    if table == [] {
    } else {
      var init, last := table[..|table| - 1], table[|table| - 1];
      SelectCounts(f, casts, init, r);
      assert table == init + [last];
    }
  }

  /** A row is selected if the account is one of its parties, the status is its status and its creation
      is not before the one date nor after the other, where these are given; as often as it is in
      the table. */
  lemma SelectMeans(f: Filter, casts: Casts, table: seq<Stored>, r: Stored)
    requires Readable(f, casts)
    ensures multiset(Select(f, casts, table))[r] ==
      if && (f.accountId == ""
             || casts.uuid(f.accountId) == Some(r.txn.sender) || casts.uuid(f.accountId) == Some(r.txn.receiver))
         && (f.status == "" || (f.status == "pending" && r.txn.status == Pending)
             || (f.status == "authorized" && r.txn.status == Authorized)
             || (f.status == "settled" && r.txn.status == Settled)
             || (f.status == "failed" && r.txn.status == Failed)
             || (f.status == "refunded" && r.txn.status == Refunded))
         && (f.dateFrom == "" || casts.time(f.dateFrom).value <= r.createdAt)
         && (f.dateTo == "" || r.createdAt <= casts.time(f.dateTo).value)
      then multiset(table)[r] else 0
  {
    SelectCounts(f, casts, table, r);
    hide Select, StatusText;
    StatusWords(r.txn.status, f.status);
  }

  lemma StatusWords(status: Status, word: string)
    ensures word == StatusText(status) <==>
      || (word == "pending" && status == Pending) || (word == "authorized" && status == Authorized)
      || (word == "settled" && status == Settled) || (word == "failed" && status == Failed)
      || (word == "refunded" && status == Refunded)
  {
  }

  /** A list holds the rows from the offset on, as many as the limit (50 unless it is 1 to 100), of the
      selected rows put newest first. */
  lemma ListMeans(f: Filter, casts: Casts, table: seq<Stored>, list: seq<Stored>) returns (sorted: seq<Stored>)
    requires Readable(f, casts) && Lists(f, casts, table, Some(list))
    ensures multiset(sorted) == multiset(Select(f, casts, table))
    ensures forall i, j :: 0 <= i < j < |sorted| ==> sorted[i].createdAt >= sorted[j].createdAt
    ensures
      var limit := if 1 <= f.limit <= 100 then f.limit else 50;
      var offset := if f.offset > 0 then f.offset else 0;
      && |list| == (if |sorted| <= offset then 0 else if |sorted| - offset <= limit then |sorted| - offset else limit)
      && forall i :: 0 <= i < |list| ==> list[i] == sorted[offset + i]
  {
    hide Readable, Select;
    sorted :| Sorts(sorted, Select(f, casts, table)) && list == Page(sorted, EffectiveOffset(f), EffectiveLimit(f));
  }

  /** The loop over the cursor: the first row that does not scan ends it with an error. */
  method ScanAll(rows: seq<Option<Stored>>) returns (txns: Option<seq<Stored>>)
    ensures txns == if Scans(rows) then Some(Values(rows)) else None
  {
    var list := [];
    var next := 0;
    while next < |rows|
      invariant 0 <= next <= |rows| && |list| == next
      invariant forall i :: 0 <= i < next ==> rows[i] == Some(list[i])
    {
      if rows[next].None? {
        return None;
      }
      list := list + [rows[next].value];
      next := next + 1;
    }
    assert list == Values(rows);
    txns := Some(list);
  }

  // ---- Paging ----

  ghost predicate DistinctTimes(rows: seq<Stored>) {
    forall i, j :: 0 <= i < j < |rows| ==> rows[i].createdAt != rows[j].createdAt
  }

  lemma DistinctInit(rows: seq<Stored>, last: Stored)
    requires DistinctTimes(rows + [last])
    ensures DistinctTimes(rows) && forall r :: r in rows ==> r.createdAt != last.createdAt
  {
    var all := rows + [last];
    assert forall i :: 0 <= i < |rows| ==> all[i] == rows[i];
    assert all[|rows|] == last;
  }

  lemma DistinctSnoc(rows: seq<Stored>, last: Stored)
    requires DistinctTimes(rows) && forall r :: r in rows ==> r.createdAt != last.createdAt
    ensures DistinctTimes(rows + [last])
  {
  }

  lemma {:induction false} SelectIsDistinct(f: Filter, casts: Casts, table: seq<Stored>)
    requires Readable(f, casts) && DistinctTimes(table)
    ensures DistinctTimes(Select(f, casts, table))
    ensures forall r :: r in Select(f, casts, table) <==> r in table && Selected(f, casts, r)
  {
    if table == [] {
    } else {
      hide DistinctTimes, Selected, Readable;
      var init, last := table[..|table| - 1], table[|table| - 1];
      assert table == init + [last];
      DistinctInit(init, last);
      SelectIsDistinct(f, casts, init);
      if Selected(f, casts, last) {
        DistinctSnoc(Select(f, casts, init), last);
      }
    }
  }

  lemma {:induction false} NoRepeats(rows: seq<Stored>)
    requires DistinctTimes(rows)
    ensures forall r :: multiset(rows)[r] == if r in rows then 1 else 0
  {
    if rows == [] {
    } else {
      var init, last := rows[..|rows| - 1], rows[|rows| - 1];
      NoRepeats(init);
      assert rows == init + [last];
      assert forall i :: 0 <= i < |init| ==> init[i].createdAt == rows[i].createdAt != last.createdAt;
    }
  }

  lemma TimesIdentify(rows: seq<Stored>, r: Stored, t: Stored)
    requires DistinctTimes(rows) && r in rows && t in rows && r.createdAt == t.createdAt
    ensures r == t
  {
    var i :| 0 <= i < |rows| && rows[i] == r;
    var j :| 0 <= j < |rows| && rows[j] == t;
    assert rows[Min(i, j)] == rows[if i < j then j else i];
  }

  lemma FirstIsNewest(a: seq<Stored>, r: Stored)
    requires NewestFirst(a) && r in multiset(a)
    ensures |a| > 0 && a[0].createdAt >= r.createdAt
  {
    var i :| 0 <= i < |a| && a[i] == r;
    if i > 0 { assert a[0].createdAt >= a[i].createdAt; }
  }

  lemma TailOf(a: seq<Stored>)
    requires |a| > 0 && NewestFirst(a)
    ensures multiset(a[1..]) == multiset(a) - multiset{a[0]} && a[0] in multiset(a)
    ensures forall r :: r in multiset(a[1..]) ==> r in multiset(a)
    ensures NewestFirst(a[1..])
  {
    assert a == [a[0]] + a[1..];
  }

  lemma SameLength(a: seq<Stored>, b: seq<Stored>)
    requires multiset(a) == multiset(b)
    ensures |a| == |b|
  {
    assert |a| == |multiset(a)| == |multiset(b)| == |b|;
  }

  lemma SameParts(a: seq<Stored>, b: seq<Stored>)
    requires |a| > 0 && |b| > 0 && a[0] == b[0] && a[1..] == b[1..]
    ensures a == b
  {
    assert a == [a[0]] + a[1..] && b == [b[0]] + b[1..];
  }

  lemma SameHead(rows: seq<Stored>, a: seq<Stored>, b: seq<Stored>)
    requires NewestFirst(a) && NewestFirst(b) && multiset(a) == multiset(b) && |a| > 0 && |b| > 0
    requires DistinctTimes(rows) && forall r :: r in multiset(a) ==> r in rows
    ensures a[0] == b[0]
  {
    hide NewestFirst, DistinctTimes;
    assert a[0] in multiset(a) && b[0] in multiset(b);
    FirstIsNewest(a, b[0]);
    FirstIsNewest(b, a[0]);
    TimesIdentify(rows, a[0], b[0]);
  }

  /** Of rows that no two share a time, there is only one way to sort. */
  lemma {:induction false} SortUnique(rows: seq<Stored>, a: seq<Stored>, b: seq<Stored>)
    requires NewestFirst(a) && NewestFirst(b) && multiset(a) == multiset(b)
    requires DistinctTimes(rows) && forall r :: r in multiset(a) ==> r in rows
    ensures a == b
    decreases |a|
  {
    hide NewestFirst, DistinctTimes;
    SameLength(a, b);
    if |a| == 0 {
    } else {
      SameHead(rows, a, b);
      TailOf(a);
      TailOf(b);
      SortUnique(rows, a[1..], b[1..]);
      SameParts(a, b);
    }
  }

  /** Where page `k` starts. */
  function PageStart(k: nat, limit: nat): nat {
    k * limit
  }

  lemma NextPageStart(k: nat, limit: nat)
    ensures PageStart(0, limit) == 0 && PageStart(k + 1, limit) == PageStart(k, limit) + limit
  {
  }

  function Concat(pages: seq<seq<Stored>>): seq<Stored> {
    if pages == [] then [] else Concat(pages[..|pages| - 1]) + pages[|pages| - 1]
  }

  lemma PageAfterPages(sorted: seq<Stored>, offset: nat, limit: nat)
    ensures sorted[..Min(offset, |sorted|)] + Page(sorted, offset, limit) == sorted[..Min(offset + limit, |sorted|)]
  {
  }

  lemma {:induction false} PagesOfSorted(sorted: seq<Stored>, pages: seq<seq<Stored>>, limit: nat)
    requires forall k: nat :: k < |pages| ==> pages[k] == Page(sorted, PageStart(k, limit), limit)
    ensures Concat(pages) == sorted[..Min(PageStart(|pages|, limit), |sorted|)]
  {
    hide Page, PageStart, Min;
    NextPageStart(0, limit);
    if pages == [] {
      assert Min(0, |sorted|) == 0 by { MinOfZero(|sorted|); }
    } else {
      var n: nat := |pages| - 1;
      PagesOfSorted(sorted, pages[..n], limit);
      PageAfterPages(sorted, PageStart(n, limit), limit);
      NextPageStart(n, limit);
    }
  }

  lemma MinOfZero(n: nat)
    ensures Min(0, n) == 0
  {
  }

  lemma PageIsOfSorted(f: Filter, casts: Casts, table: seq<Stored>, offset: nat, page: seq<Stored>, sorted: seq<Stored>)
    requires Readable(f, casts) && DistinctTimes(Select(f, casts, table))
    requires Sorts(sorted, Select(f, casts, table))
    requires Lists(f.(offset := offset), casts, table, Some(page))
    ensures page == Page(sorted, offset, EffectiveLimit(f))
  {
    hide Readable, Page, Select;
    var g, rows := f.(offset := offset), Select(f, casts, table);
    SelectIgnoresOffset(f, offset, casts, table);
    var s :| Sorts(s, Select(g, casts, table)) && page == Page(s, EffectiveOffset(g), EffectiveLimit(g));
    SortUnique(rows, s, sorted);
  }

  /** Enough pages put together are the whole selection, sorted. */
  lemma PagesAreSorted(f: Filter, casts: Casts, table: seq<Stored>, pages: seq<seq<Stored>>, sorted: seq<Stored>)
    requires Readable(f, casts) && DistinctTimes(Select(f, casts, table)) && Sorts(sorted, Select(f, casts, table))
    requires forall k: nat :: k < |pages| ==>
      Lists(f.(offset := PageStart(k, EffectiveLimit(f))), casts, table, Some(pages[k]))
    requires |Select(f, casts, table)| <= PageStart(|pages|, EffectiveLimit(f))
    ensures Concat(pages) == sorted
  {
    hide Readable, Page, Lists, Select, EffectiveLimit, NewestFirst, DistinctTimes, PageStart;
    var limit, rows := EffectiveLimit(f), Select(f, casts, table);
    forall k: nat | k < |pages| ensures pages[k] == Page(sorted, PageStart(k, limit), limit) {
      PageIsOfSorted(f, casts, table, PageStart(k, limit), pages[k], sorted);
    }
    PagesOfSorted(sorted, pages, limit);
    SameLength(sorted, rows);
    assert sorted[..|sorted|] == sorted;
  }

  /** With distinct creation times, the pages at offsets 0, L, 2L, ... put together are the whole
      selection, every row once, newest first. */
  lemma PagesRebuildList(f: Filter, casts: Casts, table: seq<Stored>, pages: seq<seq<Stored>>)
    requires Readable(f, casts) && DistinctTimes(table)
    requires forall k: nat :: k < |pages| ==>
      Lists(f.(offset := PageStart(k, EffectiveLimit(f))), casts, table, Some(pages[k]))
    requires |Select(f, casts, table)| <= PageStart(|pages|, EffectiveLimit(f))
    ensures NewestFirst(Concat(pages))
    ensures forall r :: multiset(Concat(pages))[r] == if r in table && Selected(f, casts, r) then 1 else 0
  {
    hide Readable, Lists, Select, Selected, EffectiveLimit, NewestFirst, DistinctTimes, Concat, PageStart;
    var rows := Select(f, casts, table);
    SelectIsDistinct(f, casts, table);
    NoRepeats(rows);
    var sorted := SomeSort(rows);
    PagesAreSorted(f, casts, table, pages, sorted);
  }

  lemma {:induction false} SelectIgnoresOffset(f: Filter, offset: int, casts: Casts, table: seq<Stored>)
    requires Readable(f, casts)
    ensures Readable(f.(offset := offset), casts)
    ensures Select(f.(offset := offset), casts, table) == Select(f, casts, table)
  {
    if table == [] {
    } else {
      SelectIgnoresOffset(f, offset, casts, table[..|table| - 1]);
    }
  }

  /** Where a row goes in a list that is newest first. */
  lemma {:induction false} Place(sorted: seq<Stored>, row: Stored) returns (i: nat)
    requires NewestFirst(sorted)
    ensures i <= |sorted|
    ensures forall j :: 0 <= j < i ==> sorted[j].createdAt >= row.createdAt
    ensures forall j :: i <= j < |sorted| ==> row.createdAt >= sorted[j].createdAt
  {
    if sorted == [] || sorted[|sorted| - 1].createdAt >= row.createdAt {
      i := |sorted|;
    } else {
      i := Place(sorted[..|sorted| - 1], row);
    }
  }

  lemma Inserted(before: seq<Stored>, i: nat, row: Stored) returns (after: seq<Stored>)
    requires NewestFirst(before) && i <= |before|
    requires forall j :: 0 <= j < i ==> before[j].createdAt >= row.createdAt
    requires forall j :: i <= j < |before| ==> row.createdAt >= before[j].createdAt
    ensures NewestFirst(after) && multiset(after) == multiset(before) + multiset{row}
  {
    after := before[..i] + [row] + before[i..];
    assert before == before[..i] + before[i..];
  }

  /** Some order is newest first. */
  lemma {:induction false} SomeSort(rows: seq<Stored>) returns (sorted: seq<Stored>)
    ensures Sorts(sorted, rows)
  {
    hide NewestFirst;
    if rows == [] {
      sorted := [];
      assert NewestFirst([]) by { NoneOutOfOrder(); }
    } else {
      var init, last := rows[..|rows| - 1], rows[|rows| - 1];
      var before := SomeSort(init);
      var i := Place(before, last);
      sorted := Inserted(before, i, last);
      assert rows == init + [last];
    }
  }

  lemma NoneOutOfOrder()
    ensures NewestFirst([])
  {
  }
}
