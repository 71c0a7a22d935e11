/**
 * The records both dashboards keep (src/lib/types.ts and the COP page's own
 * interface) and the pure reductions over them: totals, the 14% commission
 * on income, removal and replacement by id, and the period snapshot.
 * `amountFiat` is `amountBs` on the VES dashboard and `amountCop` on the COP one.
 */
module Ledger {
  import opened Wrappers
  import opened Numeric

  datatype Kind = Income | Expense

  datatype Transaction = Transaction(
    id: string,
    description: string,
    amountFiat: real,
    amountUsdt: real,
    date: string,
    kind: Kind,
    userId: Option<string>)

  /** A consolidated period; its totals are stored, never recomputed. */
  datatype Period = Period(
    id: string,
    transactions: seq<Transaction>,
    start: string,
    end: string,
    totalFiat: real,
    totalUsdt: real,
    commission: real,
    createdAt: string)

  /** The new-transaction form: amounts are the text of the inputs. */
  datatype Draft = Draft(description: string, amountFiat: string, amountUsdt: string, kind: Kind)

  const EmptyDraft := Draft("", "", "", Income)

  const CommissionRate: real := 0.14

  datatype Totals = Totals(fiat: real, usdt: real, commission: real)

  // ---------------------------------------------------------------------
  // Sums

  /** `s.reduce((sum, x) => sum + f(x), 0)`. */
  function SumBy<T>(s: seq<T>, f: T -> real): (r: real)
    ensures s == [] ==> r == 0.0
    ensures |s| == 1 ==> r == f(s[0])
  {
    if s == [] then 0.0 else SumBy(s[..|s| - 1], f) + f(s[|s| - 1])
  }

  lemma {:induction false} SumByAppend<T>(a: seq<T>, b: seq<T>, f: T -> real)
    ensures SumBy(a + b, f) == SumBy(a, f) + SumBy(b, f)
  {
    if b == [] {
      assert a + b == a;
    } else {
      assert (a + b)[..|a + b| - 1] == a + b[..|b| - 1];
      SumByAppend(a, b[..|b| - 1], f);
    }
  }

  lemma SumBySingle<T>(x: T, f: T -> real)
    ensures SumBy([x], f) == f(x)
  {
    assert [x][..0] == [];
  }

  /** Summing from the front gives the same value. */
  lemma SumByCons<T>(x: T, s: seq<T>, f: T -> real)
    ensures SumBy([x] + s, f) == f(x) + SumBy(s, f)
  {
    SumByAppend([x], s, f);
    SumBySingle(x, f);
  }

  /** Taking one row out of a sum. */
  lemma SumByRemove<T>(b: seq<T>, k: nat, f: T -> real)
    requires k < |b|
    ensures SumBy(b, f) == f(b[k]) + SumBy(b[..k] + b[k + 1..], f)
  {
    var head, post := b[..k + 1], b[k + 1..];
    assert b == head + post;
    SumByAppend(head, post, f);
    assert head[..k] == b[..k];
    assert SumBy(head, f) == SumBy(b[..k], f) + f(b[k]);
    SumByAppend(b[..k], post, f);
  }

  lemma MultisetRemove<T>(a: seq<T>, b: seq<T>, k: nat)
    requires multiset(a) == multiset(b) && a != [] && k < |b| && b[k] == a[0]
    ensures multiset(a[1..]) == multiset(b[..k] + b[k + 1..])
  {
    assert a == [a[0]] + a[1..];
    assert b == b[..k] + [b[k]] + b[k + 1..];
    assert multiset(b) == multiset(b[..k]) + multiset{b[k]} + multiset(b[k + 1..]);
    calc {
      multiset(a[1..]);
      multiset(a) - multiset{a[0]};
      multiset(b) - multiset{b[k]};
      multiset(b[..k] + b[k + 1..]);
    }
  }

  /** A sum does not depend on the order of the rows. */
  lemma {:induction false} SumByPermutation<T>(a: seq<T>, b: seq<T>, f: T -> real)
    requires multiset(a) == multiset(b)
    ensures SumBy(a, f) == SumBy(b, f)
  {
    if a != [] {
      var x := a[0];
      assert x in multiset(b);
      var k :| 0 <= k < |b| && b[k] == x;
      MultisetRemove(a, b, k);
      SumByPermutation(a[1..], b[..k] + b[k + 1..], f);
      assert a == [x] + a[1..];
      SumByCons(x, a[1..], f);
      SumByRemove(b, k, f);
    } else {
      assert |b| == |multiset(b)|;
    }
  }

  lemma {:induction false} SumByBounds<T>(s: seq<T>, f: T -> real, lo: real, hi: real)
    requires forall i :: 0 <= i < |s| ==> lo <= f(s[i]) <= hi
    ensures |s| as real * lo <= SumBy(s, f) <= |s| as real * hi
  {
    if s != [] {
      var n := |s| - 1;
      var init := s[..n];
      forall i | 0 <= i < n
        ensures lo <= f(init[i]) <= hi
      {
        assert init[i] == s[i];
      }
      SumByBounds(init, f, lo, hi);
      assert SumBy(s, f) == SumBy(init, f) + f(s[n]);
      assert |s| as real * lo == n as real * lo + lo;
      assert |s| as real * hi == n as real * hi + hi;
    }
  }

  // ---------------------------------------------------------------------
  // Totals and commission

  function FiatOf(t: Transaction): real { t.amountFiat }
  function UsdtOf(t: Transaction): real { t.amountUsdt }

  /** `reduce((sum, t) => sum + t.amount, 0)` over the bolívar (or peso) amounts. */
  function TotalFiat(ts: seq<Transaction>): (r: real)
    ensures ts == [] ==> r == 0.0
    ensures |ts| == 1 ==> r == ts[0].amountFiat
  {
    SumBy(ts, FiatOf)
  }

  /** The same reduction over the USDT amounts. */
  function TotalUsdt(ts: seq<Transaction>): (r: real)
    ensures ts == [] ==> r == 0.0
    ensures |ts| == 1 ==> r == ts[0].amountUsdt
  {
    SumBy(ts, UsdtOf)
  }

  /** `ts.filter((t) => t.type === "income")`. */
  function Incomes(ts: seq<Transaction>): (r: seq<Transaction>)
    ensures |r| <= |ts|
    ensures forall t :: t in r <==> t in ts && t.kind == Income
  {
    if ts == [] then []
    else Incomes(ts[..|ts| - 1]) + (if ts[|ts| - 1].kind == Income then [ts[|ts| - 1]] else [])
  }

  lemma {:induction false} IncomesAppend(a: seq<Transaction>, b: seq<Transaction>)
    ensures Incomes(a + b) == Incomes(a) + Incomes(b)
  {
    if b == [] {
      assert a + b == a;
    } else {
      var init, last := b[..|b| - 1], b[|b| - 1];
      var tail := if last.kind == Income then [last] else [];
      assert (a + b)[..|a + b| - 1] == a + init;
      assert Incomes(a + b) == Incomes(a + init) + tail;
      assert Incomes(b) == Incomes(init) + tail;
      IncomesAppend(a, init);
      assert (Incomes(a) + Incomes(init)) + tail == Incomes(a) + (Incomes(init) + tail);
    }
  }

  /** 14% of the USDT of the income rows. */
  function Commission(ts: seq<Transaction>): (r: real)
    ensures ts == [] ==> r == 0.0
    ensures |ts| == 1 ==> r == RowCommission(ts[0])
  {
    assert |ts| == 1 ==> ts[..0] == [];
    SumBy(Incomes(ts), UsdtOf) * CommissionRate
  }

  /** The three figures the dashboards show and consolidation stores. */
  function LedgerTotals(ts: seq<Transaction>): (r: Totals)
    ensures ts == [] ==> r == Totals(0.0, 0.0, 0.0)
    ensures |ts| == 1 ==> r == Totals(ts[0].amountFiat, ts[0].amountUsdt, RowCommission(ts[0]))
  {
    Totals(TotalFiat(ts), TotalUsdt(ts), Commission(ts))
  }

  /** The commission contributed by one row: 14% of its USDT if it is income, else nothing. */
  function RowCommission(t: Transaction): real {
    if t.kind == Income then t.amountUsdt * CommissionRate else 0.0
  }

  /** Totals are additive over a split of the ledger. */
  lemma TotalsAppend(a: seq<Transaction>, b: seq<Transaction>)
    ensures TotalFiat(a + b) == TotalFiat(a) + TotalFiat(b)
    ensures TotalUsdt(a + b) == TotalUsdt(a) + TotalUsdt(b)
    ensures Commission(a + b) == Commission(a) + Commission(b)
  {
    SumByAppend(a, b, FiatOf);
    SumByAppend(a, b, UsdtOf);
    IncomesAppend(a, b);
    SumByAppend(Incomes(a), Incomes(b), UsdtOf);
  }

  /** The commission is the sum of the rows' own commissions: expenses add nothing. */
  lemma {:induction false} CommissionByRows(ts: seq<Transaction>)
    ensures Commission(ts) == SumBy(ts, RowCommission)
  {
    if ts != [] {
      var init, last := ts[..|ts| - 1], ts[|ts| - 1];
      CommissionByRows(init);
      var inc := if last.kind == Income then [last] else [];
      assert Incomes(ts) == Incomes(init) + inc;
      SumByAppend(Incomes(init), inc, UsdtOf);
      if last.kind == Income {
        SumBySingle(last, UsdtOf);
      }
      assert SumBy(Incomes(ts), UsdtOf) == SumBy(Incomes(init), UsdtOf) + (if last.kind == Income then last.amountUsdt else 0.0);
      assert SumBy(ts, RowCommission) == SumBy(init, RowCommission) + RowCommission(last);
    }
  }

  /** The totals do not depend on the order of the rows. */
  lemma TotalsPermutation(a: seq<Transaction>, b: seq<Transaction>)
    requires multiset(a) == multiset(b)
    ensures LedgerTotals(a) == LedgerTotals(b)
  {
    SumByPermutation(a, b, FiatOf);
    SumByPermutation(a, b, UsdtOf);
    CommissionByRows(a);
    CommissionByRows(b);
    SumByPermutation(a, b, RowCommission);
  }

  /** An empty ledger shows zeros. */
  lemma EmptyTotals()
    ensures LedgerTotals([]) == Totals(0.0, 0.0, 0.0)
  {
  }

  /** The sign convention rows are created with: expenses non-positive, income non-negative. */
  predicate SignConsistent(t: Transaction) {
    && (t.kind == Expense ==> t.amountFiat <= 0.0 && t.amountUsdt <= 0.0)
    && (t.kind == Income ==> t.amountFiat >= 0.0 && t.amountUsdt >= 0.0)
  }

  /** With consistent signs the commission is never negative. */
  lemma {:induction false} CommissionNonNegative(ts: seq<Transaction>)
    requires forall i :: 0 <= i < |ts| ==> SignConsistent(ts[i])
    ensures Commission(ts) >= 0.0
  {
    CommissionByRows(ts);
    SumByBounds(ts, RowCommission, 0.0, MaxRowCommission(ts));
  }

  function MaxRowCommission(ts: seq<Transaction>): (m: real)
    ensures m >= 0.0
    ensures forall i :: 0 <= i < |ts| ==> RowCommission(ts[i]) <= m
  {
    if ts == [] then 0.0
    else
      var m := MaxRowCommission(ts[1..]);
      assert forall i :: 1 <= i < |ts| ==> ts[i] == ts[1..][i - 1];
      if RowCommission(ts[0]) > m then RowCommission(ts[0]) else m
  }

  // ---------------------------------------------------------------------
  // Removal by id: `list.filter((x) => x.id !== id)`

  function TxId(t: Transaction): string { t.id }
  function PeriodId(p: Period): string { p.id }

  /** The rows whose id differs from `id`, in their original order. */
  function Without<T(!new)>(s: seq<T>, idOf: T -> string, id: string): (r: seq<T>)
    ensures |r| <= |s|
    ensures forall i :: 0 <= i < |r| ==> idOf(r[i]) != id
  {
    if s == [] then []
    else
      var init, last := s[..|s| - 1], s[|s| - 1];
      assert s == init + [last];
      Without(init, idOf, id) + (if idOf(last) != id then [last] else [])
  }

  /** Exactly the rows with the id are gone: every other row keeps its number of copies. */
  lemma {:induction false} WithoutCounts<T(!new)>(s: seq<T>, idOf: T -> string, id: string)
    ensures forall x :: multiset(Without(s, idOf, id))[x] == if idOf(x) == id then 0 else multiset(s)[x]
  {
    if s != [] {
      var init, last := s[..|s| - 1], s[|s| - 1];
      assert s == init + [last];
      WithoutCounts(init, idOf, id);
    }
  }

  /** Removal works row by row, so the survivors keep their order. */
  lemma {:induction false} WithoutAppend<T(!new)>(a: seq<T>, b: seq<T>, idOf: T -> string, id: string)
    ensures Without(a + b, idOf, id) == Without(a, idOf, id) + Without(b, idOf, id)
  {
    if b == [] {
      assert a + b == a;
    } else {
      var init, last := b[..|b| - 1], b[|b| - 1];
      var tail := if idOf(last) != id then [last] else [];
      assert (a + b)[..|a + b| - 1] == a + init;
      assert Without(a + b, idOf, id) == Without(a + init, idOf, id) + tail;
      assert Without(b, idOf, id) == Without(init, idOf, id) + tail;
      WithoutAppend(a, init, idOf, id);
    }
  }

  /** Removing an id no row carries changes nothing. */
  lemma {:induction false} WithoutAbsent<T(!new)>(s: seq<T>, idOf: T -> string, id: string)
    requires forall i :: 0 <= i < |s| ==> idOf(s[i]) != id
    ensures Without(s, idOf, id) == s
  {
    if s != [] {
      WithoutAbsent(s[..|s| - 1], idOf, id);
      assert s == s[..|s| - 1] + [s[|s| - 1]];
    }
  }

  /** Removing the same id twice is removing it once. */
  lemma WithoutIdempotent<T(!new)>(s: seq<T>, idOf: T -> string, id: string)
    ensures Without(Without(s, idOf, id), idOf, id) == Without(s, idOf, id)
  {
    WithoutAbsent(Without(s, idOf, id), idOf, id);
  }

  // ---------------------------------------------------------------------
  // Single-field edits

  /** The fields the edit inputs change. */
  datatype Field = DateField | FiatField | UsdtField

  /** `value: string | number` as handed to `updateTransaction`. */
  datatype FieldValue = Text(text: string) | Number(x: real)

  /** The `{ [field]: ... }` object of an update. */
  datatype Patch = SetDate(date: string) | SetFiat(fiat: real) | SetUsdt(usdt: real)

  /** A number field's new value: text goes through `parseFloat(value) || 0`, a number is kept. */
  function NumericValue(v: FieldValue): (r: real)
    ensures v.Text? ==> r == ParseOrZero(v.text)
    ensures v.Number? ==> r == v.x
  {
    match v
    case Text(s) => ParseOrZero(s)
    case Number(x) => x
  }

  /** The update object: a date is stored verbatim, amounts as numbers. */
  function UpdatePayload(field: Field, value: FieldValue): (p: Patch)
    requires field == DateField ==> value.Text?
    ensures p.SetDate? <==> field == DateField
    ensures p.SetFiat? <==> field == FiatField
    ensures p.SetDate? ==> p.date == value.text
    ensures p.SetFiat? ==> p.fiat == NumericValue(value)
    ensures p.SetUsdt? ==> p.usdt == NumericValue(value)
    ensures value.Text? && !p.SetDate? && ParseFloat(value.text).None? ==> p == (if field == FiatField then SetFiat(0.0) else SetUsdt(0.0))
  {
    match field
    case DateField => SetDate(value.text)
    case FiatField => SetFiat(NumericValue(value))
    case UsdtField => SetUsdt(NumericValue(value))
  }

  /** `{ ...t, [field]: value }`. */
  function ApplyPatch(t: Transaction, p: Patch): (r: Transaction)
    ensures r.id == t.id && r.description == t.description && r.kind == t.kind && r.userId == t.userId
    ensures r.date == (if p.SetDate? then p.date else t.date)
    ensures r.amountFiat == (if p.SetFiat? then p.fiat else t.amountFiat)
    ensures r.amountUsdt == (if p.SetUsdt? then p.usdt else t.amountUsdt)
  {
    match p
    case SetDate(d) => t.(date := d)
    case SetFiat(x) => t.(amountFiat := x)
    case SetUsdt(x) => t.(amountUsdt := x)
  }

  /** An edit changes exactly its own field and keeps id, description, type and owner. */
  lemma PatchChangesOneField(t: Transaction, p: Patch)
    ensures var u := ApplyPatch(t, p);
      && u.id == t.id && u.description == t.description && u.kind == t.kind && u.userId == t.userId
      && (p.SetDate? ==> u == t.(date := p.date))
      && (p.SetFiat? ==> u == t.(amountFiat := p.fiat))
      && (p.SetUsdt? ==> u == t.(amountUsdt := p.usdt))
  {
  }

  /** `ts.map((t) => t.id === id ? { ...t, [field]: value } : t)`. */
  function PatchRows(ts: seq<Transaction>, id: string, p: Patch): (r: seq<Transaction>)
    ensures |r| == |ts|
    ensures forall i :: 0 <= i < |ts| && ts[i].id != id ==> r[i] == ts[i]
    ensures forall i :: 0 <= i < |ts| && ts[i].id == id ==> r[i] == ApplyPatch(ts[i], p)
    ensures forall i :: 0 <= i < |ts| ==> r[i].id == ts[i].id
  {
    seq(|ts|, i requires 0 <= i < |ts| => if ts[i].id == id then ApplyPatch(ts[i], p) else ts[i])
  }

  /** `ts.map((t) => (t.id === id ? updated : t))`. */
  function ReplaceRows(ts: seq<Transaction>, id: string, updated: Transaction): (r: seq<Transaction>)
    ensures |r| == |ts|
    ensures forall i :: 0 <= i < |ts| && ts[i].id != id ==> r[i] == ts[i]
    ensures forall i :: 0 <= i < |ts| && ts[i].id == id ==> r[i] == updated
    ensures updated.id == id ==> forall i :: 0 <= i < |ts| ==> r[i].id == ts[i].id
  {
    seq(|ts|, i requires 0 <= i < |ts| => if ts[i].id == id then updated else ts[i])
  }

  /**
   * When the backend answers an update with the stored row patched, and the
   * local rows carrying that id are that row, replacing by the answer is
   * patching locally.
   */
  lemma ReplaceByPatchedRow(ts: seq<Transaction>, id: string, stored: Transaction, p: Patch)
    requires forall i :: 0 <= i < |ts| && ts[i].id == id ==> ts[i] == stored
    ensures ReplaceRows(ts, id, ApplyPatch(stored, p)) == PatchRows(ts, id, p)
  {
  }

  lemma PatchRowsInit(ts: seq<Transaction>, id: string, p: Patch)
    requires ts != []
    ensures PatchRows(ts, id, p)[..|ts| - 1] == PatchRows(ts[..|ts| - 1], id, p)
  {
  }

  /** A per-row figure the patch does not touch keeps its sum. */
  lemma {:induction false} SumByPatchRows(ts: seq<Transaction>, id: string, p: Patch, f: Transaction -> real)
    requires forall t :: f(ApplyPatch(t, p)) == f(t)
    ensures SumBy(PatchRows(ts, id, p), f) == SumBy(ts, f)
  {
    if ts != [] {
      var r := PatchRows(ts, id, p);
      var n := |ts| - 1;
      PatchRowsInit(ts, id, p);
      SumByPatchRows(ts[..n], id, p, f);
      assert f(r[n]) == f(ts[n]);
    }
  }

  /**
   * A date edit leaves all three totals as they were; an amount edit leaves
   * the other amount's total, and a fiat edit the commission too.
   */
  lemma PatchRowsTotals(ts: seq<Transaction>, id: string, p: Patch)
    ensures p.SetDate? ==> LedgerTotals(PatchRows(ts, id, p)) == LedgerTotals(ts)
    ensures !p.SetUsdt? ==> TotalUsdt(PatchRows(ts, id, p)) == TotalUsdt(ts)
    ensures !p.SetUsdt? ==> Commission(PatchRows(ts, id, p)) == Commission(ts)
    ensures !p.SetFiat? ==> TotalFiat(PatchRows(ts, id, p)) == TotalFiat(ts)
  {
    var r := PatchRows(ts, id, p);
    CommissionByRows(ts);
    CommissionByRows(r);
    if !p.SetUsdt? {
      SumByPatchRows(ts, id, p, UsdtOf);
      SumByPatchRows(ts, id, p, RowCommission);
    }
    if !p.SetFiat? {
      SumByPatchRows(ts, id, p, FiatOf);
    }
  }

  // ---------------------------------------------------------------------
  // Sign rules applied when a row is created

  /** VES: `-Math.abs(x)` for an expense, `Math.abs(x)` for income. */
  function VesSigned(kind: Kind, x: real): (r: real)
    ensures Abs(r) == Abs(x)
    ensures kind == Expense ==> r <= 0.0
    ensures kind == Income ==> r >= 0.0
  {
    if kind == Expense then -Abs(x) else Abs(x)
  }

  /** COP: `-Math.abs(x)` for an expense; income keeps the value as entered. */
  function CopSigned(kind: Kind, x: real): (r: real)
    ensures Abs(r) == Abs(x)
    ensures kind == Expense ==> r <= 0.0
    ensures kind == Income ==> r == x
  {
    if kind == Expense then -Abs(x) else x
  }

  // ---------------------------------------------------------------------
  // Consolidation snapshot

  /** A period whose stored figures are those of its own rows. */
  predicate Consistent(p: Period) {
    LedgerTotals(p.transactions) == Totals(p.totalFiat, p.totalUsdt, p.commission)
  }

  /** `transactions[k]?.date || today`: an empty date falls back to today. */
  function DateOr(t: Transaction, today: string): (d: string)
    ensures t.date == "" ==> d == today
    ensures t.date != "" ==> d == t.date
  {
    if t.date != "" then t.date else today
  }

  /**
   * The period object built by consolidation: all rows copied, start and end
   * from the first and last row in list order, and the live totals.
   */
  function BuildPeriod(ts: seq<Transaction>, id: string, today: string, createdAt: string): (p: Period)
    requires |ts| > 0
    ensures Consistent(p)
    ensures p.id == id && p.transactions == ts && p.createdAt == createdAt
    ensures p.start == DateOr(ts[0], today) && p.end == DateOr(ts[|ts| - 1], today)
  {
    var totals := LedgerTotals(ts);
    Period(id, ts, DateOr(ts[0], today), DateOr(ts[|ts| - 1], today),
           totals.fiat, totals.usdt, totals.commission, createdAt)
  }
}
