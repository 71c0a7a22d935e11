/**
 * The balances page: the bolívar periods consolidated so far, read from
 * "consolidatedPeriods", with delete, clear, and the general totals across
 * periods.
 */
module Balances {
  import opened Wrappers
  import opened Ledger
  import opened Storage

  function PeriodFiat(p: Period): real { p.totalFiat }
  function PeriodUsdt(p: Period): real { p.totalUsdt }
  function PeriodCommission(p: Period): real { p.commission }

  /**
   * `getGeneralTotals`: nothing without periods, otherwise the sums of the
   * figures each period stored (they are not recomputed from its rows).
   */
  function GeneralTotals(ps: seq<Period>): (r: Option<Totals>)
    ensures r.None? <==> ps == []
    ensures |ps| == 1 ==> r == Some(Totals(ps[0].totalFiat, ps[0].totalUsdt, ps[0].commission))
  {
    if ps == [] then None
    else Some(Totals(SumBy(ps, PeriodFiat), SumBy(ps, PeriodUsdt), SumBy(ps, PeriodCommission)))
  }

  /** All rows of all periods, in order. */
  function AllRows(ps: seq<Period>): (r: seq<Transaction>)
    ensures ps == [] ==> r == []
  {
    if ps == [] then [] else AllRows(ps[..|ps| - 1]) + ps[|ps| - 1].transactions
  }

  /**
   * When every period's stored figures are those of its own rows (as
   * consolidation writes them), the general totals are the totals of all
   * the rows ever consolidated.
   */
  lemma {:induction false} GeneralTotalsOfConsistent(ps: seq<Period>)
    requires ps != []
    requires forall i :: 0 <= i < |ps| ==> Consistent(ps[i])
    ensures GeneralTotals(ps) == Some(LedgerTotals(AllRows(ps)))
  {
    StoredSumsOfConsistent(ps);
  }

  /** The component-wise induction behind `GeneralTotalsOfConsistent`. */
  lemma {:induction false} StoredSumsOfConsistent(ps: seq<Period>)
    requires forall i :: 0 <= i < |ps| ==> Consistent(ps[i])
    ensures SumBy(ps, PeriodFiat) == TotalFiat(AllRows(ps))
    ensures SumBy(ps, PeriodUsdt) == TotalUsdt(AllRows(ps))
    ensures SumBy(ps, PeriodCommission) == Commission(AllRows(ps))
  {
    if ps == [] {
      EmptyTotals();
    } else {
      var n := |ps| - 1;
      var init, last := ps[..n], ps[n];
      forall i | 0 <= i < n
        ensures Consistent(init[i])
      {
        assert init[i] == ps[i];
      }
      StoredSumsOfConsistent(init);
      assert last.totalFiat == TotalFiat(last.transactions)
          && last.totalUsdt == TotalUsdt(last.transactions)
          && last.commission == Commission(last.transactions) by {
        assert Consistent(ps[n]);
      }
      var rows := AllRows(init);
      assert AllRows(ps) == rows + last.transactions;
      TotalsAppend(rows, last.transactions);
    }
  }

  /**
   * Appending any period adds the figures it stores, whatever its rows say,
   * to the general totals of the list before it.
   */
  lemma GeneralTotalsAppend(ps: seq<Period>, p: Period)
    ensures var before := GeneralTotals(ps).GetOr(Totals(0.0, 0.0, 0.0));
      GeneralTotals(ps + [p])
        == Some(Totals(before.fiat + p.totalFiat, before.usdt + p.totalUsdt, before.commission + p.commission))
  {
    var all := ps + [p];
    assert all[..|all| - 1] == ps && all[|all| - 1] == p;
    var f, u, c := SumBy(ps, PeriodFiat), SumBy(ps, PeriodUsdt), SumBy(ps, PeriodCommission);
    assert GeneralTotals(ps).GetOr(Totals(0.0, 0.0, 0.0)) == Totals(f, u, c);
    assert GeneralTotals(all) == Some(Totals(f + p.totalFiat, u + p.totalUsdt, c + p.commission));
  }

  /**
   * Consolidating a ledger adds its live totals to the general totals of the
   * stored list.
   */
  lemma ConsolidationAddsLiveTotals(ps: seq<Period>, ts: seq<Transaction>, id: string, today: string, createdAt: string)
    requires ts != []
    ensures var before := GeneralTotals(ps).GetOr(Totals(0.0, 0.0, 0.0));
      var live := LedgerTotals(ts);
      GeneralTotals(ps + [BuildPeriod(ts, id, today, createdAt)])
        == Some(Totals(before.fiat + live.fiat, before.usdt + live.usdt, before.commission + live.commission))
  {
    var p := BuildPeriod(ts, id, today, createdAt);
    var live := LedgerTotals(ts);
    assert p.totalFiat == live.fiat && p.totalUsdt == live.usdt && p.commission == live.commission;
    GeneralTotalsAppend(ps, p);
  }

  class BalancesPage {
    const store: LocalStorage
    var periods: seq<Period>
    /** `showConsolidated`. */
    var show: bool

    /** The list is shown exactly when it has periods. */
    predicate Valid()
      reads this
    {
      show <==> |periods| > 0
    }

    constructor(store: LocalStorage)
      ensures Valid() && this.store == store && periods == [] && !show
    {
      this.store := store;
      periods := [];
      show := false;
    }

    /** The mount effect: read the stored list if the key is present. */
    method Load()
      requires Valid()
      modifies this
      ensures Valid()
      ensures store.consolidatedPeriods.Some? ==> periods == store.consolidatedPeriods.value
      ensures store.consolidatedPeriods.None? ==> periods == old(periods) && show == old(show)
    {
      var stored := store.consolidatedPeriods;
      if stored.Some? {
        periods := stored.value;
        show := |stored.value| > 0;
      }
    }

    /** `deletePeriod`: drops the periods with the id and writes the rest back. */
    method DeletePeriod(id: string)
      requires Valid()
      modifies this, store
      ensures Valid()
      ensures periods == Without(old(periods), PeriodId, id)
      ensures store.consolidatedPeriods == Some(periods)
      ensures periods == [] ==> !show
      ensures store.consolidatedCopData == old(store.consolidatedCopData) && store.user == old(store.user)
    {
      var updated := Without(periods, PeriodId, id);
      periods := updated;
      store.consolidatedPeriods := Some(updated);
      if |updated| == 0 {
        show := false;
      }
    }

    /** `clearConsolidatedData`: removes the key and empties the list. */
    method ClearConsolidatedData()
      modifies this, store
      ensures Valid()
      ensures store.consolidatedPeriods.None? && periods == [] && !show
      ensures store.consolidatedCopData == old(store.consolidatedCopData) && store.user == old(store.user)
    {
      store.consolidatedPeriods := None;
      periods := [];
      show := false;
    }
  }
}
