/**
 * The peso dashboard: a local list of transactions (not sent to the
 * backend), the same form and rate field as the bolívar dashboard, edit
 * handlers that apply the row's sign, and consolidation into the
 * "consolidatedCopData" list in local storage.
 */
module CopDashboard {
  import opened Wrappers
  import opened Numeric
  import opened Ledger
  import opened Conversion
  import opened P2P
  import opened Form
  import opened Storage

  const FallbackRate: string := "4000.00"
  const NothingToConsolidate: string := "No hay transacciones para consolidar"

  lemma ZeroTextParses()
    ensures ParseFloat("0") == Some(0.0)
  {
    ParseFloatNat(0);
    assert NatToDigits(0) == "0";
  }

  /** `parseFloat(amountUsdt || "0")`: an empty USDT field reads as zero. */
  function UsdtOrZero(d: Draft): (x: real)
    requires ValidDraft(d)
    ensures d.amountUsdt == "" ==> x == 0.0
    ensures d.amountUsdt != "" ==> x == ParseFloat(d.amountUsdt).value
  {
    ZeroTextParses();
    ParseFloat(if d.amountUsdt == "" then "0" else d.amountUsdt).value
  }

  /**
   * The row `addTransaction` appends: the draft's description and parsed
   * amounts, made -|x| for an expense and kept as typed for income.
   */
  function NewRow(d: Draft, id: string, today: string): (t: Transaction)
    requires ValidDraft(d) && d.amountFiat != ""
    ensures t.id == id && t.description == d.description && t.date == today
    ensures t.kind == d.kind && t.userId.None?
    ensures d.kind == Income ==> t.amountFiat == ParseFloat(d.amountFiat).value && t.amountUsdt == UsdtOrZero(d)
    ensures d.kind == Expense ==> t.amountFiat == -Abs(ParseFloat(d.amountFiat).value) && t.amountUsdt == -Abs(UsdtOrZero(d))
  {
    Transaction(id, d.description,
                CopSigned(d.kind, ParseFloat(d.amountFiat).value),
                CopSigned(d.kind, UsdtOrZero(d)),
                today, d.kind, None)
  }

  /**
   * An income typed with a minus sign is stored negative: the sign
   * convention holds for expenses only.
   */
  lemma NegativeIncomeStored()
    ensures var t := NewRow(Draft("Venta", "-100", "", Income), "1", "2024-01-01");
      t.amountFiat == -100.0 && !SignConsistent(t)
  {
    ParseFloatNat(100);
    assert "-" + NatToDigits(100) == "-100";
  }

  /** Non-negative amounts give a row with the sign convention. */
  lemma NewRowSign(d: Draft, id: string, today: string)
    requires ValidDraft(d) && d.amountFiat != ""
    requires ParseFloat(d.amountFiat).value >= 0.0 && UsdtOrZero(d) >= 0.0
    ensures SignConsistent(NewRow(d, id, today))
  {
  }

  /**
   * Appending a row moves the totals by its amounts, and the commission by
   * 14% of its USDT amount when it is income.
   */
  lemma AddMovesTotals(ts: seq<Transaction>, t: Transaction)
    ensures TotalFiat(ts + [t]) == TotalFiat(ts) + t.amountFiat
    ensures TotalUsdt(ts + [t]) == TotalUsdt(ts) + t.amountUsdt
    ensures Commission(ts + [t]) == Commission(ts) + (if t.kind == Income then t.amountUsdt * CommissionRate else 0.0)
  {
    TotalsAppend(ts, [t]);
    SumBySingle(t, FiatOf);
    SumBySingle(t, UsdtOf);
    assert Incomes([t]) == if t.kind == Income then [t] else [];
  }

  /**
   * The amount edit inputs show |amount| and store the typed number (0 when
   * unparsable) times -1 for an expense row, 1 for income.
   */
  function EditedAmount(kind: Kind, text: string): (x: real)
    ensures Abs(x) == Abs(ParseOrZero(text))
    ensures ParseOrZero(text) >= 0.0 ==> (kind == Expense ==> x <= 0.0) && (kind == Income ==> x >= 0.0)
  {
    ParseOrZero(text) * (if kind == Expense then -1.0 else 1.0)
  }

  /** A negative number typed into an expense row's amount is stored positive. */
  lemma NegativeEditOfExpense()
    ensures EditedAmount(Expense, "-5") == 5.0
  {
    ParseFloatNat(5);
    assert "-" + NatToDigits(5) == "-5";
  }

  class Dashboard {
    const store: LocalStorage
    var transactions: seq<Transaction>
    var draft: Draft
    var usdtRate: string
    var status: ConnectionStatus

    predicate Valid()
      reads this
    {
      ValidDraft(draft)
    }

    constructor(store: LocalStorage)
      ensures Valid()
      ensures this.store == store
      ensures transactions == [] && draft == EmptyDraft && usdtRate == "0" && status == Idle
    {
      this.store := store;
      transactions := [];
      draft := EmptyDraft;
      usdtRate := "0";
      status := Idle;
    }

    /** The description input. */
    method ChangeDescription(value: string)
      requires Valid()
      modifies this
      ensures Valid()
      ensures draft == old(draft).(description := value)
      ensures transactions == old(transactions) && usdtRate == old(usdtRate) && status == old(status)
    {
      draft := draft.(description := value);
    }

    /** The peso amount input. */
    method ChangeFiatAmount(value: string)
      requires Valid() && NumberText(value)
      modifies this
      ensures Valid()
      ensures draft == WithFiatAmount(old(draft), value, usdtRate)
      ensures transactions == old(transactions) && usdtRate == old(usdtRate) && status == old(status)
    {
      draft := WithFiatAmount(draft, value, usdtRate);
    }

    /** The USDT amount input, which overrides the conversion. */
    method ChangeUsdtAmount(value: string)
      requires Valid() && NumberText(value)
      modifies this
      ensures Valid()
      ensures draft == old(draft).(amountUsdt := value)
      ensures transactions == old(transactions) && usdtRate == old(usdtRate) && status == old(status)
    {
      draft := draft.(amountUsdt := value);
    }

    /** The income/expense radio buttons. */
    method ChangeKind(kind: Kind)
      requires Valid()
      modifies this
      ensures Valid()
      ensures draft == old(draft).(kind := kind)
      ensures transactions == old(transactions) && usdtRate == old(usdtRate) && status == old(status)
    {
      draft := draft.(kind := kind);
    }

    /** The rate input: rows are never touched, only the draft's USDT text. */
    method ChangeRate(value: string)
      requires Valid()
      modifies this
      ensures Valid()
      ensures usdtRate == value
      ensures draft == RateInput(old(draft), old(usdtRate), value)
      ensures transactions == old(transactions) && status == old(status)
    {
      var previous := usdtRate;
      if draft.amountFiat != "" {
        ConversionIsNumberText(draft.amountFiat, previous);
        draft := draft.(amountUsdt := CalculateUsdt(draft.amountFiat, previous));
      }
      usdtRate := value;
      draft := RateEffect(draft, previous, usdtRate);
    }

    /**
     * `addTransaction`: nothing happens without a description and a peso
     * amount; otherwise the new row goes to the end and the draft is
     * cleared. `id` is the clock reading used as the row's id, `today` the
     * current date.
     */
    method AddTransaction(id: string, today: string) returns (added: bool)
      requires Valid()
      modifies this
      ensures Valid()
      ensures added <==> old(draft).description != "" && old(draft).amountFiat != ""
      ensures added ==> transactions == old(transactions) + [NewRow(old(draft), id, today)] && draft == EmptyDraft
      ensures !added ==> transactions == old(transactions) && draft == old(draft)
      ensures usdtRate == old(usdtRate) && status == old(status)
    {
      if draft.description == "" || draft.amountFiat == "" {
        return false;
      }
      var row := NewRow(draft, id, today);
      transactions := transactions + [row];
      draft := EmptyDraft;
      added := true;
    }

    /** `deleteTransaction`: drops every row with the id, keeping the rest in order. */
    method DeleteTransaction(id: string)
      modifies this
      ensures transactions == Without(old(transactions), TxId, id)
      ensures draft == old(draft) && usdtRate == old(usdtRate) && status == old(status)
    {
      transactions := Without(transactions, TxId, id);
    }

    /** `updateTransaction`: sets one field of every row with the id. */
    method UpdateTransaction(id: string, field: Field, value: FieldValue)
      requires field == DateField ==> value.Text?
      modifies this
      ensures transactions == PatchRows(old(transactions), id, UpdatePayload(field, value))
      ensures draft == old(draft) && usdtRate == old(usdtRate) && status == old(status)
    {
      transactions := PatchRows(transactions, id, UpdatePayload(field, value));
    }

    /** The date edit input of a row. */
    method EditDate(id: string, text: string)
      modifies this
      ensures transactions == PatchRows(old(transactions), id, SetDate(text))
      ensures draft == old(draft) && usdtRate == old(usdtRate) && status == old(status)
    {
      UpdateTransaction(id, DateField, Text(text));
    }

    /** The amount edit inputs of the row at position `k`. */
    method EditAmount(k: nat, field: Field, text: string)
      requires k < |transactions| && field != DateField
      modifies this
      ensures var x := EditedAmount(old(transactions)[k].kind, text);
        transactions == PatchRows(old(transactions), old(transactions)[k].id,
                                  if field == FiatField then SetFiat(x) else SetUsdt(x))
      ensures draft == old(draft) && usdtRate == old(usdtRate) && status == old(status)
    {
      var row := transactions[k];
      var value := ParseOrZero(text);
      var sign := if row.kind == Expense then -1.0 else 1.0;
      UpdateTransaction(row.id, field, Number(value * sign));
    }

    /** `fetchUsdtRate` against the peso rate route. */
    method FetchUsdtRate(reply: Option<RouteResponse>)
      requires Valid()
      modifies this
      ensures Valid()
      ensures (usdtRate, status) == FetchedRate(reply, FallbackRate)
      ensures draft == RateEffect(old(draft), old(usdtRate), usdtRate)
      ensures transactions == old(transactions)
    {
      var previous := usdtRate;
      if reply.Some? && reply.value.RateServed? {
        usdtRate := reply.value.price;
        status := Connected;
      } else {
        status := Error;
        usdtRate := FallbackRate;
      }
      draft := RateEffect(draft, previous, usdtRate);
    }

    /** `consolidate`, writing to "consolidatedCopData". */
    method Consolidate(periodId: string, today: string, createdAt: string) returns (alert: Option<string>)
      requires Valid()
      modifies this, store
      ensures Valid()
      ensures old(transactions) == [] ==>
        && alert == Some(NothingToConsolidate)
        && transactions == old(transactions) && draft == old(draft) && usdtRate == old(usdtRate)
        && store.consolidatedCopData == old(store.consolidatedCopData)
      ensures old(transactions) != [] ==>
        && alert.None?
        && store.consolidatedCopData ==
             Some(old(store.consolidatedCopData).GetOr([]) + [BuildPeriod(old(transactions), periodId, today, createdAt)])
        && transactions == [] && draft == EmptyDraft && usdtRate == "0"
      ensures store.consolidatedPeriods == old(store.consolidatedPeriods) && store.user == old(store.user)
      ensures status == old(status)
    {
      if |transactions| == 0 {
        return Some(NothingToConsolidate);
      }
      var period := BuildPeriod(transactions, periodId, today, createdAt);
      var existing := store.consolidatedCopData.GetOr([]);
      existing := existing + [period];
      store.consolidatedCopData := Some(existing);
      transactions := [];
      draft := EmptyDraft;
      var previous := usdtRate;
      usdtRate := "0";
      draft := RateEffect(draft, previous, usdtRate);
      alert := None;
    }
  }
}
