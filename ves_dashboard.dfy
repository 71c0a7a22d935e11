/**
 * The bolívar dashboard: the signed-in user's transactions (kept by the
 * backend), the new-transaction form, the VES/USDT rate, and consolidation
 * into the "consolidatedPeriods" list in local storage. Backend calls are
 * represented by their replies, passed in as parameters.
 */
module VesDashboard {
  import opened Wrappers
  import opened Numeric
  import opened Ledger
  import opened Conversion
  import opened P2P
  import opened Form
  import opened Storage

  const FallbackRate: string := "180.00"

  const NotSignedIn: string := "Debes iniciar sesión para agregar transacciones"
  const MissingAmounts: string := "Por favor completa los montos en bolívares y USDT"
  const AddFailed: string := "Error al agregar la transacción"
  const DeleteFailed: string := "Error al eliminar la transacción"
  const UpdateFailed: string := "Error al actualizar la transacción"
  const LoadFailed: string := "Error al cargar las transacciones"
  const NothingToConsolidate: string := "No hay transacciones para consolidar"

  /** "Transacción #n". */
  function RowLabel(n: nat): string {
    "Transacción #" + NatToDigits(n)
  }

  /**
   * The record `addTransaction` sends to the backend (`transactionData`);
   * the backend assigns the id.
   */
  datatype NewTransaction = NewTransaction(
    description: string,
    amountFiat: real,
    amountUsdt: real,
    date: string,
    kind: Kind,
    userId: string)

  /**
   * The record built from the form: labelled after the rows already listed,
   * dated today, both amounts as |x| for income and -|x| for an expense.
   */
  function NewRow(d: Draft, count: nat, today: string, user: string): (t: NewTransaction)
    requires ValidDraft(d) && d.amountFiat != "" && d.amountUsdt != ""
    ensures t.description == RowLabel(count + 1) && t.date == today
    ensures t.kind == d.kind && t.userId == user
    ensures Abs(t.amountFiat) == Abs(ParseFloat(d.amountFiat).value)
    ensures Abs(t.amountUsdt) == Abs(ParseFloat(d.amountUsdt).value)
    ensures d.kind == Expense ==> t.amountFiat <= 0.0 && t.amountUsdt <= 0.0
    ensures d.kind == Income ==> t.amountFiat >= 0.0 && t.amountUsdt >= 0.0
  {
    NewTransaction(RowLabel(count + 1),
                   VesSigned(d.kind, ParseFloat(d.amountFiat).value),
                   VesSigned(d.kind, ParseFloat(d.amountUsdt).value),
                   today, d.kind, user)
  }

  /** The row a backend that stores `data` as sent returns, under the id it assigned. */
  function Stored(data: NewTransaction, id: string): Transaction {
    Transaction(id, data.description, data.amountFiat, data.amountUsdt, data.date, data.kind, Some(data.userId))
  }

  /**
   * When the backend stores the record as sent, adding it moves the totals
   * by its signed amounts, and the commission by 14% of its USDT magnitude
   * when it is income, not at all when it is an expense; the stored row
   * follows the sign convention.
   */
  lemma AddMovesTotals(d: Draft, id: string, ts: seq<Transaction>, today: string, user: string)
    requires ValidDraft(d) && d.amountFiat != "" && d.amountUsdt != ""
    ensures var t := Stored(NewRow(d, |ts|, today, user), id);
      && SignConsistent(t)
      && TotalFiat([t] + ts) == t.amountFiat + TotalFiat(ts)
      && TotalUsdt([t] + ts) == t.amountUsdt + TotalUsdt(ts)
      && Commission([t] + ts) == Commission(ts) + (if d.kind == Income then Abs(ParseFloat(d.amountUsdt).value) * CommissionRate else 0.0)
  {
    var t := Stored(NewRow(d, |ts|, today, user), id);
    TotalsAppend([t], ts);
    SumBySingle(t, FiatOf);
    SumBySingle(t, UsdtOf);
    assert Incomes([t]) == if t.kind == Income then [t] else [];
    if t.kind == Income {
      SumBySingle(t, UsdtOf);
    }
  }

  class Dashboard {
    /** The signed-in user's id, if any. */
    const userId: Option<string>
    const store: LocalStorage
    var transactions: seq<Transaction>
    var draft: Draft
    var usdtRate: string
    var status: ConnectionStatus

    predicate Valid()
      reads this
    {
      ValidDraft(draft)
    }

    constructor(userId: Option<string>, store: LocalStorage)
      ensures Valid()
      ensures this.userId == userId && this.store == store
      ensures transactions == [] && draft == EmptyDraft && usdtRate == "0" && status == Idle
    {
      this.userId := userId;
      this.store := store;
      transactions := [];
      draft := EmptyDraft;
      usdtRate := "0";
      status := Idle;
    }

    /** `loadTransactions`: `reply` is the backend's list, `None` when the call failed. */
    method LoadTransactions(reply: Option<seq<Transaction>>) returns (alert: Option<string>)
      modifies this
      ensures userId.Some? && reply.Some? ==> transactions == reply.value && alert.None?
      ensures userId.Some? && reply.None? ==> transactions == old(transactions) && alert == Some(LoadFailed)
      ensures userId.None? ==> transactions == old(transactions) && alert.None?
      ensures draft == old(draft) && usdtRate == old(usdtRate) && status == old(status)
    {
      alert := None;
      if userId.None? {
        return;
      }
      match reply {
        case Some(rows) => transactions := rows;
        case None => alert := Some(LoadFailed);
      }
    }

    /** The bolívar amount input. */
    method ChangeFiatAmount(value: string)
      requires Valid() && NumberText(value)
      modifies this
      ensures Valid()
      ensures draft == WithFiatAmount(old(draft), value, usdtRate)
      ensures transactions == old(transactions) && usdtRate == old(usdtRate) && status == old(status)
    {
      draft := WithFiatAmount(draft, value, usdtRate);
    }

    /** The USDT amount input, which overrides the conversion. */
    method ChangeUsdtAmount(value: string)
      requires Valid() && NumberText(value)
      modifies this
      ensures Valid()
      ensures draft == old(draft).(amountUsdt := value)
      ensures transactions == old(transactions) && usdtRate == old(usdtRate) && status == old(status)
    {
      draft := draft.(amountUsdt := value);
    }

    /** The income/expense radio buttons. */
    method ChangeKind(kind: Kind)
      requires Valid()
      modifies this
      ensures Valid()
      ensures draft == old(draft).(kind := kind)
      ensures transactions == old(transactions) && usdtRate == old(usdtRate) && status == old(status)
    {
      draft := draft.(kind := kind);
    }

    /** The rate input: rows are never touched, only the draft's USDT text. */
    method ChangeRate(value: string)
      requires Valid()
      modifies this
      ensures Valid()
      ensures usdtRate == value
      ensures draft == RateInput(old(draft), old(usdtRate), value)
      ensures transactions == old(transactions) && status == old(status)
    {
      var previous := usdtRate;
      if draft.amountFiat != "" {
        ConversionIsNumberText(draft.amountFiat, previous);
        draft := draft.(amountUsdt := CalculateUsdt(draft.amountFiat, previous));
      }
      usdtRate := value;
      draft := RateEffect(draft, previous, usdtRate);
    }

    /**
     * `addTransaction`. `today` is the current date as "YYYY-MM-DD";
     * `created` is the row the backend returns for the record sent, `None`
     * when the insert failed. `sent` is the record sent, if the call was made.
     */
    method AddTransaction(today: string, created: Option<Transaction>)
      returns (sent: Option<NewTransaction>, alert: Option<string>)
      requires Valid()
      modifies this
      ensures Valid()
      ensures sent.Some? <==> userId.Some? && old(draft).amountFiat != "" && old(draft).amountUsdt != ""
      ensures sent.Some? ==> sent.value == NewRow(old(draft), |old(transactions)|, today, userId.value)
      ensures userId.None? ==> alert == Some(NotSignedIn)
      ensures userId.Some? && (old(draft).amountFiat == "" || old(draft).amountUsdt == "") ==> alert == Some(MissingAmounts)
      ensures sent.Some? && created.None? ==> alert == Some(AddFailed)
      ensures alert.None? <==> sent.Some? && created.Some?
      ensures alert.None? ==> transactions == [created.value] + old(transactions) && draft == EmptyDraft
      ensures alert.Some? ==> transactions == old(transactions) && draft == old(draft)
      ensures usdtRate == old(usdtRate) && status == old(status)
    {
      if userId.None? {
        return None, Some(NotSignedIn);
      }
      if draft.amountFiat == "" || draft.amountUsdt == "" {
        return None, Some(MissingAmounts);
      }
      sent := Some(NewRow(draft, |transactions|, today, userId.value));
      if created.None? {
        return sent, Some(AddFailed);
      }
      transactions := [created.value] + transactions;
      draft := EmptyDraft;
      alert := None;
    }

    /** `deleteTransaction`: `deleted` tells whether the backend delete succeeded. */
    method DeleteTransaction(id: string, deleted: bool) returns (alert: Option<string>)
      modifies this
      ensures deleted ==> transactions == Without(old(transactions), TxId, id) && alert.None?
      ensures !deleted ==> transactions == old(transactions) && alert == Some(DeleteFailed)
      ensures draft == old(draft) && usdtRate == old(usdtRate) && status == old(status)
    {
      if !deleted {
        return Some(DeleteFailed);
      }
      transactions := Without(transactions, TxId, id);
      alert := None;
    }

    /**
     * `updateTransaction` from an edit input: returns the update object sent
     * to the backend; `reply` is the stored row it answers with, `None` when
     * the update failed.
     */
    method UpdateTransaction(id: string, field: Field, value: string, reply: Option<Transaction>)
      returns (payload: Patch, alert: Option<string>)
      modifies this
      ensures payload == UpdatePayload(field, Text(value))
      ensures reply.Some? ==> transactions == ReplaceRows(old(transactions), id, reply.value) && alert.None?
      ensures reply.None? ==> transactions == old(transactions) && alert == Some(UpdateFailed)
      ensures draft == old(draft) && usdtRate == old(usdtRate) && status == old(status)
    {
      payload := UpdatePayload(field, Text(value));
      match reply {
        case Some(row) =>
          transactions := ReplaceRows(transactions, id, row);
          alert := None;
        case None =>
          alert := Some(UpdateFailed);
      }
    }

    /**
     * `fetchUsdtRate` against the bolívar rate route; `reply` is the route's
     * answer, `None` when the request failed or timed out.
     */
    method FetchUsdtRate(reply: Option<RouteResponse>)
      requires Valid()
      modifies this
      ensures Valid()
      ensures (usdtRate, status) == FetchedRate(reply, FallbackRate)
      ensures draft == RateEffect(old(draft), old(usdtRate), usdtRate)
      ensures transactions == old(transactions)
    {
      var previous := usdtRate;
      if reply.Some? && reply.value.RateServed? {
        usdtRate := reply.value.price;
        status := Connected;
      } else {
        status := Error;
        usdtRate := FallbackRate;
      }
      draft := RateEffect(draft, previous, usdtRate);
    }

    /**
     * "Consolidar": with rows present, appends their period to the stored
     * list (an absent key reading as empty) and starts a new period; with
     * none, only alerts. `periodId` and `createdAt` come from the clock,
     * `today` is the fallback date.
     */
    method Consolidate(periodId: string, today: string, createdAt: string) returns (alert: Option<string>)
      requires Valid()
      modifies this, store
      ensures Valid()
      ensures old(transactions) == [] ==>
        && alert == Some(NothingToConsolidate)
        && transactions == old(transactions) && draft == old(draft) && usdtRate == old(usdtRate)
        && store.consolidatedPeriods == old(store.consolidatedPeriods)
      ensures old(transactions) != [] ==>
        && alert.None?
        && store.consolidatedPeriods ==
             Some(old(store.consolidatedPeriods).GetOr([]) + [BuildPeriod(old(transactions), periodId, today, createdAt)])
        && transactions == [] && draft == EmptyDraft && usdtRate == "0"
      ensures store.consolidatedCopData == old(store.consolidatedCopData) && store.user == old(store.user)
      ensures status == old(status)
    {
      if |transactions| == 0 {
        return Some(NothingToConsolidate);
      }
      var period := BuildPeriod(transactions, periodId, today, createdAt);
      var existing := store.consolidatedPeriods.GetOr([]);
      existing := existing + [period];
      store.consolidatedPeriods := Some(existing);
      transactions := [];
      draft := EmptyDraft;
      var previous := usdtRate;
      usdtRate := "0";
      draft := RateEffect(draft, previous, usdtRate);
      alert := None;
    }
  }
}
