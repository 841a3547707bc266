/** The add/edit screen's view model: a UI-state record, one setter per field,
    loading a stored subscription into the form, and the save routine
    (validation, USD to JPY conversion, insert or update). Each coroutine
    launch is taken to run to completion before the next call. The clock
    reading, the outcome of the rate request and a storage fault are
    parameters; `Double.toString` and `String.toDoubleOrNull` are the
    functions `formatAmount` and `parseAmount`. */
module AddEdit {
  import opened Wrappers
  import opened Entity
  import opened Dao
  import opened Repository
  import opened ExchangeRate

  const RequiredMessage: string := "サービス名と金額は必須です"
  const InvalidAmountMessage: string := "正しい金額を入力してください"
  /** Set on the rate service's failure branch, which no call reaches. */
  const RateFailedMessage: string := "為替レートの取得に失敗しました"
  const SaveFailedMessage: string := "保存に失敗しました"

  /** The form. `amount` is the text as typed. */
  datatype AddEditUiState = AddEditUiState(
    id: int,
    serviceName: string,
    amount: string,
    currency: Currency,
    paymentCycle: PaymentCycle,
    paymentDay: int,
    expirationDate: Option<int>,
    memo: string,
    isEditMode: bool,
    isLoading: bool,
    errorMessage: Option<string>)

  const DefaultUiState: AddEditUiState :=
    AddEditUiState(0, "", "", JPY, Monthly, 1, None, "", false, false, None)

  /** Kotlin's `Char.isWhitespace`: Java whitespace or a Unicode space
      separator. */
  predicate IsWhitespace(c: char) {
    || '\t' <= c <= '\r'
    || '\U{1C}' <= c <= '\U{1F}'
    || c == ' ' || c == '\U{A0}' || c == '\U{1680}'
    || '\U{2000}' <= c <= '\U{200A}'
    || c == '\U{2028}' || c == '\U{2029}' || c == '\U{202F}' || c == '\U{205F}'
    || c == '\U{3000}'
  }

  /** `isBlank`: empty or whitespace only. */
  predicate IsBlank(s: string) {
    forall i :: 0 <= i < |s| ==> IsWhitespace(s[i])
  }

  /** The two checks of a save, in order: both text fields filled in, then an
      amount that parses to a positive number. Success carries that number. */
  function Validate(state: AddEditUiState, parseAmount: string -> Option<real>): (r: Result<real, string>)
    ensures r == Failure(RequiredMessage) <==> IsBlank(state.serviceName) || IsBlank(state.amount)
    ensures r == Failure(InvalidAmountMessage) <==>
      !IsBlank(state.serviceName) && !IsBlank(state.amount)
      && (parseAmount(state.amount).None? || parseAmount(state.amount).value <= 0.0)
    ensures r.Success? <==>
      !IsBlank(state.serviceName) && !IsBlank(state.amount)
      && parseAmount(state.amount).Some? && parseAmount(state.amount).value > 0.0
    ensures r.Success? ==> Some(r.value) == parseAmount(state.amount) && r.value > 0.0
  {
    if IsBlank(state.serviceName) || IsBlank(state.amount) then Failure(RequiredMessage)
    else match parseAmount(state.amount)
      case None => Failure(InvalidAmountMessage)
      case Some(inputAmount) =>
        if inputAmount <= 0.0 then Failure(InvalidAmountMessage) else Success(inputAmount)
  }

  /** The amount and currency code that are stored: a USD amount is converted
      at `rate` and stored as JPY; a JPY amount is stored as typed. Either way
      the stored code is "JPY". */
  function Converted(currency: Currency, inputAmount: real, rate: real): (r: (real, string))
    ensures r.1 == DefaultCurrencyCode && FindByCode(r.1) == Some(JPY)
    ensures currency == JPY ==> r.0 == inputAmount
    ensures currency == USD && rate != 0.0 ==> r.0 / rate == inputAmount
    ensures currency == USD && rate == 0.0 ==> r.0 == 0.0
    ensures inputAmount > 0.0 && (currency == USD ==> rate > 0.0) ==> r.0 > 0.0
  {
    if currency == USD then (ConvertUsdToJpy(inputAmount, rate), "JPY")
    else (inputAmount, currency.Code())
  }

  /** The record a save builds: the form's fields, with `isActive` and
      `createdAt` left at their defaults, so a save is always an active row
      created now. */
  function SavedRecord(state: AddEditUiState, amount: real, currency: string, now: int): (s: Subscription)
    ensures s.id == state.id && s.serviceName == state.serviceName && s.memo == state.memo
    ensures s.amount == amount && s.currency == currency
    ensures s.paymentCycle == state.paymentCycle && s.paymentDay == state.paymentDay
    ensures s.expirationDate == state.expirationDate
    ensures s.isActive && s.createdAt == now && s.updatedAt == now
  {
    NewSubscription(state.serviceName, amount, state.paymentCycle, state.paymentDay,
                    state.expirationDate, now).(id := state.id, currency := currency, memo := state.memo)
  }

  /** The form after loading `row`: its fields copied, the amount formatted,
      an unknown currency code read as JPY, and edit mode on; loading, error
      and nothing else are kept. */
  function Loaded(state: AddEditUiState, row: Subscription, formatAmount: real -> string): (r: AddEditUiState)
    ensures r.isEditMode && r.id == row.id
    ensures r.serviceName == row.serviceName && r.amount == formatAmount(row.amount)
    ensures row.currency == "USD" ==> r.currency == USD
    ensures row.currency != "USD" ==> r.currency == JPY
    ensures r.paymentCycle == row.paymentCycle && r.paymentDay == row.paymentDay
    ensures r.expirationDate == row.expirationDate && r.memo == row.memo
    ensures r.isLoading == state.isLoading && r.errorMessage == state.errorMessage
  {
    state.(id := row.id, serviceName := row.serviceName, amount := formatAmount(row.amount),
           currency := FindByCode(row.currency).GetOr(JPY), paymentCycle := row.paymentCycle,
           paymentDay := row.paymentDay, expirationDate := row.expirationDate, memo := row.memo,
           isEditMode := true)
  }

  /** Loading a stored JPY row and saving it untouched writes the row back
      with `isActive` set and both timestamps reset to the time of the save:
      an edit reactivates a deactivated row and forgets its creation time. */
  lemma EditReactivates(t: Table, id: int, state: AddEditUiState,
                        parseAmount: string -> Option<real>, formatAmount: real -> string, now: int)
    requires WellKeyed(t) && id in t && t[id].currency == "JPY"
    requires parseAmount(formatAmount(t[id].amount)) == Some(t[id].amount) && t[id].amount > 0.0
    requires !IsBlank(t[id].serviceName) && !IsBlank(formatAmount(t[id].amount))
    ensures var form := Loaded(state, t[id], formatAmount);
      var v := Validate(form, parseAmount);
      && v == Success(t[id].amount)
      && Updated(t, SavedRecord(form, Converted(form.currency, v.value, 1.0).0,
                                Converted(form.currency, v.value, 1.0).1, now))
         == t[id := t[id].(isActive := true, createdAt := now, updatedAt := now)]
  {
    var form := Loaded(state, t[id], formatAmount);
    assert FindByCode(t[id].currency) == Some(JPY);
    assert form.currency == JPY;
  }

  /** The rate service has no failure path, so the branch of the save routine
      that reports a failed rate lookup is dead. */
  lemma RateFailureUnreachable(c: CacheState, now: int, fetch: Option<real>)
    ensures RateStep(c, now, fetch).result != Failure(RateFailedMessage)
    ensures RateStep(c, now, fetch).result.Success?
  {
  }

  class AddEditViewModel {
    var uiState: AddEditUiState
    const repository: SubscriptionRepository
    const exchangeRateService: ExchangeRateService
    const parseAmount: string -> Option<real>
    const formatAmount: real -> string

    /** The store is consistent, and a form that carries a stored id is in
        edit mode, so a new record is always inserted with id 0. */
    ghost predicate Valid()
      reads this, repository.dao
    {
      repository.dao.Valid() && (uiState.id != 0 ==> uiState.isEditMode)
    }

    constructor (repository: SubscriptionRepository, exchangeRateService: ExchangeRateService,
                 parseAmount: string -> Option<real>, formatAmount: real -> string)
      requires repository.dao.Valid()
      ensures Valid() && uiState == DefaultUiState
      ensures this.repository == repository && this.exchangeRateService == exchangeRateService
      ensures this.parseAmount == parseAmount && this.formatAmount == formatAmount
    {
      uiState := DefaultUiState;
      this.repository := repository;
      this.exchangeRateService := exchangeRateService;
      this.parseAmount := parseAmount;
      this.formatAmount := formatAmount;
    }

    /** `loadSubscription`: id 0 is a new record and leaves the form alone;
        a missing row leaves it alone too. */
    method LoadSubscription(id: int)
      requires Valid()
      modifies this
      ensures Valid()
      ensures id == 0 || id !in repository.dao.rows ==> uiState == old(uiState)
      ensures id != 0 && id in repository.dao.rows ==>
        uiState == Loaded(old(uiState), repository.dao.rows[id], formatAmount) && uiState.id == id
    {
      if id == 0 {
        return;
      }
      var subscription := repository.GetSubscriptionById(id);
      if subscription.Some? {
        uiState := Loaded(uiState, subscription.value, formatAmount);
      }
    }

    method UpdateServiceName(serviceName: string)
      requires Valid()
      modifies this
      ensures Valid() && uiState == old(uiState).(serviceName := serviceName)
    {
      uiState := uiState.(serviceName := serviceName);
    }

    method UpdateAmount(amount: string)
      requires Valid()
      modifies this
      ensures Valid() && uiState == old(uiState).(amount := amount)
    {
      uiState := uiState.(amount := amount);
    }

    method UpdateCurrency(currency: Currency)
      requires Valid()
      modifies this
      ensures Valid() && uiState == old(uiState).(currency := currency)
    {
      uiState := uiState.(currency := currency);
    }

    method UpdatePaymentCycle(cycle: PaymentCycle)
      requires Valid()
      modifies this
      ensures Valid() && uiState == old(uiState).(paymentCycle := cycle)
    {
      uiState := uiState.(paymentCycle := cycle);
    }

    /** Any day is accepted; the 1-31 range lives only in the screen. */
    method UpdatePaymentDay(day: int)
      requires Valid()
      modifies this
      ensures Valid() && uiState == old(uiState).(paymentDay := day)
    {
      uiState := uiState.(paymentDay := day);
    }

    method UpdateExpirationDate(date: Option<int>)
      requires Valid()
      modifies this
      ensures Valid() && uiState == old(uiState).(expirationDate := date)
    {
      uiState := uiState.(expirationDate := date);
    }

    method UpdateMemo(memo: string)
      requires Valid()
      modifies this
      ensures Valid() && uiState == old(uiState).(memo := memo)
    {
      uiState := uiState.(memo := memo);
    }

    method ClearError()
      requires Valid()
      modifies this
      ensures Valid() && uiState == old(uiState).(errorMessage := None)
    {
      uiState := uiState.(errorMessage := None);
    }

    /** `saveSubscription`: `saved` is whether `onSuccess` runs. A failed
        check sets its message and touches neither the store nor the rate
        service; past the checks, only a storage fault stops the write, and
        it leaves the form with the "save failed" message. */
    method SaveSubscription(now: int, fetch: Option<real>, fault: bool) returns (saved: bool)
      requires Valid()
      modifies this, repository.dao, exchangeRateService
      ensures Valid()
      ensures var v := Validate(old(uiState), parseAmount);
        v.Failure? ==> && !saved
                       && uiState == old(uiState).(errorMessage := Some(v.error))
                       && repository.dao.rows == old(repository.dao.rows)
                       && repository.dao.nextId == old(repository.dao.nextId)
      ensures Validate(old(uiState), parseAmount).Success? ==> (saved <==> !fault)
      ensures repository.dao.nextId ==
        if Validate(old(uiState), parseAmount).Success? && !fault && !old(uiState).isEditMode
        then old(repository.dao.nextId) + 1
        else old(repository.dao.nextId)
      ensures saved ==> uiState == old(uiState)
      ensures Validate(old(uiState), parseAmount).Success? && !saved ==>
        uiState == old(uiState).(errorMessage := Some(SaveFailedMessage))
      ensures exchangeRateService.Cache() ==
        if Validate(old(uiState), parseAmount).Success? && old(uiState).currency == USD
        then RateStep(old(exchangeRateService.Cache()), now, fetch).cache
        else old(exchangeRateService.Cache())
      ensures var v := Validate(old(uiState), parseAmount);
        v.Success? ==>
          var rate := RateStep(old(exchangeRateService.Cache()), now, fetch).result.value;
          var final := Converted(old(uiState).currency, v.value, rate);
          var record := SavedRecord(old(uiState), final.0, final.1, now);
          repository.dao.rows ==
            if fault then old(repository.dao.rows)
            else if old(uiState).isEditMode then Updated(old(repository.dao.rows), record)
            else old(repository.dao.rows)[old(repository.dao.nextId) := record.(id := old(repository.dao.nextId))]
    {
      var state := uiState;
      var checked := Validate(state, parseAmount);
      if checked.Failure? {
        uiState := state.(errorMessage := Some(checked.error));
        return false;
      }
      var inputAmount := checked.value;
      var rate := 1.0;
      if state.currency == USD {
        var exchangeResult := exchangeRateService.GetUsdToJpyRate(now, fetch);
        if exchangeResult.Failure? {
          assert false;
        }
        rate := exchangeResult.value;
      }
      var final := Converted(state.currency, inputAmount, rate);
      var subscription := SavedRecord(state, final.0, final.1, now);
      if state.isEditMode {
        var written := repository.UpdateSubscription(subscription, fault);
        saved := written.Pass?;
      } else {
        assert IsNew(subscription);
        var written := repository.InsertSubscription(subscription, fault);
        assert fault ==> written.Failure?;
        assert written.Failure? ==> written.error == StorageFailure;
        saved := written.Success?;
      }
      if !saved {
        uiState := state.(errorMessage := Some(SaveFailedMessage));
      }
    }
  }
}
