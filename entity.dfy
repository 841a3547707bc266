/** The persistent `Subscription` record, its billing cycle and the currencies
    the editing screen offers. Dates and timestamps are milliseconds since the
    epoch; `Double` amounts are reals. */
module Entity {
  import opened Wrappers

  datatype PaymentCycle = Monthly | Yearly {
    function DisplayName(): string {
      match this
      case Monthly => "月額"
      case Yearly => "年額"
    }
  }

  datatype Currency = JPY | USD {
    function DisplayName(): string {
      match this
      case JPY => "円"
      case USD => "ドル"
    }

    /** The code stored in `Subscription.currency`. */
    function Code(): string {
      match this
      case JPY => "JPY"
      case USD => "USD"
    }
  }

  /** All currencies, in declaration order (Kotlin's `Currency.values()`). */
  const Currencies: seq<Currency> := [JPY, USD]

  /** The first currency, in declaration order, whose code is `code`. Since the
      codes are distinct, this is the only one. */
  function FindByCode(code: string): (r: Option<Currency>)
    ensures forall c: Currency :: r == Some(c) <==> c.Code() == code
    ensures r.None? <==> code !in {"JPY", "USD"}
  {
    FindIn(Currencies, code)
  }

  function FindIn(cs: seq<Currency>, code: string): (r: Option<Currency>)
    ensures r.Some? ==> r.value in cs && r.value.Code() == code
    ensures r.None? ==> forall c :: c in cs ==> c.Code() != code
  {
    if cs == [] then None
    else if cs[0].Code() == code then Some(cs[0])
    else FindIn(cs[1..], code)
  }

  /** The default currency code of a new record. */
  const DefaultCurrencyCode: string := "JPY"

  /** A row of the `subscriptions` table. `id` 0 marks a record that has not
      been inserted yet; `expirationDate` is nullable. */
  datatype Subscription = Subscription(
    id: int,
    serviceName: string,
    amount: real,
    currency: string,
    paymentCycle: PaymentCycle,
    paymentDay: int,
    expirationDate: Option<int>,
    memo: string,
    isActive: bool,
    createdAt: int,
    updatedAt: int)

  /** A record built at time `now` with every defaulted field left at its
      default: id 0, currency "JPY", empty memo, active, both timestamps now.
      `paymentDay` is not range-checked. */
  function NewSubscription(serviceName: string, amount: real, paymentCycle: PaymentCycle,
                           paymentDay: int, expirationDate: Option<int>, now: int): (s: Subscription)
    ensures IsNew(s) && s.isActive && s.memo == ""
    ensures Some(JPY) == FindByCode(s.currency)
    ensures s.createdAt == s.updatedAt == now
    ensures s.serviceName == serviceName && s.amount == amount && s.paymentCycle == paymentCycle
    ensures s.paymentDay == paymentDay && s.expirationDate == expirationDate
  {
    Subscription(0, serviceName, amount, DefaultCurrencyCode, paymentCycle, paymentDay,
                 expirationDate, "", true, now, now)
  }

  /** A record that the store will give a generated id. */
  predicate IsNew(s: Subscription) {
    s.id == 0
  }
}
