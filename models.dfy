/**
 * The records of the rental ledger (core/models.py) and the rules that live on
 * them: currency defaulting on save, the currency label, the payment-period
 * label, the 30-day expiring-contract test, and the defaults a new rental
 * takes.  Dates are whole days; only day differences are ever used.
 */
module Models {
  import opened Wrappers
  import opened Seqs

  type Day = int
  type Id = nat
  type UserId = nat

  /** The six `TYPE_CHOICES`; the last one, "Store", is named `Shop` here. */
  datatype PropertyType = Room | Apartment | House | Villa | Office | Shop

  /** `currency` is a nullable CharField: None and "" both count as unset. */
  datatype Property = Property(
    id: Id,
    owner: UserId,
    name: string,
    propertyType: PropertyType,
    country: string,
    city: string,
    address: string,
    currency: Option<string>,
    isRented: bool,
    createdAt: Day)

  datatype Tenant = Tenant(id: Id, landlord: UserId, name: string, phone: string)

  datatype Status = Paid | Unpaid | Pending | Overdue

  /**
   * A rental (RentProperty).  `payment` is the billing interval in days, the
   * value `int(self.payment)` reads from the stored choice "1", "7", "30" or
   * "365"; `contract` is the stored path of the contract image, if any.
   */
  datatype Rental = Rental(
    id: Id,
    tenant: Id,
    property: Id,
    payment: int,
    price: int,
    damageDeposit: Option<int>,
    startDate: Day,
    endDate: Day,
    status: Status,
    contract: Option<string>)

  datatype RentHistory = RentHistory(
    id: Id,
    property: Id,
    tenant: Option<Id>,
    price: int,
    damageDeposit: Option<int>,
    paymentType: string,
    startDate: Day,
    endDate: Day,
    contract: Option<string>)

  datatype ActivityType =
    RentActivity | PaymentActivity | ContractActivity | OverdueActivity | AddActivity

  datatype Activity = Activity(id: Id, user: UserId, property: Id, kind: ActivityType)

  datatype Notification = Notification(
    id: Id, user: UserId, property: Option<Id>, message: string, isRead: bool)

  function PropertyId(p: Property): nat { p.id }
  function TenantId(t: Tenant): nat { t.id }
  function RentalId(r: Rental): nat { r.id }

  const PaymentChoices: set<int> := {1, 7, 30, 365}

  // ---------------------------------------------------------------- currency

  /** The fixed country-to-currency table of `Property.save`. */
  const CountryCurrency: map<string, string> :=
    map["US" := "USD", "EU" := "EUR", "SD" := "SDG", "EG" := "EGP"]

  const FallbackCurrency: string := "USD"

  /** Python truthiness of the nullable `currency` field. */
  predicate IsSet(currency: Option<string>)
  {
    currency.Some? && currency.value != ""
  }

  /**
   * The record `Property.save` persists: an unset currency is filled in from
   * the country (USD for a country outside the table); a set one is kept.
   */
  function CurrencyOnSave(p: Property): (q: Property)
    ensures q == p.(currency := q.currency)
  {
    if IsSet(p.currency) then p
    else
      var code := if p.country in CountryCurrency then CountryCurrency[p.country]
                  else FallbackCurrency;
      p.(currency := Some(code))
  }

  /**
   * After a save the currency is always set: a set one is kept, an unset one
   * comes from the country table, with USD for any other country.
   */
  lemma CurrencyOnSaveDefaults(p: Property)
    ensures IsSet(CurrencyOnSave(p).currency)
    ensures IsSet(p.currency) ==> CurrencyOnSave(p).currency == p.currency
    ensures !IsSet(p.currency) && p.country in CountryCurrency ==>
              CurrencyOnSave(p).currency == Some(CountryCurrency[p.country])
    ensures !IsSet(p.currency) && p.country !in CountryCurrency ==>
              CurrencyOnSave(p).currency == Some(FallbackCurrency)
  {
    if !IsSet(p.currency) && p.country in CountryCurrency {
      assert CountryCurrency[p.country] in {"USD", "EUR", "SDG", "EGP"};
    }
  }

  /** Saving twice stores what saving once stores. */
  lemma CurrencyOnSaveIdempotent(p: Property)
    ensures CurrencyOnSave(CurrencyOnSave(p)) == CurrencyOnSave(p)
  {
    CurrencyOnSaveDefaults(p);
  }

  /**
   * The labels of `get_translated_currency`.  Translation catalogues are not
   * modelled, so each label is the code itself.
   */
  const CurrencyLabels: map<string, string> :=
    map["USD" := "USD", "EUR" := "EUR", "SDG" := "SDG", "EGP" := "EGP"]

  /** `currency_map.get(self.currency, self.currency)` */
  function TranslatedCurrency(currency: Option<string>): (r: Option<string>)
    ensures currency.Some? && currency.value in CurrencyLabels ==>
              r == Some(CurrencyLabels[currency.value])
    ensures !(currency.Some? && currency.value in CurrencyLabels) ==> r == currency
  {
    if currency.Some? && currency.value in CurrencyLabels
    then Some(CurrencyLabels[currency.value])
    else currency
  }

  /** With untranslated labels the lookup gives back the stored value. */
  lemma TranslatedCurrencyIsStored(currency: Option<string>)
    ensures TranslatedCurrency(currency) == currency
  {
  }

  // ---------------------------------------------------------- payment period

  const PeriodLabels: set<string> := {"day", "week", "month", "year"}

  /** `get_payment_period`: the label of one billing period. */
  function PaymentPeriod(payment: int): (period: string)
    ensures period in PeriodLabels
  {
    if payment == 7 then "week"
    else if payment == 30 then "month"
    else if payment == 365 then "year"
    else "day"
  }

  /** Each label stands for exactly one interval; every other value reads as "day". */
  lemma PaymentPeriodLabels(payment: int)
    ensures PaymentPeriod(payment) == "week" <==> payment == 7
    ensures PaymentPeriod(payment) == "month" <==> payment == 30
    ensures PaymentPeriod(payment) == "year" <==> payment == 365
    ensures PaymentPeriod(payment) == "day" <==> payment !in {7, 30, 365}
  {
  }

  /** The interval of each choice, read back from its period label. */
  function PeriodInterval(period: string): int
  {
    match period
    case "week" => 7
    case "month" => 30
    case "year" => 365
    case _ => 1
  }

  /** For the four payment choices, the label determines the interval. */
  lemma PaymentPeriodRoundTrip(payment: int)
    requires payment in PaymentChoices
    ensures PeriodInterval(PaymentPeriod(payment)) == payment
  {
  }

  // ------------------------------------------------------- expiring contract

  /**
   * `expiring_contracts`: Some(d) stands for the tuple `(True, d)`, None for
   * the implicit `None` when the end is more than 30 days away.
   */
  function ExpiringContract(endDate: Day, today: Day): (r: Option<int>)
    ensures r.Some? <==> today >= endDate - 30
    ensures r.Some? ==> r.value == endDate - today && r.value <= 30
    ensures r.Some? && today > endDate ==> r.value < 0
  {
    if today >= endDate - 30 then Some(endDate - today) else None
  }

  // ------------------------------------------------------------ new rentals

  /**
   * The fields a rental form supplies.  A field the form omits keeps the
   * instance's value, which for a new rental is the model default.
   */
  datatype RentalForm = RentalForm(
    payment: int,
    price: int,
    damageDeposit: Option<int>,
    startDate: Day,
    endDate: Day,
    status: Option<Status>,
    contract: Option<string>)

  /** `form.save()` onto an existing rental. */
  function ApplyForm(r: Rental, f: RentalForm): (s: Rental)
    ensures s.id == r.id && s.tenant == r.tenant && s.property == r.property
    ensures f.status.None? ==> s.status == r.status
    ensures f.status.Some? ==> s.status == f.status.value
  {
    r.(payment := f.payment, price := f.price, damageDeposit := f.damageDeposit,
       startDate := f.startDate, endDate := f.endDate,
       status := if f.status.Some? then f.status.value else r.status,
       contract := f.contract)
  }

  /** A new rental of `property` to `tenant` built from a form. */
  function NewRental(id: Id, tenant: Id, property: Id, f: RentalForm): (r: Rental)
    ensures r.id == id && r.tenant == tenant && r.property == property
    ensures r.status == if f.status.Some? then f.status.value else Paid
  {
    var blank := Rental(id, tenant, property, f.payment, f.price, None,
                        f.startDate, f.endDate, Paid, None);
    ApplyForm(blank, f)
  }

  // ------------------------------------------------------------ next payment

  /** `get_next_payment(payment, start_date, end_date)`: days until the next payment, if any. */
  type NextPaymentFn = (int, Day, Day) -> Option<int>

  /** `RentProperty.get_next_payment`, which only delegates. */
  function NextPaymentOf(r: Rental, nextPayment: NextPaymentFn): Option<int>
  {
    nextPayment(r.payment, r.startDate, r.endDate)
  }

  // ------------------------------------------------------------------ keys

  function PropertyIds(ps: seq<Property>): set<nat> { Keys(ps, PropertyId) }
  function TenantIds(ts: seq<Tenant>): set<nat> { Keys(ts, TenantId) }
  function RentalIds(rs: seq<Rental>): set<nat> { Keys(rs, RentalId) }
}
