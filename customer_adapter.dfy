/**
 * The persisted form of a customer's default payment option and its
 * conversions to and from the payment sheet's `SavedSelection`
 * (repositories/CustomerAdapter.kt), plus the ephemeral-key record.
 */
module CustomerAdapter {
  import opened Wrappers

  const GOOGLE_PAY_ID := "google_pay"
  const LINK_ID := "link"

  /** `PersistablePaymentMethodOption`: two reserved singletons and a Stripe payment-method id. */
  datatype PersistablePaymentMethodOption = GooglePay | Link | StripeId(stripeId: string) {

    /** The `id` property the option is persisted under. */
    function Id(): (r: string)
      ensures GooglePay? ==> r == GOOGLE_PAY_ID
      ensures Link? ==> r == LINK_ID
      ensures StripeId? ==> r == stripeId
    {
      match this
      case GooglePay => GOOGLE_PAY_ID
      case Link => LINK_ID
      case StripeId(id) => id
    }
  }

  /** `SavedSelection`, the payment sheet's own record of the chosen option. */
  datatype SavedSelection = GooglePay | Link | None | PaymentMethod(id: string)

  /** `fromId`: the reserved ids name the singletons, every other string is a Stripe id. */
  function FromId(id: string): (o: PersistablePaymentMethodOption)
    ensures o.Id() == id
    ensures o == PersistablePaymentMethodOption.GooglePay <==> id == GOOGLE_PAY_ID
    ensures o == PersistablePaymentMethodOption.Link <==> id == LINK_ID
    ensures o.StripeId? <==> id != GOOGLE_PAY_ID && id != LINK_ID
  {
    if id == GOOGLE_PAY_ID then PersistablePaymentMethodOption.GooglePay
    else if id == LINK_ID then PersistablePaymentMethodOption.Link
    else StripeId(id)
  }

  /** `toSavedSelection`: never produces `SavedSelection.None`. */
  function ToSavedSelection(o: PersistablePaymentMethodOption): (s: SavedSelection)
    ensures !s.None?
    ensures o.GooglePay? <==> s.GooglePay?
    ensures o.Link? <==> s.Link?
    ensures o.StripeId? <==> s.PaymentMethod?
    ensures s.PaymentMethod? ==> s.id == o.stripeId
  {
    match o
    case GooglePay => SavedSelection.GooglePay
    case Link => SavedSelection.Link
    case StripeId(id) => SavedSelection.PaymentMethod(id)
  }

  /** `toPersistablePaymentMethodOption`: `null` exactly for `SavedSelection.None`. */
  function ToPersistablePaymentMethodOption(s: SavedSelection): (r: Option<PersistablePaymentMethodOption>)
    ensures r.None? <==> s.None?
    ensures s.GooglePay? <==> r == Some(PersistablePaymentMethodOption.GooglePay)
    ensures s.Link? <==> r == Some(PersistablePaymentMethodOption.Link)
    ensures s.PaymentMethod? <==> r.Some? && r.value.StripeId?
    ensures s.PaymentMethod? ==> r.value.stripeId == s.id
  {
    match s
    case GooglePay => Some(PersistablePaymentMethodOption.GooglePay)
    case Link => Some(PersistablePaymentMethodOption.Link)
    case None => Option.None
    case PaymentMethod(id) => Some(StripeId(id))
  }

  /** Parsing the persisted id gives back the option, except for a Stripe id that takes a reserved name. */
  lemma FromIdOfId(o: PersistablePaymentMethodOption)
    ensures FromId(o.Id()) == o <==> !(o.StripeId? && o.stripeId in {GOOGLE_PAY_ID, LINK_ID})
  {
  }

  /** The reserved-id edge case: a payment method whose id is "google_pay" comes back as Google Pay. */
  lemma ReservedStripeIdIsNotRestored()
    ensures FromId(StripeId(GOOGLE_PAY_ID).Id()) == PersistablePaymentMethodOption.GooglePay
    ensures FromId(StripeId(GOOGLE_PAY_ID).Id()) != StripeId(GOOGLE_PAY_ID)
  {
  }

  /** Option -> selection -> option is the identity. */
  lemma OptionRoundTrip(o: PersistablePaymentMethodOption)
    ensures ToPersistablePaymentMethodOption(ToSavedSelection(o)) == Some(o)
  {
  }

  /** Selection -> option -> selection is the identity wherever the option exists. */
  lemma SelectionRoundTrip(s: SavedSelection)
    ensures ToPersistablePaymentMethodOption(s).Some? ==>
      ToSavedSelection(ToPersistablePaymentMethodOption(s).value) == s
  {
  }

  /** `CustomerEphemeralKey`: an immutable pair handed over by the merchant's server. */
  datatype CustomerEphemeralKey = CustomerEphemeralKey(customerId: string, ephemeralKey: string)

  /** `CustomerEphemeralKey.create` stores both strings unchanged. */
  function CreateCustomerEphemeralKey(customerId: string, ephemeralKey: string): (k: CustomerEphemeralKey)
    ensures k.customerId == customerId && k.ephemeralKey == ephemeralKey
  {
    CustomerEphemeralKey(customerId, ephemeralKey)
  }
}
