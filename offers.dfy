/** Offers: one version of a proposed trade, as it sits in a party's history.
    A bare offer carries only its terms (product, unit price, quantity); the
    action, the acting user, the buyer and the seller are added when an action
    uses it, and the owner, version, owner's state and owner's private data are
    stamped on when a party records its own copy. A field that is not yet set is
    `None`, as it is `None` on a freshly built offer in the source. */
module Offers {

  datatype Option<T> = None | Some(value: T)

  /** What a party did to produce a version. */
  datatype Action = Submit | Accept | Cancel | Withdraw | ProposeUpdate | UpdatePrivateData

  /** A party's position in the negotiation, as its own ledger sees it. */
  datatype State =
    | AwaitingMyAcceptance
    | AwaitingTheirAcceptance
    | Accepted
    | Cancelled
    | WithdrawnByMe
    | WithdrawnByThem

  datatype Role = Buyer | Seller

  /** Private annotations of a party: key to value. */
  type Info = map<string, string>

  datatype Offer = Offer(
    userId: Option<string>,      // whose history this copy belongs to
    version: Option<int>,        // position in that history, from 1
    action: Option<Action>,
    userAction: Option<string>,  // who took the action
    state: Option<State>,        // the owner's state when the copy was recorded
    buyer: Option<string>,
    seller: Option<string>,
    product: string,
    price: int,
    quantity: int,
    privateInfo: Option<Info>)   // the owner's private data when the copy was recorded

  /** A party's view of where the counterparty stands: each of the two
      parties' states determines the other's. */
  function Mirror(st: State): State
  {
    match st
    case AwaitingMyAcceptance => AwaitingTheirAcceptance
    case AwaitingTheirAcceptance => AwaitingMyAcceptance
    case WithdrawnByMe => WithdrawnByThem
    case WithdrawnByThem => WithdrawnByMe
    case Accepted => Accepted
    case Cancelled => Cancelled
  }

  /** The states in which the negotiation has ended for good. */
  predicate Terminal(st: State)
  {
    st == Accepted || st == Cancelled
  }

  lemma MirrorInvolutive(st: State)
    ensures Mirror(Mirror(st)) == st
    ensures Terminal(Mirror(st)) <==> Terminal(st)
    ensures Terminal(st) <==> Mirror(st) == st
  {
  }

  /** A bare offer: the terms only, every stamp unset. */
  function NewOffer(product: string, price: int, quantity: int): (r: Offer)
    ensures r.product == product && r.price == price && r.quantity == quantity
    ensures r.userId.None? && r.version.None? && r.action.None? && r.userAction.None?
    ensures r.state.None? && r.buyer.None? && r.seller.None? && r.privateInfo.None?
  {
    Offer(None, None, None, None, None, None, None, product, price, quantity, None)
  }

  /** A copy of `o` marked as the result of `action` taken by `actor`. */
  function Acted(o: Offer, action: Action, actor: string): Offer
  {
    o.(action := Some(action), userAction := Some(actor))
  }

  /** The two offers trade the same goods on the same terms. */
  predicate SameDeal(a: Offer, b: Offer)
  {
    a.product == b.product && a.price == b.price && a.quantity == b.quantity
  }

  /** The two offers name the same buyer and the same seller. */
  predicate SameParties(a: Offer, b: Offer)
  {
    a.buyer == b.buyer && a.seller == b.seller
  }

  // ---------------------------------------------------------------------
  // Field-by-field view of an offer, as used by the version diff.
  // ---------------------------------------------------------------------

  datatype Field =
    | UserIdField
    | VersionField
    | ActionField
    | UserActionField
    | StateField
    | BuyerField
    | SellerField
    | ProductField
    | PriceField
    | QuantityField
    | PrivateInfoField

  /** The value of one field; `Absent` stands for an unset field. */
  datatype Value =
    | Absent
    | Text(text: string)
    | Number(number: int)
    | ActionName(action: Action)
    | StateName(state: State)
    | Annotations(info: Info)

  /** Every field of an offer, in the order the offer declares them. */
  const AllFields: seq<Field> := [UserIdField, VersionField, ActionField, UserActionField,
                                  StateField, BuyerField, SellerField, ProductField,
                                  PriceField, QuantityField, PrivateInfoField]

  lemma AllFieldsListed(f: Field)
    ensures f in AllFields
  {
  }

  function TextOrAbsent(x: Option<string>): Value
  {
    if x.Some? then Text(x.value) else Absent
  }

  function FieldValue(o: Offer, f: Field): Value
  {
    match f
    case UserIdField => TextOrAbsent(o.userId)
    case VersionField => if o.version.Some? then Number(o.version.value) else Absent
    case ActionField => if o.action.Some? then ActionName(o.action.value) else Absent
    case UserActionField => TextOrAbsent(o.userAction)
    case StateField => if o.state.Some? then StateName(o.state.value) else Absent
    case BuyerField => TextOrAbsent(o.buyer)
    case SellerField => TextOrAbsent(o.seller)
    case ProductField => Text(o.product)
    case PriceField => Number(o.price)
    case QuantityField => Number(o.quantity)
    case PrivateInfoField => if o.privateInfo.Some? then Annotations(o.privateInfo.value) else Absent
  }

  /** Two offers agree on every field exactly when they are the same offer. */
  lemma {:induction false} FieldsDetermineOffer(a: Offer, b: Offer)
    requires forall f :: FieldValue(a, f) == FieldValue(b, f)
    ensures a == b
  {
    assert FieldValue(a, UserIdField) == FieldValue(b, UserIdField);
    assert FieldValue(a, VersionField) == FieldValue(b, VersionField);
    assert FieldValue(a, ActionField) == FieldValue(b, ActionField);
    assert FieldValue(a, UserActionField) == FieldValue(b, UserActionField);
    assert FieldValue(a, StateField) == FieldValue(b, StateField);
    assert FieldValue(a, BuyerField) == FieldValue(b, BuyerField);
    assert FieldValue(a, SellerField) == FieldValue(b, SellerField);
    assert FieldValue(a, ProductField) == FieldValue(b, ProductField);
    assert FieldValue(a, PriceField) == FieldValue(b, PriceField);
    assert FieldValue(a, QuantityField) == FieldValue(b, QuantityField);
    assert FieldValue(a, PrivateInfoField) == FieldValue(b, PrivateInfoField);
  }

  /** The fields in which `a` and `b` differ, each with its value in `a` and in `b`. */
  function Differences(a: Offer, b: Offer): (d: map<Field, (Value, Value)>)
    ensures forall f :: f in d <==> FieldValue(a, f) != FieldValue(b, f)
    ensures forall f :: f in d ==> d[f] == (FieldValue(a, f), FieldValue(b, f))
  {
    map f | f in AllFields && FieldValue(a, f) != FieldValue(b, f) :: (FieldValue(a, f), FieldValue(b, f))
  }

  /** The diff is empty exactly when the two offers are equal. */
  lemma DifferencesEmptyIff(a: Offer, b: Offer)
    ensures Differences(a, b) == map[] <==> a == b
  {
    if Differences(a, b) == map[] {
      forall f ensures FieldValue(a, f) == FieldValue(b, f) {
        assert f !in Differences(a, b);
      }
      FieldsDetermineOffer(a, b);
    }
  }

  /** Comparing in the other order reports the same fields with the pairs swapped. */
  lemma DifferencesSwapped(a: Offer, b: Offer)
    ensures Differences(b, a).Keys == Differences(a, b).Keys
    ensures forall f :: f in Differences(a, b) ==>
              Differences(b, a)[f] == (Differences(a, b)[f].1, Differences(a, b)[f].0)
  {
  }
}
