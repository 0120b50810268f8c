/** Scenarios: the negotiations of the repository's unit tests, restated as
    method calls on the `Haggler` class, with the values those tests look at
    stated as postconditions. The tests name the parties "Batman" and "Superman"; here
    they are any two distinct ids `batman` and `superman`. In each, `superman`
    submits to `batman`, so `superman` is the seller and `batman` the buyer. */
module Scenarios {
  import opened Offers
  import opened Users
  import opened Protocol
  import opened Hagglers
  import opened Guarantees

  /** Submit, then the buyer accepts: both histories hold two versions, the
      first with each party's own state, the second Accepted, both at the
      submitted terms. */
  method SubmitThenAccept(batman: string, superman: string) returns (batmanV1: Option<Offer>, supermanV1: Option<Offer>,
                                     batmanV2: Option<Offer>, supermanV2: Option<Offer>)
    requires batman != superman
    ensures batmanV1.Some? && batmanV1.value.state == Some(AwaitingMyAcceptance)
    ensures supermanV1.Some? && supermanV1.value.state == Some(AwaitingTheirAcceptance)
    ensures batmanV2.Some? && batmanV2.value.state == Some(Accepted)
    ensures supermanV2.Some? && supermanV2.value.state == Some(Accepted)
    ensures batmanV2.value.price == 500 && supermanV2.value.price == 500
    ensures batmanV2.value.quantity == 5 && supermanV2.value.quantity == 5
  {
    var h := Opening(batman, superman);
    ghost var s1 := h.Model();
    var r := h.Accept(batman);
    SubmitThenAcceptTrace(batman, superman, s1, h.Model());
    batmanV1 := h.ReturnVersion(batman, 1);
    batmanV2 := h.ReturnVersion(batman, 2);
    supermanV1 := h.ReturnVersion(superman, 1);
    supermanV2 := h.ReturnVersion(superman, 2);
  }

  lemma SubmitThenAcceptTrace(batman: string, superman: string, s1: Session, s2: Session)
    requires Inv(s1) && OpeningKept(s1, batman, superman)
    requires |s1.first.offerHistory| == 1 && |s1.second.offerHistory| == 1
    requires s1.first.state == Some(AwaitingMyAcceptance) && !s1.first.end
    requires s2 == AcceptStep(s1, batman).1
    ensures OpeningKept(s2, batman, superman)
    ensures |s2.first.offerHistory| == 2 && |s2.second.offerHistory| == 2
    ensures s2.first.offerHistory[1].state == Some(Accepted) && s2.second.offerHistory[1].state == Some(Accepted)
    ensures s2.first.offerHistory[1].price == 500 && s2.second.offerHistory[1].price == 500
    ensures s2.first.offerHistory[1].quantity == 5 && s2.second.offerHistory[1].quantity == 5
  {
    AcceptEffect(s1, batman);
    assert s2.first.offerHistory[..1] == s1.first.offerHistory;
    assert s2.second.offerHistory[..1] == s1.second.offerHistory;
  }

  /** The seller counters at 550 and the buyer accepts: version 1 is at 500 and
      version 3 at 550 on both sides, and the buyer-side diff of versions 1 and 3
      holds exactly the version, action, state and price. */
  method CounterOffer(batman: string, superman: string) returns (batmanV1: Option<Offer>, batmanV3: Option<Offer>,
                                 supermanV1: Option<Offer>, supermanV3: Option<Offer>,
                                 diffs: map<Field, (Value, Value)>)
    requires batman != superman
    ensures batmanV1.Some? && batmanV1.value.state == Some(AwaitingMyAcceptance) && batmanV1.value.price == 500
    ensures supermanV1.Some? && supermanV1.value.state == Some(AwaitingTheirAcceptance) && supermanV1.value.price == 500
    ensures batmanV3.Some? && batmanV3.value.price == 550 && batmanV3.value.quantity == 5
    ensures supermanV3.Some? && supermanV3.value.price == 550 && supermanV3.value.quantity == 5
    ensures diffs == map[VersionField := (Number(1), Number(3)),
                         ActionField := (ActionName(Submit), ActionName(Accept)),
                         StateField := (StateName(AwaitingTheirAcceptance), StateName(Accepted)),
                         PriceField := (Number(500), Number(550))]
  {
    var h := new Haggler(batman, superman);
    ghost var s0 := h.Model();
    var r := h.Submit(superman, batman, NewOffer("Batmobile", 500, 5));
    SubmitEffect(s0, superman, batman, NewOffer("Batmobile", 500, 5));
    ghost var s1 := h.Model();
    assert s1.first.state == Some(AwaitingMyAcceptance) && |s1.first.offerHistory| == 1;
    assert s1.second.state == Some(AwaitingTheirAcceptance) && |s1.second.offerHistory| == 1;
    r := h.ProposeUpdate(batman, NewOffer("Batmobile", 550, 5));
    ProposeUpdateEffect(s1, batman, NewOffer("Batmobile", 550, 5));
    ghost var s2 := h.Model();
    assert s2.first.state == Some(AwaitingTheirAcceptance) && |s2.first.offerHistory| == 2;
    assert s2.second.state == Some(AwaitingMyAcceptance) && |s2.second.offerHistory| == 2;
    r := h.Accept(superman);
    AcceptEffect(s2, superman);
    batmanV1 := h.ReturnVersion(batman, 1);
    batmanV3 := h.ReturnVersion(batman, 3);
    supermanV1 := h.ReturnVersion(superman, 1);
    supermanV3 := h.ReturnVersion(superman, 3);
    diffs := h.VersionDifferences(superman, 1, 3);
    CounterOfferDiff(supermanV1.value, supermanV3.value);
  }

  /** Two offers that agree on everything but version, action, state and price
      differ in exactly those four fields. */
  lemma CounterOfferFields(a: Offer, b: Offer)
    requires a.version == Some(1) && b.version == Some(3)
    requires a.action == Some(Submit) && b.action == Some(Accept)
    requires a.state == Some(AwaitingTheirAcceptance) && b.state == Some(Accepted)
    requires a.price == 500 && b.price == 550
    requires a.userId == b.userId && a.userAction == b.userAction && SameParties(a, b)
    requires a.product == b.product && a.quantity == b.quantity && a.privateInfo == b.privateInfo
    ensures forall f :: FieldValue(a, f) != FieldValue(b, f) <==>
      f == VersionField || f == ActionField || f == StateField || f == PriceField
  {
    forall f ensures FieldValue(a, f) != FieldValue(b, f) <==>
      f == VersionField || f == ActionField || f == StateField || f == PriceField
    {
      match f
      case VersionField => assert FieldValue(a, f) != FieldValue(b, f);
      case ActionField => assert FieldValue(a, f) != FieldValue(b, f);
      case StateField => assert FieldValue(a, f) != FieldValue(b, f);
      case PriceField => assert FieldValue(a, f) != FieldValue(b, f);
      case UserIdField => assert FieldValue(a, f) == FieldValue(b, f);
      case UserActionField => assert FieldValue(a, f) == FieldValue(b, f);
      case BuyerField => assert FieldValue(a, f) == FieldValue(b, f);
      case SellerField => assert FieldValue(a, f) == FieldValue(b, f);
      case ProductField => assert FieldValue(a, f) == FieldValue(b, f);
      case QuantityField => assert FieldValue(a, f) == FieldValue(b, f);
      case PrivateInfoField => assert FieldValue(a, f) == FieldValue(b, f);
    }
  }

  /** The diff of two such offers holds those four fields with their values. */
  lemma CounterOfferDiff(a: Offer, b: Offer)
    requires a.version == Some(1) && b.version == Some(3)
    requires a.action == Some(Submit) && b.action == Some(Accept)
    requires a.state == Some(AwaitingTheirAcceptance) && b.state == Some(Accepted)
    requires a.price == 500 && b.price == 550
    requires a.userId == b.userId && a.userAction == b.userAction && SameParties(a, b)
    requires a.product == b.product && a.quantity == b.quantity && a.privateInfo == b.privateInfo
    ensures Differences(a, b) == map[VersionField := (Number(1), Number(3)),
                                     ActionField := (ActionName(Submit), ActionName(Accept)),
                                     StateField := (StateName(AwaitingTheirAcceptance), StateName(Accepted)),
                                     PriceField := (Number(500), Number(550))]
  {
    var d := Differences(a, b);
    var e := map[VersionField := (Number(1), Number(3)),
                 ActionField := (ActionName(Submit), ActionName(Accept)),
                 StateField := (StateName(AwaitingTheirAcceptance), StateName(Accepted)),
                 PriceField := (Number(500), Number(550))];
    CounterOfferFields(a, b);
    assert d.Keys == e.Keys;
    forall f | f in d ensures d[f] == e[f] {
    }
    assert d == e;
  }

  /** The seller withdraws and re-proposes at 450, and the buyer accepts: four
      versions each, version 1 at 500 and version 4 at 450 on both sides. */
  method WithdrawThenRepropose(batman: string, superman: string) returns (batmanV1: Option<Offer>, batmanV4: Option<Offer>,
                                          supermanV1: Option<Offer>, supermanV4: Option<Offer>)
    requires batman != superman
    ensures batmanV1.Some? && batmanV1.value.state == Some(AwaitingMyAcceptance) && batmanV1.value.price == 500
    ensures supermanV1.Some? && supermanV1.value.state == Some(AwaitingTheirAcceptance) && supermanV1.value.price == 500
    ensures batmanV4.Some? && batmanV4.value.price == 450 && batmanV4.value.quantity == 5
    ensures supermanV4.Some? && supermanV4.value.price == 450 && supermanV4.value.quantity == 5
  {
    var h := Opening(batman, superman);
    ghost var s1 := h.Model();
    var r := h.Withdraw(superman);
    ghost var s2 := h.Model();
    r := h.ProposeUpdate(superman, NewOffer("Batmobile", 450, 5));
    ghost var s3 := h.Model();
    r := h.Accept(batman);
    WithdrawThenReproposeTrace(batman, superman, s1, s2, s3, h.Model());
    batmanV1 := h.ReturnVersion(batman, 1);
    batmanV4 := h.ReturnVersion(batman, 4);
    supermanV1 := h.ReturnVersion(superman, 1);
    supermanV4 := h.ReturnVersion(superman, 4);
  }

  /** A negotiation in which `superman` has just offered the Batmobile to
      `batman` at 500 for 5. */
  method Opening(batman: string, superman: string) returns (h: Haggler)
    requires batman != superman
    ensures fresh(h) && fresh(h.first) && fresh(h.second)
    ensures h.Valid() && OpeningKept(h.Model(), batman, superman)
    ensures |h.Model().first.offerHistory| == 1 && |h.Model().second.offerHistory| == 1
    ensures h.Model().first.state == Some(AwaitingMyAcceptance) && h.Model().second.state == Some(AwaitingTheirAcceptance)
    ensures !h.Model().first.end && !h.Model().second.end
    ensures h.Model().first.privateInfo == map[] && h.Model().second.privateInfo == map[]
  {
    h := new Haggler(batman, superman);
    ghost var s0 := h.Model();
    var r := h.Submit(superman, batman, NewOffer("Batmobile", 500, 5));
    OpeningOffer(batman, superman, s0, h.Model());
  }

  /** The histories' first entries after `superman`'s opening offer of 500 for 5. */
  predicate OpeningKept(s: Session, batman: string, superman: string)
  {
    && s.first.userId == batman && s.second.userId == superman
    && |s.first.offerHistory| >= 1 && |s.second.offerHistory| >= 1
    && s.first.offerHistory[0].state == Some(AwaitingMyAcceptance) && s.first.offerHistory[0].price == 500
    && s.second.offerHistory[0].state == Some(AwaitingTheirAcceptance) && s.second.offerHistory[0].price == 500
    && s.first.offerHistory[0].quantity == 5 && s.second.offerHistory[0].quantity == 5
  }

  lemma OpeningOffer(batman: string, superman: string, s0: Session, s1: Session)
    requires batman != superman
    requires s0 == Start(batman, superman)
    requires s1 == SubmitStep(s0, superman, batman, NewOffer("Batmobile", 500, 5)).1
    ensures Inv(s1) && OpeningKept(s1, batman, superman)
    ensures |s1.first.offerHistory| == 1 && |s1.second.offerHistory| == 1
    ensures s1.first.state == Some(AwaitingMyAcceptance) && s1.second.state == Some(AwaitingTheirAcceptance)
    ensures !s1.first.end && !s1.second.end
    ensures s1.first.privateInfo == map[] && s1.second.privateInfo == map[]
  {
    StartInv(batman, superman);
    SubmitEffect(s0, superman, batman, NewOffer("Batmobile", 500, 5));
    SubmitKeepsInv(s0, superman, batman, NewOffer("Batmobile", 500, 5));
  }

  lemma WithdrawThenReproposeTrace(batman: string, superman: string, s1: Session, s2: Session, s3: Session, s4: Session)
    requires Inv(s1) && OpeningKept(s1, batman, superman)
    requires |s1.first.offerHistory| == 1 && |s1.second.offerHistory| == 1
    requires s1.first.state == Some(AwaitingMyAcceptance) && s1.second.state == Some(AwaitingTheirAcceptance)
    requires !s1.first.end && !s1.second.end
    requires s2 == WithdrawStep(s1, superman).1
    requires s3 == ProposeUpdateStep(s2, superman, NewOffer("Batmobile", 450, 5)).1
    requires s4 == AcceptStep(s3, batman).1
    ensures OpeningKept(s4, batman, superman)
    ensures |s4.first.offerHistory| == 4 && |s4.second.offerHistory| == 4
    ensures s4.first.offerHistory[3].price == 450 && s4.first.offerHistory[3].quantity == 5
    ensures s4.second.offerHistory[3].price == 450 && s4.second.offerHistory[3].quantity == 5
  {
    WithdrawEffect(s1, superman);
    WithdrawKeepsInv(s1, superman);
    assert s2.first.offerHistory[..1] == s1.first.offerHistory;
    assert s2.second.offerHistory[..1] == s1.second.offerHistory;
    assert OpeningKept(s2, batman, superman);
    ProposeUpdateEffect(s2, superman, NewOffer("Batmobile", 450, 5));
    ProposeUpdateKeepsInv(s2, superman, NewOffer("Batmobile", 450, 5));
    assert s3.first.offerHistory[..2] == s2.first.offerHistory;
    assert s3.second.offerHistory[..2] == s2.second.offerHistory;
    assert OpeningKept(s3, batman, superman);
    AcceptEffect(s3, batman);
    assert s4.first.offerHistory[..3] == s3.first.offerHistory;
    assert s4.second.offerHistory[..3] == s3.second.offerHistory;
  }

  /** The seller may not counter its own standing offer: the proposal is
      refused and neither history gains a version. */
  method ProposeWhileAwaitingTheirs(batman: string, superman: string) returns (r: Outcome, batmanV2: Option<Offer>, supermanV2: Option<Offer>)
    requires batman != superman
    ensures r == Err(InvalidState)
    ensures batmanV2 == None && supermanV2 == None
  {
    var h := Opening(batman, superman);
    r := h.ProposeUpdate(superman, NewOffer("Batmobile", 450, 5));
    batmanV2 := h.ReturnVersion(batman, 2);
    supermanV2 := h.ReturnVersion(superman, 2);
  }

  /** The seller annotates privately, then the buyer accepts: the seller's
      third version carries the annotation, the buyer's second carries none,
      and the buyer has no third version. */
  method PrivateAnnotation(batman: string, superman: string) returns (supermanV3: Option<Offer>, batmanV2: Option<Offer>, batmanV3: Option<Offer>)
    requires batman != superman
    ensures supermanV3.Some? && supermanV3.value.privateInfo == Some(map["reference" := "order123"])
    ensures batmanV2.Some? && batmanV2.value.privateInfo == Some(map[])
    ensures batmanV3 == None
  {
    var h := Opening(batman, superman);
    ghost var s1 := h.Model();
    var r := h.UpdatePrivateData(superman, map["reference" := "order123"]);
    UpdatePrivateDataEffect(s1, superman, map["reference" := "order123"]);
    ghost var s2 := h.Model();
    assert Merged(map[], map["reference" := "order123"]) == map["reference" := "order123"];
    assert s2.second.privateInfo == map["reference" := "order123"] && |s2.second.offerHistory| == 2;
    assert s2.first == s1.first;
    r := h.Accept(batman);
    AcceptEffect(s2, batman);
    supermanV3 := h.ReturnVersion(superman, 3);
    batmanV2 := h.ReturnVersion(batman, 2);
    batmanV3 := h.ReturnVersion(batman, 3);
  }

  /** Two annotations with different keys: the later snapshot holds both, the
      earlier one only the first, so the two recorded copies differ. */
  method TwoAnnotations(batman: string, superman: string) returns (supermanV2: Option<Offer>, supermanV3: Option<Offer>)
    requires batman != superman
    ensures supermanV2.Some? && supermanV2.value.privateInfo == Some(map["reference" := "order123"])
    ensures supermanV3.Some? && supermanV3.value.privateInfo == Some(map["reference" := "order123", "reference2" := "deux"])
    ensures supermanV2.value.privateInfo != supermanV3.value.privateInfo
  {
    var h := Opening(batman, superman);
    ghost var s1 := h.Model();
    var r := h.UpdatePrivateData(superman, map["reference" := "order123"]);
    ghost var s2 := h.Model();
    r := h.UpdatePrivateData(superman, map["reference2" := "deux"]);
    ghost var s3 := h.Model();
    r := h.Accept(batman);
    TwoAnnotationsTrace(batman, superman, s1, s2, s3, h.Model());
    supermanV2 := h.ReturnVersion(superman, 2);
    supermanV3 := h.ReturnVersion(superman, 3);
  }

  lemma TwoAnnotationsTrace(batman: string, superman: string, s1: Session, s2: Session, s3: Session, s4: Session)
    requires Inv(s1) && OpeningKept(s1, batman, superman)
    requires |s1.first.offerHistory| == 1 && |s1.second.offerHistory| == 1
    requires s1.first.state == Some(AwaitingMyAcceptance) && s1.second.state == Some(AwaitingTheirAcceptance)
    requires s1.second.privateInfo == map[]
    requires s2 == UpdatePrivateDataStep(s1, superman, map["reference" := "order123"]).1
    requires s3 == UpdatePrivateDataStep(s2, superman, map["reference2" := "deux"]).1
    requires s4 == AcceptStep(s3, batman).1
    ensures s4.second.userId == superman && |s4.second.offerHistory| >= 3
    ensures s4.second.offerHistory[1].privateInfo == Some(map["reference" := "order123"])
    ensures s4.second.offerHistory[2].privateInfo == Some(map["reference" := "order123", "reference2" := "deux"])
    ensures s4.second.offerHistory[1].privateInfo != s4.second.offerHistory[2].privateInfo
  {
    AnnotationsTrace(batman, superman, s1, s2, s3);
    AcceptGrows(s3, batman);
    assert s4.second.offerHistory[1] == s3.second.offerHistory[1];
    assert s4.second.offerHistory[2] == s3.second.offerHistory[2];
  }

  /** The seller's two annotations: its second and third versions carry the
      data as it stood after each, and the two differ. */
  lemma AnnotationsTrace(batman: string, superman: string, s1: Session, s2: Session, s3: Session)
    requires Inv(s1) && OpeningKept(s1, batman, superman)
    requires |s1.first.offerHistory| == 1 && |s1.second.offerHistory| == 1
    requires s1.first.state == Some(AwaitingMyAcceptance) && s1.second.state == Some(AwaitingTheirAcceptance)
    requires s1.second.privateInfo == map[]
    requires s2 == UpdatePrivateDataStep(s1, superman, map["reference" := "order123"]).1
    requires s3 == UpdatePrivateDataStep(s2, superman, map["reference2" := "deux"]).1
    ensures Inv(s3) && s3.second.userId == superman && |s3.second.offerHistory| == 3
    ensures s3.second.offerHistory[1].privateInfo == Some(map["reference" := "order123"])
    ensures s3.second.offerHistory[2].privateInfo == Some(map["reference" := "order123", "reference2" := "deux"])
    ensures s3.second.offerHistory[1].privateInfo != s3.second.offerHistory[2].privateInfo
  {
    UpdatePrivateDataEffect(s1, superman, map["reference" := "order123"]);
    UpdatePrivateDataKeepsInv(s1, superman, map["reference" := "order123"]);
    assert Merged(map[], map["reference" := "order123"]) == map["reference" := "order123"];
    var m2 := s2.second.offerHistory[1];
    assert m2.privateInfo == Some(map["reference" := "order123"]);
    UpdatePrivateDataEffect(s2, superman, map["reference2" := "deux"]);
    UpdatePrivateDataKeepsInv(s2, superman, map["reference2" := "deux"]);
    assert Merged(map["reference" := "order123"], map["reference2" := "deux"])
        == map["reference" := "order123", "reference2" := "deux"];
    assert s3.second.offerHistory[..2] == s2.second.offerHistory;
    var m3 := s3.second.offerHistory[2];
    assert m3.privateInfo == Some(map["reference" := "order123", "reference2" := "deux"]);
    assert "reference2" in m3.privateInfo.value && "reference2" !in m2.privateInfo.value;
  }
}
