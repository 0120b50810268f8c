/** Guarantees: what each action of the protocol does to the two ledgers, stated
    outright, and the facts that hold over any sequence of actions: the
    session invariant is kept, and histories only ever grow at their end. */
module Guarantees {
  import opened Offers
  import opened Users
  import opened Protocol

  /** Both parties keep their ids and private data; the actor `uid` is now in
      state `mine` and the counterparty in `theirs`; and each has appended
      exactly one copy of `o`, stamped with its own id, version, new state and
      private data. */
  predicate BothRecorded(s: Session, s': Session, uid: string, mine: State, theirs: State, o: Offer)
  {
    var a, b := s.Get(uid), s.Counterparty(uid);
    var a', b' := s'.Get(uid), s'.Counterparty(uid);
    && s'.first.userId == s.first.userId && s'.second.userId == s.second.userId
    && a'.state == Some(mine) && b'.state == Some(theirs)
    && a'.privateInfo == a.privateInfo && b'.privateInfo == b.privateInfo
    && AppendedOne(a, a', o) && AppendedOne(b, b', o)
  }

  /** Roles and counterparty links of both parties are as they were. */
  predicate LinksKept(s: Session, s': Session)
  {
    && s'.first.role == s.first.role && s'.second.role == s.second.role
    && s'.first.other == s.first.other && s'.second.other == s.second.other
  }

  /** The `end` flags are as they were (`ends` false) or both set (`ends` true). */
  predicate EndsAs(s: Session, s': Session, ends: bool)
  {
    if ends then s'.first.end && s'.second.end
    else s'.first.end == s.first.end && s'.second.end == s.second.end
  }

  /** After an exchange the actor's and the counterparty's ledgers are their
      old ones with new state and end, each having recorded `o`. */
  lemma {:induction false} ExchangeShape(s: Session, uid: string, mine: State, theirs: State, ends: bool, o: Offer)
    requires s.first.userId != s.second.userId && s.Has(uid)
    requires s.Get(uid).other == Some(s.Counterparty(uid).userId)
    ensures var a, b := s.Get(uid), s.Counterparty(uid);
      var s' := Exchange(s, a, s.Get(a.other.value), mine, theirs, ends, o);
      && s'.first.userId == s.first.userId && s'.second.userId == s.second.userId
      && s'.Get(uid) == Recorded(a.(state := Some(mine), end := a.end || ends), o)
      && s'.Counterparty(uid) == Recorded(b.(state := Some(theirs), end := b.end || ends), o)
  {
  }

  lemma {:induction false} ExchangeEffect(s: Session, uid: string, mine: State, theirs: State, ends: bool, o: Offer)
    requires s.first.userId != s.second.userId && s.Has(uid)
    requires s.first.currVersion == |s.first.offerHistory| + 1
    requires s.second.currVersion == |s.second.offerHistory| + 1
    requires s.Get(uid).other == Some(s.Counterparty(uid).userId)
    ensures BothRecorded(s, Exchange(s, s.Get(uid), s.Get(s.Get(uid).other.value), mine, theirs, ends, o), uid, mine, theirs, o)
    ensures LinksKept(s, Exchange(s, s.Get(uid), s.Get(s.Get(uid).other.value), mine, theirs, ends, o))
    ensures EndsAs(s, Exchange(s, s.Get(uid), s.Get(s.Get(uid).other.value), mine, theirs, ends, o), ends)
  {
    var a, b := s.Get(uid), s.Counterparty(uid);
    var s' := Exchange(s, a, s.Get(a.other.value), mine, theirs, ends, o);
    ExchangeShape(s, uid, mine, theirs, ends, o);
    var a', b' := s'.Get(uid), s'.Counterparty(uid);
    RecordedAppendsOne(a.(state := Some(mine), end := a.end || ends), o);
    RecordedAppendsOne(b.(state := Some(theirs), end := b.end || ends), o);
    assert AppendedOne(a, a', o);
    assert AppendedOne(b, b', o);
    assert BothRecorded(s, s', uid, mine, theirs, o);
    if uid == s.first.userId {
      assert s'.first == a' && s'.second == b';
    } else {
      assert s'.first == b' && s'.second == a';
    }
  }

  /** After a submit between two different parties, the actor's ledger has
      become the seller's and the other's the buyer's, and each has recorded
      the marked-up offer. */
  lemma {:induction false} SubmitShape(s: Session, uid: string, oid: string, offer: Offer)
    requires s.first.userId != s.second.userId
    requires s.Has(uid) && s.Has(oid) && uid != oid && !s.Get(uid).end
    ensures var s' := SubmitStep(s, uid, oid, offer).1;
      var o := offer.(action := Some(Submit), userAction := Some(uid), seller := Some(uid), buyer := Some(oid));
      && SubmitStep(s, uid, oid, offer).0 == Ok
      && s'.first.userId == s.first.userId && s'.second.userId == s.second.userId
      && s.Counterparty(uid) == s.Get(oid)
      && s'.Get(uid) == Recorded(s.Get(uid).(other := Some(oid), role := Some(Seller), state := Some(AwaitingTheirAcceptance)), o)
      && s'.Counterparty(uid) == Recorded(s.Get(oid).(other := Some(uid), role := Some(Buyer), state := Some(AwaitingMyAcceptance)), o)
  {
    var o := offer.(action := Some(Submit), userAction := Some(uid), seller := Some(uid), buyer := Some(oid));
    var a := s.Get(uid).(other := Some(oid), role := Some(Seller), state := Some(AwaitingTheirAcceptance));
    var b := s.Get(oid).(other := Some(uid), role := Some(Buyer), state := Some(AwaitingMyAcceptance));
    if uid == s.first.userId {
      assert SubmitStep(s, uid, oid, offer).1 == Session(Recorded(a, o), Recorded(b, o));
    } else {
      assert SubmitStep(s, uid, oid, offer).1 == Session(Recorded(b, o), Recorded(a, o));
    }
  }

  /** Submit succeeds exactly when both ids are parties, they differ and the
      actor has not ended. Then the actor is the seller awaiting the other's
      acceptance, the other is the buyer awaiting its own, each points at the
      other, and each records the offer's terms as a Submit by the actor with
      the actor as seller and the other as buyer. */
  lemma {:induction false} SubmitEffect(s: Session, uid: string, oid: string, offer: Offer)
    requires Inv(s)
    ensures SubmitStep(s, uid, oid, offer).0 == Ok <==>
              s.Has(uid) && s.Has(oid) && uid != oid && !s.Get(uid).end
    ensures SubmitStep(s, uid, oid, offer).0 == Ok ==>
      var s' := SubmitStep(s, uid, oid, offer).1;
      var o := offer.(action := Some(Submit), userAction := Some(uid), seller := Some(uid), buyer := Some(oid));
      && BothRecorded(s, s', uid, AwaitingTheirAcceptance, AwaitingMyAcceptance, o)
      && s'.Get(uid).role == Some(Seller) && s'.Get(oid).role == Some(Buyer)
      && s'.Get(uid).other == Some(oid) && s'.Get(oid).other == Some(uid)
      && EndsAs(s, s', false)
  {
    if s.Has(uid) && s.Has(oid) && uid != oid && !s.Get(uid).end {
      var s' := SubmitStep(s, uid, oid, offer).1;
      SubmitShape(s, uid, oid, offer);
      SubmitRecorded(s, uid, oid, offer);
      StatesComplementary(s);
      assert s'.Get(oid) == s'.Counterparty(uid);
      assert EndsAs(s, s', false) by {
        if uid == s.first.userId {
          assert s'.first == s'.Get(uid) && s'.second == s'.Counterparty(uid);
        } else {
          assert s'.first == s'.Counterparty(uid) && s'.second == s'.Get(uid);
        }
      }
    }
  }

  lemma {:induction false} SubmitRecorded(s: Session, uid: string, oid: string, offer: Offer)
    requires s.first.userId != s.second.userId
    requires s.first.currVersion == |s.first.offerHistory| + 1
    requires s.second.currVersion == |s.second.offerHistory| + 1
    requires s.Has(uid) && s.Has(oid) && uid != oid && !s.Get(uid).end
    ensures var o := offer.(action := Some(Submit), userAction := Some(uid), seller := Some(uid), buyer := Some(oid));
      BothRecorded(s, SubmitStep(s, uid, oid, offer).1, uid, AwaitingTheirAcceptance, AwaitingMyAcceptance, o)
  {
    var o := offer.(action := Some(Submit), userAction := Some(uid), seller := Some(uid), buyer := Some(oid));
    var a := s.Get(uid).(other := Some(oid), role := Some(Seller), state := Some(AwaitingTheirAcceptance));
    var b := s.Get(oid).(other := Some(uid), role := Some(Buyer), state := Some(AwaitingMyAcceptance));
    SubmitShape(s, uid, oid, offer);
    assert s.Get(uid).currVersion == |s.Get(uid).offerHistory| + 1;
    assert s.Get(oid).currVersion == |s.Get(oid).offerHistory| + 1;
    RecordedAppendsOne(a, o);
    RecordedAppendsOne(b, o);
  }

  /** Accept succeeds exactly when the actor is a party that has not ended and
      awaits its own acceptance. Then both parties are Accepted and ended, and
      each records an Accept by the actor of the actor's current offer. */
  lemma {:induction false} AcceptEffect(s: Session, uid: string)
    requires Inv(s)
    ensures AcceptStep(s, uid).0 == Ok <==>
              s.Has(uid) && !s.Get(uid).end && s.Get(uid).state == Some(AwaitingMyAcceptance)
    ensures AcceptStep(s, uid).0 == Ok ==>
      var s' := AcceptStep(s, uid).1;
      && BothRecorded(s, s', uid, Accepted, Accepted, Acted(s.Get(uid).currentOffer.value, Accept, uid))
      && LinksKept(s, s') && EndsAs(s, s', true)
  {
    if s.Has(uid) && !s.Get(uid).end && s.Get(uid).state == Some(AwaitingMyAcceptance) {
      ExchangeEffect(s, uid, Accepted, Accepted, true, Acted(s.Get(uid).currentOffer.value, Accept, uid));
    }
  }

  /** Cancel succeeds exactly when the actor is a party that has submitted or
      received an offer and has not ended, whatever its state. Then both
      parties are Cancelled and ended, and each records a Cancel by the actor
      of the actor's current offer. */
  lemma {:induction false} CancelEffect(s: Session, uid: string)
    requires Inv(s)
    ensures CancelStep(s, uid).0 == Ok <==>
              s.Has(uid) && !s.Get(uid).end && s.Get(uid).state.Some?
    ensures CancelStep(s, uid).0 == Ok ==>
      var s' := CancelStep(s, uid).1;
      && BothRecorded(s, s', uid, Cancelled, Cancelled, Acted(s.Get(uid).currentOffer.value, Cancel, uid))
      && LinksKept(s, s') && EndsAs(s, s', true)
  {
    if s.Has(uid) && !s.Get(uid).end && s.Get(uid).state.Some? {
      ExchangeEffect(s, uid, Cancelled, Cancelled, true, Acted(s.Get(uid).currentOffer.value, Cancel, uid));
    }
  }

  /** Withdraw succeeds exactly when the actor is a party that has not ended and
      awaits the other's acceptance. Then the actor is WithdrawnByMe, the other
      WithdrawnByThem, neither ends, and each records a Withdraw by the actor of
      the actor's current offer. */
  lemma {:induction false} WithdrawEffect(s: Session, uid: string)
    requires Inv(s)
    ensures WithdrawStep(s, uid).0 == Ok <==>
              s.Has(uid) && !s.Get(uid).end && s.Get(uid).state == Some(AwaitingTheirAcceptance)
    ensures WithdrawStep(s, uid).0 == Ok ==>
      var s' := WithdrawStep(s, uid).1;
      && BothRecorded(s, s', uid, WithdrawnByMe, WithdrawnByThem, Acted(s.Get(uid).currentOffer.value, Withdraw, uid))
      && LinksKept(s, s') && EndsAs(s, s', false)
  {
    if s.Has(uid) && !s.Get(uid).end && s.Get(uid).state == Some(AwaitingTheirAcceptance) {
      ExchangeEffect(s, uid, WithdrawnByMe, WithdrawnByThem, false, Acted(s.Get(uid).currentOffer.value, Withdraw, uid));
    }
  }

  /** A counter-proposal succeeds exactly when the actor is a party that has not
      ended and has either withdrawn or is awaiting its own acceptance. Then
      the actor awaits the other's acceptance and the other its own, and each
      records the new terms as a ProposeUpdate by the actor, with buyer and
      seller carried over from the actor's current offer. */
  lemma {:induction false} ProposeUpdateEffect(s: Session, uid: string, offer: Offer)
    requires Inv(s)
    ensures ProposeUpdateStep(s, uid, offer).0 == Ok <==>
              && s.Has(uid) && !s.Get(uid).end
              && (s.Get(uid).state == Some(WithdrawnByMe) || s.Get(uid).state == Some(AwaitingMyAcceptance))
    ensures ProposeUpdateStep(s, uid, offer).0 == Ok ==>
      var s' := ProposeUpdateStep(s, uid, offer).1;
      var cur := s.Get(uid).currentOffer.value;
      var o := Acted(offer, ProposeUpdate, uid).(seller := cur.seller, buyer := cur.buyer);
      && BothRecorded(s, s', uid, AwaitingTheirAcceptance, AwaitingMyAcceptance, o)
      && LinksKept(s, s') && EndsAs(s, s', false)
  {
    var a := s.Get(uid);
    if s.Has(uid) && !a.end && (a.state == Some(WithdrawnByMe) || a.state == Some(AwaitingMyAcceptance)) {
      var cur := a.currentOffer.value;
      var o := Acted(offer, ProposeUpdate, uid).(seller := cur.seller, buyer := cur.buyer);
      ExchangeEffect(s, uid, AwaitingTheirAcceptance, AwaitingMyAcceptance, false, o);
    }
  }

  /** A private-data update succeeds exactly when the actor is a party and an
      offer exists, in any state, ended or not. Then the actor's private data
      is the old data merged with `update`, the actor records one
      UpdatePrivateData entry carrying its current offer's terms and its new
      private data, and the counterparty is untouched. */
  lemma {:induction false} UpdatePrivateDataEffect(s: Session, uid: string, update: Info)
    requires Inv(s)
    ensures UpdatePrivateDataStep(s, uid, update).0 == Ok <==> s.Has(uid) && s.Get(uid).state.Some?
    ensures UpdatePrivateDataStep(s, uid, update).0 == Ok ==>
      var s' := UpdatePrivateDataStep(s, uid, update).1;
      var a, a' := s.Get(uid), s'.Get(uid);
      && s'.first.userId == s.first.userId && s'.second.userId == s.second.userId
      && a'.privateInfo == Merged(a.privateInfo, update)
      && AppendedOne(a, a', Acted(a.currentOffer.value, UpdatePrivateData, uid))
      && a'.state == a.state && a'.end == a.end && a'.role == a.role && a'.other == a.other
      && s'.Counterparty(uid) == s.Counterparty(uid)
  {
    var a := s.Get(uid);
    if s.Has(uid) && a.state.Some? {
      RecordedAppendsOne(a.(privateInfo := Merged(a.privateInfo, update)),
                         Acted(a.currentOffer.value, UpdatePrivateData, uid));
    }
  }

  // ---------------------------------------------------------------------
  // The invariant is kept
  // ---------------------------------------------------------------------

  /** The two ledgers a submit produces satisfy the invariant together. */
  lemma {:induction false} SubmittedPairLinked(a: Ledger, b: Ledger, o: Offer)
    requires LedgerValid(a) && LedgerValid(b) && !a.end && !b.end && a.userId != b.userId
    requires o.seller == Some(a.userId) && o.buyer == Some(b.userId)
    ensures var a' := Recorded(a.(other := Some(b.userId), role := Some(Seller), state := Some(AwaitingTheirAcceptance)), o);
      var b' := Recorded(b.(other := Some(a.userId), role := Some(Buyer), state := Some(AwaitingMyAcceptance)), o);
      PartyInv(a') && PartyInv(b') && Linked(a', b') && Linked(b', a')
  {
    var a0 := a.(other := Some(b.userId), role := Some(Seller), state := Some(AwaitingTheirAcceptance));
    var b0 := b.(other := Some(a.userId), role := Some(Buyer), state := Some(AwaitingMyAcceptance));
    RecordedValid(a0, o);
    RecordedValid(b0, o);
  }

  lemma {:induction false} SubmitKeepsInv(s: Session, uid: string, oid: string, offer: Offer)
    requires Inv(s)
    ensures Inv(SubmitStep(s, uid, oid, offer).1)
  {
    if s.Has(uid) && s.Has(oid) && uid != oid && !s.Get(uid).end {
      var s' := SubmitStep(s, uid, oid, offer).1;
      var o := offer.(action := Some(Submit), userAction := Some(uid), seller := Some(uid), buyer := Some(oid));
      var a, b := s.Get(uid), s.Get(oid);
      StatesComplementary(s);
      SubmitShape(s, uid, oid, offer);
      SubmittedPairLinked(a, b, o);
      if uid == s.first.userId {
        assert s' == Session(s'.Get(uid), s'.Counterparty(uid));
      } else {
        assert s' == Session(s'.Counterparty(uid), s'.Get(uid));
      }
    }
  }

  /** Two distinct parties that each keep their own bookkeeping, both have a
      state, and are linked to each other form a valid session, in either
      order. */
  lemma {:induction false} PairInv(x: Ledger, y: Ledger)
    requires x.userId != y.userId && x.state.Some? && y.state.Some?
    requires PartyInv(x) && PartyInv(y) && Linked(x, y) && Linked(y, x)
    ensures Inv(Session(x, y)) && Inv(Session(y, x))
  {
  }

  /** The two ledgers a two-party action produces satisfy the invariant
      together, provided the new states mirror each other and a terminal state
      comes with `end`. */
  lemma {:induction false} ExchangedPairLinked(a: Ledger, b: Ledger, mine: State, theirs: State, ends: bool, o: Offer)
    requires PartyInv(a) && PartyInv(b) && a.state.Some? && !a.end && !b.end
    requires Linked(a, b) && Linked(b, a)
    requires theirs == Mirror(mine) && ends == Terminal(mine)
    requires SameParties(o, a.currentOffer.value)
    ensures var a' := Recorded(a.(state := Some(mine), end := a.end || ends), o);
      var b' := Recorded(b.(state := Some(theirs), end := b.end || ends), o);
      PartyInv(a') && PartyInv(b') && Linked(a', b') && Linked(b', a')
  {
    MirrorInvolutive(mine);
    RecordedValid(a.(state := Some(mine), end := a.end || ends), o);
    RecordedValid(b.(state := Some(theirs), end := b.end || ends), o);
  }

  /** Under the invariant, the actor and its counterparty are two distinct,
      linked parties, each keeping its own bookkeeping. */
  lemma {:induction false} PartiesOf(s: Session, uid: string)
    requires Inv(s) && s.Has(uid) && s.Get(uid).state.Some?
    ensures var a, b := s.Get(uid), s.Counterparty(uid);
      && a.userId != b.userId && a.state.Some? && b.state.Some?
      && PartyInv(a) && PartyInv(b) && a.end == b.end
      && Linked(a, b) && Linked(b, a)
      && a.other == Some(b.userId)
  {
  }

  /** Under the invariant, an actor that has a state points at its counterparty. */
  lemma {:induction false} CounterpartyLinked(s: Session, uid: string)
    requires Inv(s) && s.Has(uid) && s.Get(uid).state.Some?
    ensures s.first.userId != s.second.userId
    ensures s.Get(uid).other == Some(s.Counterparty(uid).userId)
  {
  }

  /** The session after an exchange, as the pair of the two recorded ledgers
      in the order the parties had before. */
  lemma {:induction false} ExchangeSession(s: Session, uid: string, mine: State, theirs: State, ends: bool, o: Offer)
    requires s.first.userId != s.second.userId && s.Has(uid)
    requires s.Get(uid).other == Some(s.Counterparty(uid).userId)
    ensures var a, b := s.Get(uid), s.Counterparty(uid);
      var a' := Recorded(a.(state := Some(mine), end := a.end || ends), o);
      var b' := Recorded(b.(state := Some(theirs), end := b.end || ends), o);
      var s' := Exchange(s, a, s.Get(a.other.value), mine, theirs, ends, o);
      s' == Session(a', b') || s' == Session(b', a')
  {
    ExchangeShape(s, uid, mine, theirs, ends, o);
    var s' := Exchange(s, s.Get(uid), s.Get(s.Get(uid).other.value), mine, theirs, ends, o);
    if uid == s.first.userId {
      assert s' == Session(s'.Get(uid), s'.Counterparty(uid));
    } else {
      assert s' == Session(s'.Counterparty(uid), s'.Get(uid));
    }
  }

  lemma {:induction false} TwoPartyKeepsInv(s: Session, uid: string, mine: State, theirs: State, ends: bool, o: Offer)
    requires Inv(s) && s.Has(uid) && s.Get(uid).state.Some?
    requires theirs == Mirror(mine) && ends == Terminal(mine)
    requires !s.Get(uid).end
    requires SameParties(o, s.Get(uid).currentOffer.value)
    ensures Inv(Exchange(s, s.Get(uid), s.Get(s.Get(uid).other.value), mine, theirs, ends, o))
  {
    var a, b := s.Get(uid), s.Counterparty(uid);
    PartiesOf(s, uid);
    ExchangedPairLinked(a, b, mine, theirs, ends, o);
    ExchangeSession(s, uid, mine, theirs, ends, o);
    PairInv(Recorded(a.(state := Some(mine), end := a.end || ends), o),
            Recorded(b.(state := Some(theirs), end := b.end || ends), o));
  }

  /** What a method carrying out a two-party action needs to know about the
      session before it: the counterparty is the other party, and the session
      after it is valid and holds the two recorded ledgers. */
  lemma {:induction false} ExchangeOk(s: Session, uid: string, mine: State, theirs: State, ends: bool, o: Offer)
    requires Inv(s) && s.Has(uid) && s.Get(uid).state.Some?
    requires theirs == Mirror(mine) && ends == Terminal(mine)
    requires !s.Get(uid).end
    requires SameParties(o, s.Get(uid).currentOffer.value)
    ensures s.first.userId != s.second.userId
    ensures s.Get(uid).other == Some(s.Counterparty(uid).userId)
    ensures var a, b := s.Get(uid), s.Counterparty(uid);
      var s' := Exchange(s, a, s.Get(a.other.value), mine, theirs, ends, o);
      && Inv(s')
      && s'.first.userId == s.first.userId && s'.second.userId == s.second.userId
      && s'.Get(uid) == Recorded(a.(state := Some(mine), end := a.end || ends), o)
      && s'.Counterparty(uid) == Recorded(b.(state := Some(theirs), end := b.end || ends), o)
  {
    CounterpartyLinked(s, uid);
    ExchangeShape(s, uid, mine, theirs, ends, o);
    TwoPartyKeepsInv(s, uid, mine, theirs, ends, o);
  }

  lemma {:induction false} AcceptKeepsInv(s: Session, uid: string)
    requires Inv(s)
    ensures Inv(AcceptStep(s, uid).1)
  {
    if AcceptStep(s, uid).0 == Ok {
      TwoPartyKeepsInv(s, uid, Accepted, Accepted, true, Acted(s.Get(uid).currentOffer.value, Accept, uid));
    }
  }

  lemma {:induction false} CancelKeepsInv(s: Session, uid: string)
    requires Inv(s)
    ensures Inv(CancelStep(s, uid).1)
  {
    if CancelStep(s, uid).0 == Ok {
      TwoPartyKeepsInv(s, uid, Cancelled, Cancelled, true, Acted(s.Get(uid).currentOffer.value, Cancel, uid));
    }
  }

  lemma {:induction false} WithdrawKeepsInv(s: Session, uid: string)
    requires Inv(s)
    ensures Inv(WithdrawStep(s, uid).1)
  {
    if WithdrawStep(s, uid).0 == Ok {
      TwoPartyKeepsInv(s, uid, WithdrawnByMe, WithdrawnByThem, false, Acted(s.Get(uid).currentOffer.value, Withdraw, uid));
    }
  }

  lemma {:induction false} ProposeUpdateKeepsInv(s: Session, uid: string, offer: Offer)
    requires Inv(s)
    ensures Inv(ProposeUpdateStep(s, uid, offer).1)
  {
    if ProposeUpdateStep(s, uid, offer).0 == Ok {
      var cur := s.Get(uid).currentOffer.value;
      var o := Acted(offer, ProposeUpdate, uid).(seller := cur.seller, buyer := cur.buyer);
      TwoPartyKeepsInv(s, uid, AwaitingTheirAcceptance, AwaitingMyAcceptance, false, o);
    }
  }

  lemma {:induction false} UpdatePrivateDataKeepsInv(s: Session, uid: string, update: Info)
    requires Inv(s)
    ensures Inv(UpdatePrivateDataStep(s, uid, update).1)
  {
    UpdatePrivateDataEffect(s, uid, update);
    var (r, s') := UpdatePrivateDataStep(s, uid, update);
    if r == Ok {
      var a := s.Get(uid);
      RecordedValid(a.(privateInfo := Merged(a.privateInfo, update)),
                         Acted(a.currentOffer.value, UpdatePrivateData, uid));
      var b := s.Counterparty(uid);
      assert Linked(a, b) && Linked(b, a);
      assert Linked(s'.Get(uid), b);
      assert Linked(b, s'.Get(uid));
    }
  }

  /** Every action, accepted or refused, keeps the session invariant. */
  lemma {:induction false} StepKeepsInv(s: Session, act: Act)
    requires Inv(s)
    ensures Inv(Step(s, act).1)
  {
    match act
    case SubmitAct(uid, oid, offer) => SubmitKeepsInv(s, uid, oid, offer);
    case AcceptAct(uid) => AcceptKeepsInv(s, uid);
    case CancelAct(uid) => CancelKeepsInv(s, uid);
    case WithdrawAct(uid) => WithdrawKeepsInv(s, uid);
    case ProposeUpdateAct(uid, offer) => ProposeUpdateKeepsInv(s, uid, offer);
    case UpdatePrivateDataAct(uid, update) => UpdatePrivateDataKeepsInv(s, uid, update);
  }

  /** Any sequence of actions from a valid session ends in a valid session. */
  lemma {:induction false} RunKeepsInv(s: Session, acts: seq<Act>)
    requires Inv(s)
    ensures Inv(Run(s, acts))
    decreases |acts|
  {
    if acts != [] {
      StepKeepsInv(s, acts[0]);
      RunKeepsInv(Step(s, acts[0]).1, acts[1..]);
    }
  }

  // ---------------------------------------------------------------------
  // Histories only grow
  // ---------------------------------------------------------------------

  /** `s'` has the same two parties as `s`, and each party's history in `s'`
      is its history in `s` with at most one entry appended. */
  predicate GrowsByAtMostOne(s: Session, s': Session)
  {
    && s'.first.userId == s.first.userId && s'.second.userId == s.second.userId
    && s.first.offerHistory <= s'.first.offerHistory
    && s.second.offerHistory <= s'.second.offerHistory
    && |s'.first.offerHistory| <= |s.first.offerHistory| + 1
    && |s'.second.offerHistory| <= |s.second.offerHistory| + 1
  }

  lemma {:induction false} RecordedGrows(l: Ledger, o: Offer)
    ensures l.offerHistory <= Recorded(l, o).offerHistory
    ensures |Recorded(l, o).offerHistory| == |l.offerHistory| + 1
  {
    assert Recorded(l, o).offerHistory[..|l.offerHistory|] == l.offerHistory;
  }

  lemma {:induction false} ExchangeGrows(s: Session, uid: string, mine: State, theirs: State, ends: bool, o: Offer)
    requires s.first.userId != s.second.userId && s.Has(uid)
    requires s.Get(uid).other == Some(s.Counterparty(uid).userId)
    ensures GrowsByAtMostOne(s, Exchange(s, s.Get(uid), s.Get(s.Get(uid).other.value), mine, theirs, ends, o))
  {
    var a, b := s.Get(uid), s.Counterparty(uid);
    ExchangeShape(s, uid, mine, theirs, ends, o);
    RecordedGrows(a.(state := Some(mine), end := a.end || ends), o);
    RecordedGrows(b.(state := Some(theirs), end := b.end || ends), o);
  }

  lemma {:induction false} SubmitGrows(s: Session, uid: string, oid: string, offer: Offer)
    requires Inv(s)
    ensures GrowsByAtMostOne(s, SubmitStep(s, uid, oid, offer).1)
  {
    if s.Has(uid) && s.Has(oid) && uid != oid && !s.Get(uid).end {
      var o := offer.(action := Some(Submit), userAction := Some(uid), seller := Some(uid), buyer := Some(oid));
      var a := s.Get(uid).(other := Some(oid), role := Some(Seller), state := Some(AwaitingTheirAcceptance));
      var b := s.Get(oid).(other := Some(uid), role := Some(Buyer), state := Some(AwaitingMyAcceptance));
      SubmitShape(s, uid, oid, offer);
      RecordedGrows(a, o);
      RecordedGrows(b, o);
    }
  }

  lemma {:induction false} UpdatePrivateDataGrows(s: Session, uid: string, update: Info)
    requires Inv(s)
    ensures GrowsByAtMostOne(s, UpdatePrivateDataStep(s, uid, update).1)
  {
    var a := s.Get(uid);
    if s.Has(uid) && a.currentOffer.Some? {
      RecordedGrows(a.(privateInfo := Merged(a.privateInfo, update)), Acted(a.currentOffer.value, UpdatePrivateData, uid));
    }
  }

  lemma {:induction false} AcceptGrows(s: Session, uid: string)
    requires Inv(s)
    ensures GrowsByAtMostOne(s, AcceptStep(s, uid).1)
  {
    if AcceptStep(s, uid).0 == Ok {
      ExchangeGrows(s, uid, Accepted, Accepted, true, Acted(s.Get(uid).currentOffer.value, Accept, uid));
    }
  }

  lemma {:induction false} CancelGrows(s: Session, uid: string)
    requires Inv(s)
    ensures GrowsByAtMostOne(s, CancelStep(s, uid).1)
  {
    if CancelStep(s, uid).0 == Ok {
      ExchangeGrows(s, uid, Cancelled, Cancelled, true, Acted(s.Get(uid).currentOffer.value, Cancel, uid));
    }
  }

  lemma {:induction false} WithdrawGrows(s: Session, uid: string)
    requires Inv(s)
    ensures GrowsByAtMostOne(s, WithdrawStep(s, uid).1)
  {
    if WithdrawStep(s, uid).0 == Ok {
      ExchangeGrows(s, uid, WithdrawnByMe, WithdrawnByThem, false, Acted(s.Get(uid).currentOffer.value, Withdraw, uid));
    }
  }

  lemma {:induction false} ProposeUpdateGrows(s: Session, uid: string, offer: Offer)
    requires Inv(s)
    ensures GrowsByAtMostOne(s, ProposeUpdateStep(s, uid, offer).1)
  {
    if ProposeUpdateStep(s, uid, offer).0 == Ok {
      var cur := s.Get(uid).currentOffer.value;
      var o := Acted(offer, ProposeUpdate, uid).(seller := cur.seller, buyer := cur.buyer);
      ExchangeGrows(s, uid, AwaitingTheirAcceptance, AwaitingMyAcceptance, false, o);
    }
  }

  /** One action keeps both parties' ids, keeps every recorded entry of either
      history as it was, and appends at most one entry to each. */
  lemma {:induction false} StepOnlyAppends(s: Session, act: Act)
    requires Inv(s)
    ensures GrowsByAtMostOne(s, Step(s, act).1)
  {
    match act
    case SubmitAct(uid, oid, offer) => SubmitGrows(s, uid, oid, offer);
    case AcceptAct(uid) => AcceptGrows(s, uid);
    case CancelAct(uid) => CancelGrows(s, uid);
    case WithdrawAct(uid) => WithdrawGrows(s, uid);
    case ProposeUpdateAct(uid, offer) => ProposeUpdateGrows(s, uid, offer);
    case UpdatePrivateDataAct(uid, update) => UpdatePrivateDataGrows(s, uid, update);
  }

  /** Over any sequence of actions each party's earlier history stays a prefix
      of its later one: no entry is ever changed or removed, so a later change
      to a party's private data never reaches a copy recorded before it. */
  lemma {:induction false} RunOnlyAppends(s: Session, acts: seq<Act>)
    requires Inv(s)
    ensures var s' := Run(s, acts);
      && s'.first.userId == s.first.userId && s'.second.userId == s.second.userId
      && s.first.offerHistory <= s'.first.offerHistory
      && s.second.offerHistory <= s'.second.offerHistory
      && |s'.first.offerHistory| <= |s.first.offerHistory| + |acts|
      && |s'.second.offerHistory| <= |s.second.offerHistory| + |acts|
    decreases |acts|
  {
    if acts != [] {
      StepOnlyAppends(s, acts[0]);
      StepKeepsInv(s, acts[0]);
      RunOnlyAppends(Step(s, acts[0]).1, acts[1..]);
    }
  }

  // ---------------------------------------------------------------------
  // A party submitting to itself
  // ---------------------------------------------------------------------

  /** As written, submit lets a party name itself as the other party. That
      party then points at itself, ends up as the buyer awaiting its own
      acceptance with two entries recorded, and the session invariant no
      longer holds; the party can then accept its own offer. The as-written
      model covers the submit and the outcome of that accept only: with the
      party its own counterparty, `Exchange` records the accept once, where
      the source records it twice on the one user. */
  lemma SelfSubmitAsWritten()
    ensures var s := Start("Batman", "Superman");
      var r := SubmitAsWritten(s, "Superman", "Superman", NewOffer("Batmobile", 500, 5));
      && Inv(s)
      && r.0 == Ok
      && r.1.first == s.first
      && r.1.second.other == Some("Superman")
      && r.1.second.role == Some(Buyer) && r.1.second.state == Some(AwaitingMyAcceptance)
      && |r.1.second.offerHistory| == 2
      && !Inv(r.1)
      && AcceptStep(r.1, "Superman").0 == Ok
  {
    var s := Start("Batman", "Superman");
    StartInv("Batman", "Superman");
    var r := SubmitAsWritten(s, "Superman", "Superman", NewOffer("Batmobile", 500, 5));
    assert r.1.second.state.Some? && r.1.second.other != Some(r.1.first.userId);
  }

  /** With the check in place the same call is refused, nothing changes, and
      the invariant is kept (by `SubmitKeepsInv`, for every submit). */
  lemma SelfSubmitRefused(s: Session, id: string, offer: Offer)
    requires Inv(s) && s.Has(id) && !s.Get(id).end
    ensures SubmitStep(s, id, id, offer) == (Err(SameUser), s)
    ensures SubmitAsWritten(s, id, id, offer).0 == Ok
  {
  }
}
