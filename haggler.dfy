/** Hagglers: the negotiation object. It owns the two users and carries out
    each action on them in place, one setter after another. Every action is
    proved to leave the users exactly as the matching step function of
    `Protocol` says, so the guarantees proved there hold of the object. */
module Hagglers {
  import opened Offers
  import opened Users
  import opened Protocol
  import opened Guarantees

  class Haggler {
    const first: User
    const second: User

    /** The two users' fields as a session value. */
    function Model(): Session
      reads first, second
    {
      Session(first.Snap(), second.Snap())
    }

    ghost predicate Valid()
      reads first, second
    {
      Inv(Model())
    }

    constructor (id1: string, id2: string)
      requires id1 != id2
      ensures Valid() && fresh(first) && fresh(second)
      ensures Model() == Start(id1, id2)
    {
      first := new User(id1);
      second := new User(id2);
      new;
      StartInv(id1, id2);
    }

    /** `Session.Has` on the users themselves (see `UsersAsSession`). */
    predicate Knows(id: string)
    {
      id == first.userId || id == second.userId
    }

    /** `Session.Get` on the users themselves (see `UsersAsSession`). */
    function UserOf(id: string): User
    {
      if id == first.userId then first else second
    }

    /** The users' lookups are the session's lookups on `Model()`. */
    lemma UsersAsSession(id: string)
      ensures Knows(id) <==> Model().Has(id)
      ensures UserOf(id).Snap() == Model().Get(id)
    {
    }

    /** The acting user `uid` offers `offer` to `oid` and becomes the seller. */
    method Submit(uid: string, oid: string, offer: Offer) returns (r: Outcome)
      requires Valid()
      modifies first, second
      ensures Valid()
      ensures (r, Model()) == SubmitStep(old(Model()), uid, oid, offer)
    {
      if !(Knows(uid) && Knows(oid)) {
        return Err(UnknownUser);
      }
      var seller, buyer := UserOf(uid), UserOf(oid);
      if seller.end {
        return Err(AlreadyEnded);
      }
      if uid == oid {
        return Err(SameUser);
      }
      ghost var s := Model();
      SubmitShape(s, uid, oid, offer);
      SubmitKeepsInv(s, uid, oid, offer);
      ghost var s' := SubmitStep(s, uid, oid, offer).1;
      seller.SetOther(oid);
      buyer.SetOther(uid);
      var o := offer.(action := Some(Action.Submit), userAction := Some(uid), seller := Some(uid), buyer := Some(oid));
      seller.SetRole(Seller);
      seller.SetState(AwaitingTheirAcceptance);
      buyer.SetRole(Buyer);
      buyer.SetState(AwaitingMyAcceptance);
      seller.AddOfferHistory(o);
      buyer.AddOfferHistory(o);
      Placed(s', uid, seller, buyer);
      r := Ok;
    }

    method Accept(uid: string) returns (r: Outcome)
      requires Valid()
      modifies first, second
      ensures Valid()
      ensures (r, Model()) == AcceptStep(old(Model()), uid)
    {
      if !Knows(uid) {
        return Err(UnknownUser);
      }
      var u1 := UserOf(uid);
      if u1.end {
        return Err(AlreadyEnded);
      }
      if u1.state != Some(AwaitingMyAcceptance) {
        return Err(InvalidState);
      }
      ghost var s := Model();
      var u2 := UserOf(u1.other.value);
      var offer := Acted(u1.currentOffer.value, Action.Accept, uid);
      ExchangeOk(s, uid, Accepted, Accepted, true, offer);
      ghost var s' := Exchange(s, s.Get(uid), s.Get(s.Get(uid).other.value), Accepted, Accepted, true, offer);
      u1.SetState(Accepted);
      u2.SetState(Accepted);
      u1.SetEnd();
      u2.SetEnd();
      u1.AddOfferHistory(offer);
      u2.AddOfferHistory(offer);
      Placed(s', uid, u1, u2);
      r := Ok;
    }

    method Cancel(uid: string) returns (r: Outcome)
      requires Valid()
      modifies first, second
      ensures Valid()
      ensures (r, Model()) == CancelStep(old(Model()), uid)
    {
      if !Knows(uid) {
        return Err(UnknownUser);
      }
      var u1 := UserOf(uid);
      if u1.end {
        return Err(AlreadyEnded);
      }
      if u1.currentOffer.None? {
        return Err(NotSubmitted);
      }
      ghost var s := Model();
      var u2 := UserOf(u1.other.value);
      var offer := Acted(u1.currentOffer.value, Action.Cancel, uid);
      ExchangeOk(s, uid, Cancelled, Cancelled, true, offer);
      ghost var s' := Exchange(s, s.Get(uid), s.Get(s.Get(uid).other.value), Cancelled, Cancelled, true, offer);
      u1.SetState(Cancelled);
      u2.SetState(Cancelled);
      u1.SetEnd();
      u2.SetEnd();
      u1.AddOfferHistory(offer);
      u2.AddOfferHistory(offer);
      Placed(s', uid, u1, u2);
      r := Ok;
    }

    method Withdraw(uid: string) returns (r: Outcome)
      requires Valid()
      modifies first, second
      ensures Valid()
      ensures (r, Model()) == WithdrawStep(old(Model()), uid)
    {
      if !Knows(uid) {
        return Err(UnknownUser);
      }
      var u1 := UserOf(uid);
      if u1.end {
        return Err(AlreadyEnded);
      }
      if u1.state != Some(AwaitingTheirAcceptance) {
        return Err(InvalidState);
      }
      ghost var s := Model();
      var u2 := UserOf(u1.other.value);
      var offer := Acted(u1.currentOffer.value, Action.Withdraw, uid);
      ExchangeOk(s, uid, WithdrawnByMe, WithdrawnByThem, false, offer);
      ghost var s' := Exchange(s, s.Get(uid), s.Get(s.Get(uid).other.value), WithdrawnByMe, WithdrawnByThem, false, offer);
      u1.SetState(WithdrawnByMe);
      u2.SetState(WithdrawnByThem);
      u1.AddOfferHistory(offer);
      u2.AddOfferHistory(offer);
      Placed(s', uid, u1, u2);
      r := Ok;
    }

    /** A counter-proposal with new terms; buyer and seller stay as they were. */
    method ProposeUpdate(uid: string, offer: Offer) returns (r: Outcome)
      requires Valid()
      modifies first, second
      ensures Valid()
      ensures (r, Model()) == ProposeUpdateStep(old(Model()), uid, offer)
    {
      if !Knows(uid) {
        return Err(UnknownUser);
      }
      var u1 := UserOf(uid);
      if u1.end {
        return Err(AlreadyEnded);
      }
      if !(u1.state == Some(WithdrawnByMe) || u1.state == Some(AwaitingMyAcceptance)) {
        return Err(InvalidState);
      }
      ghost var s := Model();
      var u2 := UserOf(u1.other.value);
      ghost var cur0 := u1.currentOffer.value;
      ghost var o0 := Acted(offer, Action.ProposeUpdate, uid).(seller := cur0.seller, buyer := cur0.buyer);
      ExchangeOk(s, uid, AwaitingTheirAcceptance, AwaitingMyAcceptance, false, o0);
      ghost var s' := Exchange(s, s.Get(uid), s.Get(s.Get(uid).other.value), AwaitingTheirAcceptance, AwaitingMyAcceptance, false, o0);
      u1.SetState(AwaitingTheirAcceptance);
      u2.SetState(AwaitingMyAcceptance);
      var cur := u1.currentOffer.value;
      var o := Acted(offer, Action.ProposeUpdate, uid).(seller := cur.seller, buyer := cur.buyer);
      u1.AddOfferHistory(o);
      u2.AddOfferHistory(o);
      Placed(s', uid, u1, u2);
      r := Ok;
    }

    /** One-sided: only the acting user's private data and history change. */
    method UpdatePrivateData(uid: string, update: Info) returns (r: Outcome)
      requires Valid()
      modifies first, second
      ensures Valid()
      ensures (r, Model()) == UpdatePrivateDataStep(old(Model()), uid, update)
    {
      if !Knows(uid) {
        return Err(UnknownUser);
      }
      var u1 := UserOf(uid);
      if u1.currentOffer.None? {
        return Err(NotSubmitted);
      }
      ghost var s := Model();
      var offer := Acted(u1.currentOffer.value, Action.UpdatePrivateData, uid);
      u1.UpdatePrivateInfo(update);
      u1.AddOfferHistory(offer);
      UpdatePrivateDataKeepsInv(s, uid, update);
      r := Ok;
    }

    /** Once the acting user holds the actor's ledger of `s'` and the other
        user the counterparty's, the users hold `s'`. */
    lemma Placed(s': Session, uid: string, u1: User, u2: User)
      requires s'.first.userId == first.userId && s'.second.userId == second.userId
      requires s'.first.userId != s'.second.userId
      requires u1 == UserOf(uid) && u2 != u1 && (u2 == first || u2 == second)
      requires u1.Snap() == s'.Get(uid) && u2.Snap() == s'.Counterparty(uid)
      ensures Model() == s'
    {
    }


    /** Version `v` of `uid`'s history, if there is one. */
    function ReturnVersion(uid: string, v: int): (r: Option<Offer>)
      reads first, second
      ensures r.Some? <==> Knows(uid) && 1 <= v <= |UserOf(uid).offerHistory|
      ensures r.Some? ==> r.value in UserOf(uid).offerHistory
    {
      if Knows(uid) then
        var u1 := UserOf(uid);
        if v <= |u1.offerHistory| && v > 0 then Some(u1.offerHistory[v - 1]) else None
      else None
    }

    /** The fields in which versions `v1` and `v2` of `uid`'s history differ,
        with their two values; empty when the versions are equal, when either
        is out of range, or when `uid` is unknown. */
    method VersionDifferences(uid: string, v1: int, v2: int) returns (diffs: map<Field, (Value, Value)>)
      ensures diffs == (if Knows(uid) && ReturnVersion(uid, v1).Some? && ReturnVersion(uid, v2).Some? && v1 != v2
                        then Differences(ReturnVersion(uid, v1).value, ReturnVersion(uid, v2).value)
                        else map[])
    {
      diffs := map[];
      if !Knows(uid) {
        return;
      }
      var u1 := UserOf(uid);
      var n := |u1.offerHistory|;
      if !(v1 <= n && v2 <= n && v1 > 0 && v2 > 0) {
        return;
      }
      if v1 == v2 {
        return;
      }
      var a, b := u1.offerHistory[v1 - 1], u1.offerHistory[v2 - 1];
      var i := 0;
      while i < |AllFields|
        invariant 0 <= i <= |AllFields|
        invariant forall f :: f in diffs <==> f in AllFields[..i] && FieldValue(a, f) != FieldValue(b, f)
        invariant forall f :: f in diffs ==> diffs[f] == (FieldValue(a, f), FieldValue(b, f))
      {
        var f := AllFields[i];
        if FieldValue(a, f) != FieldValue(b, f) {
          diffs := diffs[f := (FieldValue(a, f), FieldValue(b, f))];
        }
        assert AllFields[..i + 1] == AllFields[..i] + [f];
        i := i + 1;
      }
      forall f ensures f in diffs <==> f in Differences(a, b) {
        AllFieldsListed(f);
        assert AllFields[..i] == AllFields;
      }
    }
  }

  /** Under the invariant, the offer `ReturnVersion` finds for `v` is the one
      numbered `v` and owned by `uid`. */
  lemma ReturnVersionNumbered(h: Haggler, uid: string, v: int)
    requires h.Valid()
    ensures h.ReturnVersion(uid, v).Some? ==>
              h.ReturnVersion(uid, v).value.version == Some(v) && h.ReturnVersion(uid, v).value.userId == Some(uid)
  {
    if h.ReturnVersion(uid, v).Some? {
      var l := h.UserOf(uid).Snap();
      assert l == h.Model().Get(uid);
      assert VersionedAt(l.offerHistory, l.userId, v - 1);
    }
  }

  /** Two different versions of one history always differ, at least in their
      version numbers; the diff of a version with itself is empty. */
  lemma DistinctVersionsDiffer(h: Haggler, uid: string, v1: int, v2: int)
    requires h.Valid()
    requires h.ReturnVersion(uid, v1).Some? && h.ReturnVersion(uid, v2).Some?
    ensures v1 != v2 ==> VersionField in Differences(h.ReturnVersion(uid, v1).value, h.ReturnVersion(uid, v2).value)
    ensures v1 == v2 ==> Differences(h.ReturnVersion(uid, v1).value, h.ReturnVersion(uid, v2).value) == map[]
  {
    ReturnVersionNumbered(h, uid, v1);
    ReturnVersionNumbered(h, uid, v2);
    DifferencesEmptyIff(h.ReturnVersion(uid, v1).value, h.ReturnVersion(uid, v2).value);
  }
}
