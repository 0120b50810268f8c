/** Protocol: the negotiation between two parties as a state machine over
    values. A `Session` is what the two ledgers hold; each action is a function
    from the session before it to an outcome and the session after it. The
    `Haggler` class is proved to change its two users exactly as these
    functions say, and the lemmas here say what the functions guarantee. */
module Protocol {
  import opened Offers
  import opened Users

  /** Why an action was refused. A refused action changes nothing. */
  datatype Failure =
    | UnknownUser    // an id that is not one of the two parties
    | AlreadyEnded   // the acting party has accepted or cancelled already
    | InvalidState   // the acting party's state does not allow the action
    | NotSubmitted   // nothing has been submitted yet, so there is no offer to act on
    | SameUser       // a party submitting to itself

  datatype Outcome = Ok | Err(failure: Failure)

  /** The two parties' ledgers, looked up by id. */
  datatype Session = Session(first: Ledger, second: Ledger)
  {
    predicate Has(id: string)
    {
      id == first.userId || id == second.userId
    }

    function Get(id: string): Ledger
    {
      if id == first.userId then first else second
    }

    /** The ledger of the party that `id` does not name. */
    function Counterparty(id: string): Ledger
    {
      if id == first.userId then second else first
    }

    /** This session with the ledger of `l`'s owner replaced by `l`. */
    function Put(l: Ledger): Session
    {
      if l.userId == first.userId then this.(first := l) else this.(second := l)
    }
  }

  /** A session as it is created: two fresh parties. */
  function Start(id1: string, id2: string): Session
  {
    Session(NewLedger(id1), NewLedger(id2))
  }

  function Opposite(r: Role): Role
  {
    if r == Seller then Buyer else Seller
  }

  // ---------------------------------------------------------------------
  // The invariant both ledgers keep together
  // ---------------------------------------------------------------------

  /** What holds of each party on its own: its bookkeeping, `end` set exactly
      in a terminal state, and role, counterparty and history present exactly
      once something has been submitted. */
  predicate PartyInv(l: Ledger)
  {
    && LedgerValid(l)
    && (l.end <==> l.state.Some? && Terminal(l.state.value))
    && (l.state.None? ==> l.offerHistory == [] && l.role.None? && l.other.None?)
    && (l.state.Some? ==> l.offerHistory != [] && l.role.Some? && l.other.Some?)
  }

  /** How party `a` sees party `b` once something has been submitted: `a` points
      at `b`, `b`'s state is the mirror of `a`'s, their roles are opposite,
      their current offers agree on the deal and on the parties, and those
      name `a` in `a`'s role. */
  predicate Linked(a: Ledger, b: Ledger)
    requires a.state.Some? && a.role.Some? && a.currentOffer.Some?
  {
    var cur := a.currentOffer.value;
    && a.other == Some(b.userId)
    && b.state == Some(Mirror(a.state.value))
    && b.role == Some(Opposite(a.role.value))
    && b.currentOffer.Some?
    && SameDeal(cur, b.currentOffer.value)
    && SameParties(cur, b.currentOffer.value)
    && (if a.role == Some(Seller) then cur.seller == Some(a.userId) else cur.buyer == Some(a.userId))
  }

  predicate Inv(s: Session)
  {
    && s.first.userId != s.second.userId
    && PartyInv(s.first) && PartyInv(s.second)
    && (s.first.state.None? <==> s.second.state.None?)
    && (s.first.state.Some? ==> Linked(s.first, s.second) && Linked(s.second, s.first))
  }

  lemma {:induction false} StartInv(id1: string, id2: string)
    requires id1 != id2
    ensures Inv(Start(id1, id2))
    ensures Start(id1, id2).first.offerHistory == [] && Start(id1, id2).second.offerHistory == []
  {
  }

  /** Under the invariant the two parties always stand in one of the pairs
      (AwaitingTheirAcceptance, AwaitingMyAcceptance), (WithdrawnByMe,
      WithdrawnByThem), (Accepted, Accepted), (Cancelled, Cancelled), or
      neither has a state yet; and both have ended, or neither has. */
  lemma StatesComplementary(s: Session)
    requires Inv(s)
    ensures s.first.state.None? <==> s.second.state.None?
    ensures s.first.state.Some? ==>
      var x, y := s.first.state.value, s.second.state.value;
      || (x == AwaitingTheirAcceptance && y == AwaitingMyAcceptance)
      || (x == AwaitingMyAcceptance && y == AwaitingTheirAcceptance)
      || (x == WithdrawnByMe && y == WithdrawnByThem)
      || (x == WithdrawnByThem && y == WithdrawnByMe)
      || (x == Accepted && y == Accepted)
      || (x == Cancelled && y == Cancelled)
    ensures s.first.end == s.second.end
  {
  }

  // ---------------------------------------------------------------------
  // The actions
  // ---------------------------------------------------------------------

  /** Both parties take their new states (and end, if `ends`) and each records
      its own copy of `o`. */
  function Exchange(s: Session, a: Ledger, b: Ledger, mine: State, theirs: State, ends: bool, o: Offer): Session
  {
    s.Put(Recorded(a.(state := Some(mine), end := a.end || ends), o))
     .Put(Recorded(b.(state := Some(theirs), end := b.end || ends), o))
  }

  /** Submit exactly as the source does it, one field update after another,
      including when `uid` and `oid` are the same party. */
  function SubmitAsWritten(s: Session, uid: string, oid: string, offer: Offer): (Outcome, Session)
  {
    if !(s.Has(uid) && s.Has(oid)) then (Err(UnknownUser), s)
    else if s.Get(uid).end then (Err(AlreadyEnded), s)
    else
      var o := offer.(action := Some(Submit), userAction := Some(uid), seller := Some(uid), buyer := Some(oid));
      var s1 := s.Put(s.Get(uid).(other := Some(oid)));
      var s2 := s1.Put(s1.Get(oid).(other := Some(uid)));
      var s3 := s2.Put(s2.Get(uid).(role := Some(Seller), state := Some(AwaitingTheirAcceptance)));
      var s4 := s3.Put(s3.Get(oid).(role := Some(Buyer), state := Some(AwaitingMyAcceptance)));
      var s5 := s4.Put(Recorded(s4.Get(uid), o));
      (Ok, s5.Put(Recorded(s5.Get(oid), o)))
  }

  /** Submit: the acting party becomes the seller, the other party the buyer,
      and both record the offer. A party may not submit to itself. */
  function SubmitStep(s: Session, uid: string, oid: string, offer: Offer): (r: (Outcome, Session))
    ensures r.0 == Ok <==> s.Has(uid) && s.Has(oid) && uid != oid && !s.Get(uid).end
    ensures r.0.Err? ==> r.1 == s
  {
    if s.Has(uid) && s.Has(oid) && !s.Get(uid).end && uid == oid then (Err(SameUser), s)
    else SubmitAsWritten(s, uid, oid, offer)
  }

  function AcceptStep(s: Session, uid: string): (r: (Outcome, Session))
    ensures r.0.Err? ==> r.1 == s
  {
    if !s.Has(uid) then (Err(UnknownUser), s)
    else
      var a := s.Get(uid);
      if a.end then (Err(AlreadyEnded), s)
      else if a.state != Some(AwaitingMyAcceptance) then (Err(InvalidState), s)
      else if a.currentOffer.None? || a.other.None? then (Err(NotSubmitted), s)
      else
        var o := Acted(a.currentOffer.value, Accept, uid);
        (Ok, Exchange(s, a, s.Get(a.other.value), Accepted, Accepted, true, o))
  }

  function CancelStep(s: Session, uid: string): (r: (Outcome, Session))
    ensures r.0.Err? ==> r.1 == s
  {
    if !s.Has(uid) then (Err(UnknownUser), s)
    else
      var a := s.Get(uid);
      if a.end then (Err(AlreadyEnded), s)
      else if a.currentOffer.None? || a.other.None? then (Err(NotSubmitted), s)
      else
        var o := Acted(a.currentOffer.value, Cancel, uid);
        (Ok, Exchange(s, a, s.Get(a.other.value), Cancelled, Cancelled, true, o))
  }

  function WithdrawStep(s: Session, uid: string): (r: (Outcome, Session))
    ensures r.0.Err? ==> r.1 == s
  {
    if !s.Has(uid) then (Err(UnknownUser), s)
    else
      var a := s.Get(uid);
      if a.end then (Err(AlreadyEnded), s)
      else if a.state != Some(AwaitingTheirAcceptance) then (Err(InvalidState), s)
      else if a.currentOffer.None? || a.other.None? then (Err(NotSubmitted), s)
      else
        var o := Acted(a.currentOffer.value, Withdraw, uid);
        (Ok, Exchange(s, a, s.Get(a.other.value), WithdrawnByMe, WithdrawnByThem, false, o))
  }

  function ProposeUpdateStep(s: Session, uid: string, offer: Offer): (r: (Outcome, Session))
    ensures r.0.Err? ==> r.1 == s
  {
    if !s.Has(uid) then (Err(UnknownUser), s)
    else
      var a := s.Get(uid);
      if a.end then (Err(AlreadyEnded), s)
      else if !(a.state == Some(WithdrawnByMe) || a.state == Some(AwaitingMyAcceptance)) then (Err(InvalidState), s)
      else if a.currentOffer.None? || a.other.None? then (Err(NotSubmitted), s)
      else
        var cur := a.currentOffer.value;
        var o := Acted(offer, ProposeUpdate, uid).(seller := cur.seller, buyer := cur.buyer);
        (Ok, Exchange(s, a, s.Get(a.other.value), AwaitingTheirAcceptance, AwaitingMyAcceptance, false, o))
  }

  /** Private data: merged into the acting party's own data and recorded in its
      own history only, in any state, ended or not. */
  function UpdatePrivateDataStep(s: Session, uid: string, update: Info): (r: (Outcome, Session))
    ensures r.0.Err? ==> r.1 == s
  {
    if !s.Has(uid) then (Err(UnknownUser), s)
    else
      var a := s.Get(uid);
      if a.currentOffer.None? then (Err(NotSubmitted), s)
      else
        var o := Acted(a.currentOffer.value, UpdatePrivateData, uid);
        (Ok, s.Put(Recorded(a.(privateInfo := Merged(a.privateInfo, update)), o)))
  }

  datatype Act =
    | SubmitAct(uid: string, oid: string, offer: Offer)
    | AcceptAct(uid: string)
    | CancelAct(uid: string)
    | WithdrawAct(uid: string)
    | ProposeUpdateAct(uid: string, offer: Offer)
    | UpdatePrivateDataAct(uid: string, update: Info)

  /** Any action; a refused one leaves the session as it was. */
  function Step(s: Session, act: Act): (r: (Outcome, Session))
    ensures r.0.Err? ==> r.1 == s
  {
    match act
    case SubmitAct(uid, oid, offer) => SubmitStep(s, uid, oid, offer)
    case AcceptAct(uid) => AcceptStep(s, uid)
    case CancelAct(uid) => CancelStep(s, uid)
    case WithdrawAct(uid) => WithdrawStep(s, uid)
    case ProposeUpdateAct(uid, offer) => ProposeUpdateStep(s, uid, offer)
    case UpdatePrivateDataAct(uid, update) => UpdatePrivateDataStep(s, uid, update)
  }

  /** The session after a sequence of actions, refused ones included. */
  function Run(s: Session, acts: seq<Act>): Session
    decreases |acts|
  {
    if acts == [] then s else Run(Step(s, acts[0]).1, acts[1..])
  }
}
