/** Users: one party's ledger. `Ledger` is the value a party's fields hold at
    one moment; the class `User` holds the same fields and updates them in
    place, and each of its methods is specified by what it does to that value. */
module Users {
  import opened Offers

  datatype Ledger = Ledger(
    userId: string,
    role: Option<Role>,
    state: Option<State>,
    offerHistory: seq<Offer>,
    privateInfo: Info,
    currVersion: int,
    end: bool,
    currentOffer: Option<Offer>,
    other: Option<string>)         // the counterparty's id, set at submit

  /** A party as it is created: no role, no state, nothing recorded. */
  function NewLedger(id: string): Ledger
  {
    Ledger(id, None, None, [], map[], 1, false, None, None)
  }

  /** The copy of `o` that `l` records: stamped with the owner's id, the owner's
      current state, a snapshot of the owner's private data and the next version. */
  function Stamped(l: Ledger, o: Offer): Offer
  {
    o.(state := l.state, privateInfo := Some(l.privateInfo), userId := Some(l.userId),
       version := Some(l.currVersion))
  }

  /** `l` after recording `o`: the stamped copy is appended and becomes the
      current offer, and the version counter moves on. */
  function Recorded(l: Ledger, o: Offer): Ledger
  {
    var entry := Stamped(l, o);
    l.(offerHistory := l.offerHistory + [entry], currentOffer := Some(entry),
       currVersion := l.currVersion + 1)
  }

  /** `update` merged into `base` key by key: keys of `update` take its values,
      all other keys of `base` keep theirs, and nothing is removed. */
  function Merged(base: Info, update: Info): (r: Info)
    ensures r.Keys == base.Keys + update.Keys
    ensures forall k :: k in update ==> r[k] == update[k]
    ensures forall k :: k in base && k !in update ==> r[k] == base[k]
  {
    base + update
  }

  /** Entry `i` of a history is version `i + 1` and belongs to `owner`. */
  predicate VersionedAt(h: seq<Offer>, owner: string, i: int)
    requires 0 <= i < |h|
  {
    h[i].version == Some(i + 1) && h[i].userId == Some(owner)
  }

  /** The bookkeeping a ledger keeps: the counter is one past the history's
      length, every entry is numbered by its position and stamped with the
      owner's id, and the current offer is the last entry. */
  predicate LedgerValid(l: Ledger)
  {
    && l.currVersion == |l.offerHistory| + 1
    && (forall i :: 0 <= i < |l.offerHistory| ==> VersionedAt(l.offerHistory, l.userId, i))
    && l.currentOffer == (if l.offerHistory == [] then None
                          else Some(l.offerHistory[|l.offerHistory| - 1]))
  }

  /** `l'` is `l` with exactly one entry appended, the one `l` would stamp from `o`
      once its state and private data are those of `l'`. */
  predicate AppendedOne(l: Ledger, l': Ledger, o: Offer)
  {
    && |l'.offerHistory| == |l.offerHistory| + 1
    && l'.offerHistory[..|l.offerHistory|] == l.offerHistory
    && var e := l'.offerHistory[|l.offerHistory|];
    && e.userId == Some(l.userId)
    && e.version == Some(|l'.offerHistory|)
    && e.state == l'.state
    && e.privateInfo == Some(l'.privateInfo)
    && e.action == o.action && e.userAction == o.userAction
    && SameDeal(e, o) && SameParties(e, o)
    && l'.currentOffer == Some(e)
  }

  /** Recording appends exactly one entry, numbered with the next version and
      stamped from the owner, never from anyone else. */
  lemma RecordedAppendsOne(l: Ledger, o: Offer)
    requires l.currVersion == |l.offerHistory| + 1
    ensures AppendedOne(l, Recorded(l, o), o)
  {
    assert Recorded(l, o).offerHistory[..|l.offerHistory|] == l.offerHistory;
  }

  /** Recording keeps the bookkeeping of a ledger. */
  lemma RecordedValid(l: Ledger, o: Offer)
    requires LedgerValid(l)
    ensures LedgerValid(Recorded(l, o))
  {
    var r := Recorded(l, o);
    forall i | 0 <= i < |r.offerHistory|
      ensures VersionedAt(r.offerHistory, r.userId, i)
    {
      if i < |l.offerHistory| {
        assert VersionedAt(l.offerHistory, l.userId, i);
      }
    }
  }

  class User {
    const userId: string
    var role: Option<Role>
    var state: Option<State>
    var offerHistory: seq<Offer>
    var privateInfo: Info
    var currVersion: int
    var end: bool
    var currentOffer: Option<Offer>
    var other: Option<string>

    /** The ledger these fields hold now. */
    function Snap(): Ledger
      reads this
    {
      Ledger(userId, role, state, offerHistory, privateInfo, currVersion, end, currentOffer, other)
    }

    constructor (id: string)
      ensures Snap() == NewLedger(id)
    {
      userId := id;
      role := None;
      state := None;
      offerHistory := [];
      privateInfo := map[];
      currVersion := 1;
      end := false;
      currentOffer := None;
      other := None;
    }

    method AddOfferHistory(offer: Offer)
      modifies this
      ensures Snap() == Recorded(old(Snap()), offer)
    {
      var entry := offer.(state := state, privateInfo := Some(privateInfo));
      entry := entry.(userId := Some(userId), version := Some(currVersion));
      offerHistory := offerHistory + [entry];
      currentOffer := Some(entry);
      currVersion := currVersion + 1;
    }

    method SetRole(r: Role)
      modifies this
      ensures Snap() == old(Snap()).(role := Some(r))
    {
      role := Some(r);
    }

    /** Merges `update` into the private data one key at a time. */
    method UpdatePrivateInfo(update: Info)
      modifies this
      ensures Snap() == old(Snap()).(privateInfo := Merged(old(privateInfo), update))
    {
      var pending := update.Keys;
      while pending != {}
        invariant pending <= update.Keys
        invariant privateInfo == Merged(old(privateInfo), update - pending)
        invariant Snap() == old(Snap()).(privateInfo := privateInfo)
        decreases pending
      {
        var k :| k in pending;
        assert (update - (pending - {k})) == (update - pending)[k := update[k]];
        privateInfo := privateInfo[k := update[k]];
        pending := pending - {k};
      }
      assert update - pending == update;
    }

    method SetEnd()
      modifies this
      ensures Snap() == old(Snap()).(end := true)
    {
      end := true;
    }

    method SetState(st: State)
      modifies this
      ensures Snap() == old(Snap()).(state := Some(st))
    {
      state := Some(st);
    }

    method SetOther(id: string)
      modifies this
      ensures Snap() == old(Snap()).(other := Some(id))
    {
      other := Some(id);
    }
  }
}
