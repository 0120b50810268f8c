# Haggling between two users, modelled in Dafny

This project models the negotiation core of `haggling.py`: the `Offer` record,
the per-party `User` ledger, and the `Haggler` object that carries out the
actions.

A `Haggler` holds two users. One user submits an offer to the other and so
becomes the seller. From then on the two take turns:

- accepting the standing offer;
- cancelling;
- withdrawing their own offer;
- proposing new terms;
- annotating their own copy with private data.

Each two-party action (submit, accept, cancel, withdraw, propose) moves both
parties to a new pair of states, chosen from AwaitingMyAcceptance,
AwaitingTheirAcceptance, WithdrawnByMe, WithdrawnByThem, Accepted and
Cancelled. Accepted and Cancelled end the negotiation. In such an action each
party appends its own stamped copy of the offer to its history: its id, the
version number, its state at that moment and a snapshot of its private data.
A private-data update changes neither party's state: the annotating party
merges the new data into its own and appends one entry to its own history,
and the other party is untouched. A history can be read back by version, and
two versions can be diffed field by field.

The model has two layers.

- **Values.** `Offers` defines the offer and the field-by-field diff. `Users`
  defines a party's `Ledger`: what a user's fields hold at one moment, and how
  recording an offer and merging private data change it. `Protocol` makes the
  whole negotiation a state machine over a `Session`, the pair of ledgers. It
  has one step function per action, returning an `Outcome` (`Ok` or the reason
  the action was refused) and the new session. `Guarantees` proves what each
  step does, that the session invariant holds after any sequence of actions,
  and that histories only ever grow at their end.
- **Objects.** `Users.User` and `Hagglers.Haggler` are classes whose methods
  update fields in place, in the same order as the source. Each method is
  proved to leave its object exactly as the value layer says. So every
  guarantee of the value layer holds of the objects. `Scenarios` restates the
  repository's unit-test negotiations as method calls on the `Haggler` class
  and proves the values those tests check. The tests name the parties Batman and
  Superman; the scenarios take any two distinct ids in their place.

A refused action leaves everything unchanged, as in the source. There the
refusal is a printed error and a `return`; here it is an `Err` outcome.

## Model

| member | source | states |
|---|---|---|
| Offers.NewOffer | haggling.py:34-59 | A new offer carries the given product, unit price and quantity, and every other field is unset. |
| Offers.FieldsDetermineOffer | haggling.py:50-59 | Two offers that agree on each of the eleven attributes are the same offer. |
| Offers.Differences | haggling.py:661-668 | A field is in the diff exactly when the two versions' values differ, and it maps to the pair (value in the first, value in the second). |
| Offers.DifferencesEmptyIff | haggling.py:661-670 | The diff of two versions is empty if and only if the versions are identical. |
| Offers.DifferencesSwapped | haggling.py:661-670 | Diffing in the other order reports the same fields, each with its pair swapped. |
| Users.Merged | haggling.py:136-147 | Merging keeps every old key and adds every new one. A key of the update takes the update's value; every other key keeps its old value. |
| Users.RecordedAppendsOne | haggling.py:105-125 | Recording appends exactly one entry and keeps all earlier entries. The new entry carries the owner's id, the next version number, the owner's current state and private data, and the offer's action, actor, terms and parties; it becomes the current offer. |
| Users.RecordedValid | haggling.py:105-125 | Recording keeps a ledger's bookkeeping: the counter is one past the history's length, entry i is version i+1 owned by the ledger's user, and the current offer is the last entry. |
| Users.User.constructor | haggling.py:87-103 | A new user has no role, state, history, private data, current offer or counterparty, and its version counter is 1. |
| Users.User.AddOfferHistory | haggling.py:105-125 | The user's fields become the ledger with the stamped copy recorded (see RecordedAppendsOne). |
| Users.User.SetRole | haggling.py:127-134 | Only the role changes. |
| Users.User.UpdatePrivateInfo | haggling.py:136-147 | The key-by-key loop leaves the private data equal to the merge of the old data and the update, and nothing else changes. |
| Users.User.SetEnd | haggling.py:149-153 | Only the end flag changes, to true. |
| Users.User.SetState | haggling.py:155-162 | Only the state changes. |
| Users.User.SetOther | haggling.py:164-171 | Only the counterparty changes. |
| Protocol.StartInv | haggling.py:185-210 | A new haggler of two distinct users satisfies the session invariant, with both histories empty. |
| Protocol.StatesComplementary | haggling.py:276-478 | Under the invariant, the two parties' states are one of the six complementary pairs, or neither party has a state yet; and either both have ended or neither has. |
| Protocol.SubmitStep | haggling.py:221-274 | Submit succeeds exactly when both ids are parties, they differ, and the actor has not ended. A refused submit changes nothing. |
| Protocol.AcceptStep | haggling.py:276-330 | A refused accept changes nothing. |
| Protocol.CancelStep | haggling.py:332-376 | A refused cancel changes nothing. |
| Protocol.WithdrawStep | haggling.py:378-426 | A refused withdraw changes nothing. |
| Protocol.ProposeUpdateStep | haggling.py:428-478 | A refused proposal changes nothing. |
| Protocol.UpdatePrivateDataStep | haggling.py:481-520 | A refused update changes nothing. |
| Protocol.Step | haggling.py:221-520 | Any refused action changes nothing. |
| Guarantees.SubmitEffect | haggling.py:221-274 | Submit succeeds iff both ids are parties, they differ, and the actor has not ended. Then the actor is seller, AwaitingTheirAcceptance; the other is buyer, AwaitingMyAcceptance; each points at the other; neither has ended; and each appends one stamped copy of the offer, marked Submit by the actor, with the actor as seller and the other as buyer. |
| Guarantees.AcceptEffect | haggling.py:276-330 | Accept succeeds iff the actor is a party that has not ended and is AwaitingMyAcceptance. Then both are Accepted and ended, roles and links are kept, and each appends a copy of the actor's current offer marked Accept by the actor. |
| Guarantees.CancelEffect | haggling.py:332-376 | Cancel succeeds iff the actor is a party that has not ended and an offer has been submitted, in any state. Then both are Cancelled and ended, and each appends a copy of the current offer marked Cancel. |
| Guarantees.WithdrawEffect | haggling.py:378-426 | Withdraw succeeds iff the actor has not ended and is AwaitingTheirAcceptance. Then the actor is WithdrawnByMe and the other WithdrawnByThem, neither ends, and each appends a copy marked Withdraw. |
| Guarantees.ProposeUpdateEffect | haggling.py:428-478 | A proposal succeeds iff the actor has not ended and is WithdrawnByMe or AwaitingMyAcceptance. Then the actor awaits the other's acceptance and the other its own, and each appends the new terms marked ProposeUpdate, with seller and buyer carried over from the actor's current offer. |
| Guarantees.UpdatePrivateDataEffect | haggling.py:481-520 | The update succeeds iff the actor is a party with an offer, ended or not. Then the actor's private data is the merge, the actor appends one copy of its current offer marked UpdatePrivateData and stamped with the merged data, its state, role, link and end are kept, and the counterparty is untouched. |
| Guarantees.SubmitKeepsInv | haggling.py:221-274 | Every submit, refused or not and even mid-negotiation, leaves the session invariant holding. |
| Guarantees.TwoPartyKeepsInv | haggling.py:276-478 | Accept, cancel, withdraw and propose keep the invariant when they succeed. |
| Guarantees.UpdatePrivateDataKeepsInv | haggling.py:481-520 | A private-data update keeps the invariant. |
| Guarantees.StepKeepsInv | haggling.py:221-520 | Every action keeps the session invariant, whether it is accepted or refused. |
| Guarantees.RunKeepsInv | haggling.py:221-520 | Any sequence of actions from a valid session ends in a valid session. |
| Guarantees.RecordedGrows | haggling.py:121-125 | Recording extends the history by exactly one entry, and the old history is a prefix of the new. |
| Guarantees.StepOnlyAppends | haggling.py:221-520 | One action keeps both ids, changes no recorded entry, and appends at most one entry to each history. |
| Guarantees.RunOnlyAppends | haggling.py:113-125 | Over any sequence of actions, each earlier history is a prefix of the later one, and each grows by at most one entry per action. A copy once recorded never changes, so a later change to private data never reaches it. |
| Guarantees.SelfSubmitAsWritten | haggling.py:234-267 | As written, a party submitting to itself is accepted. The party then points at itself and ends up as buyer, AwaitingMyAcceptance, with two entries; the invariant fails; and the party can accept its own offer. |
| Guarantees.SelfSubmitRefused | haggling.py:234-267 | With the check, the same submit is refused and nothing changes, while the as-written submit accepts it. |
| Hagglers.Haggler.constructor | haggling.py:185-210 | Two fresh users with the given ids, in the starting session, with the invariant holding. |
| Hagglers.Haggler.Submit | haggling.py:221-274 | Keeps the invariant. The outcome and the users' new fields are exactly what SubmitStep gives on the old fields. |
| Hagglers.Haggler.Accept | haggling.py:276-330 | Keeps the invariant and matches AcceptStep exactly. |
| Hagglers.Haggler.Cancel | haggling.py:332-376 | Keeps the invariant and matches CancelStep exactly. |
| Hagglers.Haggler.Withdraw | haggling.py:378-426 | Keeps the invariant and matches WithdrawStep exactly. |
| Hagglers.Haggler.ProposeUpdate | haggling.py:428-478 | Keeps the invariant and matches ProposeUpdateStep exactly. |
| Hagglers.Haggler.UpdatePrivateData | haggling.py:481-520 | Keeps the invariant and matches UpdatePrivateDataStep exactly. |
| Hagglers.Haggler.ReturnVersion | haggling.py:597-631 | A version is found iff the id is a party and 1 <= v <= the history's length, and what is found is an entry of that history. |
| Hagglers.Haggler.VersionDifferences | haggling.py:633-682 | The loop over the fields returns the diff of the two versions when the id is a party, both versions exist and they differ; otherwise it returns the empty map. |
| Hagglers.ReturnVersionNumbered | haggling.py:597-631 | Under the invariant, the entry found for version v is numbered v and owned by the queried party. |
| Hagglers.DistinctVersionsDiffer | haggling.py:656-670 | Two different versions of one history always differ, at least in their version field; a version diffed with itself gives an empty diff. |
| Scenarios.SubmitThenAccept | tests.py:50-71 | After submit and accept, each party's version 1 has its own awaiting state, and version 2 is Accepted at price 500 and quantity 5. |
| Scenarios.CounterOffer | tests.py:79-102 | After a counter at 550 and acceptance, version 1 is at 500 and version 3 at 550. The submitter's diff of versions 1 and 3 is exactly {version: 1→3, action: Submit→Accept, state: AwaitingTheirAcceptance→Accepted, price: 500→550}. |
| Scenarios.CounterOfferDiff | tests.py:38-45 | Offers that agree except in version, action, state and price differ in exactly those four fields, with the test's values. |
| Scenarios.WithdrawThenRepropose | tests.py:110-134 | After withdraw, a new proposal at 450 and acceptance, version 1 is at 500 in each party's own awaiting state, and version 4 is at 450 and quantity 5. |
| Scenarios.ProposeWhileAwaitingTheirs | tests.py:142-153 | The submitter cannot counter its own standing offer: the outcome is InvalidState and neither history gains a second version. |
| Scenarios.PrivateAnnotation | tests.py:161-178 | The annotating party's version 3 carries its annotation and the other's version 2 carries none. The other has no version 3. |
| Scenarios.TwoAnnotations | tests.py:186-200 | Versions 2 and 3 of the annotating party carry different snapshots; the later one holds both keys. |

## Left out

- Printing (`pretty`, `printHistory`, `printVersion`) and YAML output. They only format data the model already holds.
- The `isinstance` check on the constructor's ids and the `private_info.keys()` check in `updatePrivateData`. Ids are strings and private data is a map by typing.
- Hagglers.Haggler.constructor: requires two distinct ids. With equal ids the source builds a haggler whose dictionary keeps only the second user, and the only submit possible there is the self-submit under "Findings".
- Private data values are modelled as strings. The source accepts any value.
- A user's `other` field holds the counterparty object in the source; here it holds the counterparty's id, which the haggler resolves.
- Aliasing of the caller's offer. `submit` and `proposeUpdate` write the action, actor and parties into the caller's own offer object before copying it. The model builds a new offer value, so the caller's object is left unchanged. Likewise `returnVersion` hands out the recorded entry itself (haggling.py:618), and `proposeUpdate` writes into the offer it is given because its copy is commented out (haggling.py:459-463); so in the source `proposeUpdate(u, returnVersion(u, k))` rewrites version k's action, actor and parties in place. The model's entries are values, so "a copy once recorded never changes" (Guarantees.RunOnlyAppends) holds of the model only.
- The end check in `submit` formats its message from an undefined name (haggling.py:241). The resulting NameError is not modelled; the model refuses with `AlreadyEnded`, as the neighbouring actions do.
- `cancel` and `updatePrivateData` before any submit fail in the source with an attribute error on the missing current offer. The model refuses them with `NotSubmitted`, leaving everything unchanged.
- The unit tests at tests.py:151-153 and tests.py:176-178 expect an exception. The code prints the error and returns `None`. The model follows the code: `Err(InvalidState)` and `None`.
- Protocol.AcceptStep, Protocol.CancelStep, Protocol.WithdrawStep, Protocol.ProposeUpdateStep, Protocol.UpdatePrivateDataStep: their own contracts state only that a refusal changes nothing. When each succeeds and what it changes is stated by the matching `Guarantees` effect lemma.

## Findings

| source | as written | input that shows it | evidently intended | confidence | as-written member | corrected member |
|---|---|---|---|---|---|---|
| haggling.py:234-267 | `submit` checks that both ids are parties but not that they differ. | `submit("Superman", "Superman", Offer("Batmobile", 500, 5))` on a new haggler of Batman and Superman. Superman becomes its own counterparty. The seller role is overwritten by buyer, two entries are recorded, and Superman can then accept its own offer. The as-written member covers the submit and the outcome of that accept, not the histories after it. | A party cannot submit to itself; the two ids name opposite roles. | not executed | Guarantees.SelfSubmitAsWritten | Protocol.SubmitStep |
