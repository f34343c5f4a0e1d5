# Verified model of the DPP reference service

A Dafny 4.11 model of the in-memory reference implementation of a digital product passport service, with proofs of
what it promises. `dafny verify dfyconfig.toml` checks everything.

The centre is one state machine (`System.dfy`, `Runs.dfy`): the passport store with its histories, carrier index and
outbox, the evidence worker, the reference ledger with injected failures, and the read index fed by the commit hook,
under arbitrary interleavings of writes, drains, reconciliations, confirmations and failures. Around it stand the
canonical serialiser the digests rest on, the JSON/XML converter, idempotent replay and cursor traversal of the API,
the composition rule and the read-zone controls.

How it is laid out:

| files | content |
|---|---|
| `Values`, `Ordering`, `KeySort`, `Decimals`, `Quoting`, `JsonText` | JSON values, key order, number and string texts, the canonical text and a decoder for it |
| `Canonical`, `TextForm`, `Projection` | serialising Python values, what the text looks like, and the members a digest covers |
| `Records`, `StoreSpec`, `Store` | records; the store's operations as functions; the store as a class proved to compute them |
| `StoreOutcomes` | what each operation answers and leaves in the record, member by member |
| `StoreHistory`, `StoreSteps`, `StoreCarriers`, `StoreTrail` | what writes keep, in which states: versions, outbox, collections, bindings, ownership, verification |
| `EvidenceSpec`, `EvidenceHistory`, `Worker` | ledger and worker as functions, what each step keeps, and as classes |
| `IndexSpec`, `ReadIndex` | the read index, likewise |
| `System`, `Runs`, `Retry`, `EvidenceOutcomes` | the whole service, its runs, bounded retry and recovery, and what becomes of each entry |
| `Reached` | accepted requests after which an invariant no longer holds, and a run to an aborted drain |
| `ElementTree`, `RoundTrip`, `Exchange`, `DocumentForm` | values and records as element trees and back, and the names and order the XSD declares |
| `Schema`, `Xsd` | the types of the record schema, and the XSD's check of numbers |
| `ScopedKeys`, `Replay`, `Api`, `Paging` | idempotent requests and cursor traversal |
| `Validation`, `ReadZone` | the composition rule, duplicate suppression |

Objects the program updates in place are classes here, and each method is proved to compute the function of the same
name on the state before; the theorems are about those functions and about runs made of them. What the functions
compute is stated a second time, in terms of members, characters and states only, by `TextForm`, `StoreOutcomes`,
`EvidenceOutcomes`, `DocumentForm` and the last lemmas of `Projection`, `IndexSpec`, `Replay`, `Paging`, `Validation`
and `ReadZone`.

Records are values (`map<string, Value>`); numbers in them are exact decimals in lowest terms. SHA-256,
`validate_payload` beyond the shape the store relies on, and the check that a projection serialises are parameters
(`Profile`): the theorems hold for all of them, and `Reached.dfy` takes any profile that accepts the records it
names. Generated identifiers and clock readings are arguments of each operation. Evidence identifiers are assumed new
when generated.

Where the code does less than its documentation says, the model follows the code and states when the promise holds:

- `commission_carrier` is documented as all or nothing. It closes what its record shows commissioned before checks that
  can still fail, so a late rejection loses a binding, or claims an identifier nobody owned
  (`RejectedCommissionChanges`, `IncompleteRequestLosesBinding`, `ClaimedByRejected`, `BindingsIndexed`).
- At most one carrier of a passport is documented to be commissioned. A commission sees to it, from every state
  (`CommissionLeavesOne`); `create`, `patch` and `append` do not look (`WriteKeepsSingle`, `BindingsSingle`).
- An identifier is documented as never reassigned. A passport created or patched with a commissioned carrier another
  one owns takes it over at its next commission, even a rejected one (`WriteKeepsOwner`, `IdentifierNeverReassigned`,
  `OwnerMoved`, `TakenOver`).
- A `mismatch` is documented to mean a record changed after anchoring. A patch of `dppId` can give a passport a number
  it already has, and the new entry is then verified against the older version (`EntriesVerify`, `CollidingPatch`,
  `MismatchAnswered`).
- `patch` may change `dppId`, and `create`, `patch` and `append` may write carriers that nothing indexes. Runs contain
  all writes. What holds through all of them is `Base` and `Kept`; which steps besides keep versions in order, and
  bindings in agreement, is stated by `StepKeepsOrder` and `StepKeepsAgreement`, and case by case by
  `PatchedIdentifierDecides`, `CreatedCarriersDecide`, `PatchedCarriersDecide` and `AppendedCarrierDecides`; each run
  theorem asks for no more of the steps than it needs. `Reached.dfy` shows accepted requests of the other kind.
- `drain` raises on an entry resting in `submitted` and never reaches the entries behind it (`DrainEffect`,
  `SubmittedBlocks`, and a run that gets there in `DrainAborts`); confirming and reconciling frees it
  (`ReconcileUnblocks`). `reconcile` assigns `retryableFailed -> submitted` directly, which is legal only as a path.
- A projected read serves retired passports that a strong read refuses (`ProjectedReadIsStrong`).
- The record schema admits a whole float where it asks for an integer, and a quantity of any size. The XSD check in
  `to_xml` refuses a document in which one is written as `1.0`, and any number written with an exponent
  (`DocumentNumbers`, `FloatAttemptsLost`); without that check a whole float of 10^16 or more may be read back as the
  different integer it spells (`SchemaRecordRoundTrip`). Empty top-level arrays are dropped. `ValueRoundTrip` says of
  all values, beyond those the schema admits, which survive the XML form.

## Model
| member | source | states |
|---|---|---|
| System.StepKeeps | src/sort4circ_dpp/store.py:148-262 | any step (any write whatever, drain, reconcile, ledger confirmation, injected failure, change of auto-confirmation) with a new evidence identifier keeps the base (every passport's versions are its own and end with the current record; the n-th outbox entry of a passport has the number and digest of its n-th version, and there are as many; carrier maps that agree; entries and ledger at rest; a current index), and replaces no receipt or digest, moves entries only legally and histories only at their ends |
| System.StepKeepsOrder | src/sort4circ_dpp/store.py:148-262 | versions stay numbered 1..n in prefix chains, one entry each, iff the step is no accepted patch that leaves its record under a passport it does not continue |
| System.StepKeepsAgreement | src/sort4circ_dpp/store.py:148-262 | bindings and index go on agreeing iff the record a step commits, commissions aside, shows only carriers the maps allow there |
| System.OnlyAllowedKeeps | src/sort4circ_dpp/store.py:148-262 | so a step keeps the whole invariant iff it is both |
| Runs.RunBase | src/sort4circ_dpp/store.py:339-359 | the base holds in every state of every run, whatever is written; so each stored version of each passport has its own outbox entry, in order |
| StoreTrail.VersionHasEntry | src/sort4circ_dpp/store.py:339-359 | where it holds, every stored version has an entry with its passport, number and digest |
| Runs.RunOrder | src/sort4circ_dpp/store.py:148-262 | up to any point of any run versions have been in order throughout iff every step before kept them so |
| Runs.RunAgreement | src/sort4circ_dpp/store.py:148-262 | and bindings and index have agreed throughout iff every step before let them |
| Runs.RunInvariant | src/sort4circ_dpp/store.py:148-262 | and the whole invariant has held throughout iff every step before was allowed |
| Runs.RunKeeps | src/sort4circ_dpp/evidence.py:21-44 | between any two points of any run: each evidence identifier keeps its one transaction reference and digest, confirmed stays confirmed, entries move along the reflexive-transitive closure of the transition table and not at all once terminal, histories only grow |
| Runs.VerdictIs | src/sort4circ_dpp/api.py:248-284 | in every state of every run, for every outbox entry, `verify` answers `unverifiable` without a receipt, `unanchored` while it is unconfirmed, and then `match` or `mismatch` as the version its number finds has its digest or not |
| Runs.EntriesVerify | src/sort4circ_dpp/api.py:256-268 | every entry has the digest of the version its number finds iff no step before gave a passport a number it already had, with another digest |
| Runs.VerifyUnknown | src/sort4circ_dpp/api.py:248-254 | and it answers that the evidence is unknown iff no entry carries both identifiers asked for |
| Runs.VerdictStays | src/sort4circ_dpp/api.py:256-268 | what an entry verifies against never changes: it verifies later iff it does now |
| Runs.VerifyNeverMismatches | src/sort4circ_dpp/api.py:248-284 | so up to the first such step no answer is ever `mismatch` |
| Runs.OrderedRunsNeverCollide | src/sort4circ_dpp/store.py:171-188 | steps that keep versions in order are none of these |
| Runs.CollectionsNeverRewritten | src/sort4circ_dpp/store.py:322-337 | over any stretch of any run, a protected collection of a passport is at every point a prefix of what it is at every later one (up to Python's equality) iff no step is an accepted patch of another passport's record onto this one that does not extend the collection |
| Runs.OrderedRunsDropNothing | src/sort4circ_dpp/store.py:171-188 | steps that keep versions in order are none of these |
| Runs.AppendRepeats | src/sort4circ_dpp/store.py:190-207 | an entry accepted into a protected collection is not added again at any later point of any run without such a patch in between: the append returns the current record and changes nothing |
| Runs.IdentifierNeverReassigned | src/sort4circ_dpp/store.py:209-239 | once index or retired map names a passport for an identifier, both name it alone throughout any stretch of any run iff no step takes it: a commission, accepted or not, for another passport that passes the ownership checks while that passport's record shows the identifier commissioned |
| Runs.ResolvesToOwner | src/sort4circ_dpp/store.py:285-297 | while they do, `resolve_carrier` returns no other passport for it |
| Runs.AgreedRunsTakeNothing | src/sort4circ_dpp/store.py:209-239 | steps that keep bindings and index in agreement never lead to such a commission |
| Runs.VersionsHashDifferentTexts | src/sort4circ_dpp/canonical.py:98-127 | in every reachable state, versions with one canonical text are of one passport and have one number; where every step kept versions in order they are one version |
| Runs.BindingsIndexed | src/sort4circ_dpp/store.py:233-262 | along any stretch of any run, whenever a record shows an identifier commissioned the index names its passport for it, iff no step loses it: a commission past the ownership checks whose record shows it commissioned too (its own, if the request is then rejected, or another passport's), or another write that commits it while the index does not name the passport |
| Runs.IndexBacked | src/sort4circ_dpp/store.py:209-262 | and the index names for an identifier only a passport whose record shows it commissioned iff no write but a commission commits that record without it |
| Runs.CarriersResolve | src/sort4circ_dpp/store.py:285-297 | so from the start, until a step loses it, a commissioned identifier leads to its own passport (refused only when retired), and until one displaces it nothing else leads there |
| Runs.BindingsSingle | src/sort4circ_dpp/store.py:9-10 | along any stretch of any run no record of a passport shows two commissioned carriers iff no write but a commission commits one that does |
| Runs.ReadsAreCurrent | src/sort4circ_dpp/index.py:64-110 | in every state of every run the index has no backlog and a served projected view shows the current record, equal to the strong view (lag and consistency stamps aside) unless the passport is retired |
| Canonical.CanonicaliseIsText | src/sort4circ_dpp/canonical.py:73-95 | serialisation succeeds iff every number is plain, and what it writes is a function of the denoted JSON value alone |
| Canonical.SameTextIffSameValue | src/sort4circ_dpp/canonical.py:73-95 | two serialisable values have the same text iff they are the same JSON value, object order ignored at every depth and 1 identified with 1.0 |
| Canonical.CanonicalTextDecodes | src/sort4circ_dpp/canonical.py:73-95 | a parser recovers the value from the canonical text |
| Canonical.NumberTextIsDecimalText | src/sort4circ_dpp/canonical.py:41-64 | a plain number is written as the decimal text of its value, and only plain numbers are written |
| Canonical.WholeFloatLimit | src/sort4circ_dpp/canonical.py:56-63 | an integer and the equal whole float have the same serialisation iff their magnitude is below 10^21; beyond it only the integer has one |
| TextForm.OrdinaryText | src/sort4circ_dpp/canonical.py:67-70 | a string without quote, backslash or control character is written as it is between quotes, in whatever script |
| TextForm.CharacterText | src/sort4circ_dpp/canonical.py:67-70 | the text of each single character: the two-character escapes of quote, backslash and five controls, four lower-case hexadecimal digits for the other controls, and itself otherwise |
| TextForm.ConcatenationText | src/sort4circ_dpp/canonical.py:67-70 | the text of a string is put together from the texts of its parts between one pair of quotes, and the empty string is two quotes |
| TextForm.NumberForm | src/sort4circ_dpp/canonical.py:41-64 | a serialised number is its sign and digits without superfluous zeros and without exponent |
| TextForm.ListText | src/sort4circ_dpp/canonical.py:85-86 | a list is written as its items' texts in order, with commas and no blanks |
| TextForm.ObjectText | src/sort4circ_dpp/canonical.py:87-94 | an object is written as its members in ascending order of names, each name as that string is written, a colon, and the value's text, with commas and no blanks |
| JsonText.DecodeText | src/sort4circ_dpp/canonical.py:73-95 | parsing inverts the canonical text, for all values |
| JsonText.TextInjective | src/sort4circ_dpp/canonical.py:73-95 | equal canonical texts come from equal values |
| Decimals.ParseDecimalText | src/sort4circ_dpp/canonical.py:41-64 | a number in lowest terms is read back from its decimal text, whatever follows that cannot continue a number |
| Quoting.ParseQuotedString | src/sort4circ_dpp/canonical.py:67-70 | a string is read back from its quoted form, in both the plain and the ASCII-only form of `json.dumps`, surrogate pairs included |
| Ordering.KeyOrderIsUtf16Order | src/sort4circ_dpp/canonical.py:89-93 | comparing big-endian UTF-16 bytes is comparing UTF-16 code units (section 3.2.3 of RFC 8785) |
| Ordering.KeyOrderVersusCodePointOrder | src/sort4circ_dpp/canonical.py:89-93 | that order agrees with code-point order on two keys iff their first difference does not set a supplementary character against one in U+E000..U+FFFF |
| Ordering.FirstDifferenceDecides | src/sort4circ_dpp/canonical.py:89-93 | the first difference of two names decides: the one that ends there comes first, else a supplementary character before one in U+E000..U+FFFF, else the smaller character |
| Ordering.KeyTrichotomy | src/sort4circ_dpp/canonical.py:93-93 | different keys are comparable, one way only |
| KeySort.SortedAscending | src/sort4circ_dpp/canonical.py:93-93 | members with distinct keys are sorted into strictly ascending key order |
| KeySort.AscendingIsUnique | src/sort4circ_dpp/canonical.py:93-93 | a set of keys has one ascending order, so the text cannot depend on insertion order |
| Projection.SameTextIffAgreeOnListed | src/sort4circ_dpp/canonical.py:98-127 | two records have the same canonical text iff their projections are equal, iff they agree on every listed path, absent and null counting the same; edits elsewhere cannot be seen |
| Projection.ProjectionIdempotent | src/sort4circ_dpp/canonical.py:104-122 | the projection of a projection is itself |
| Projection.TextNamesPassportAndVersion | src/sort4circ_dpp/canonical.py:22-22 | equal canonical texts imply equal `dppId` and `recordVersion` |
| Projection.TextHolds | src/sort4circ_dpp/canonical.py:22-38 | parsed, the hashed text holds of the listed members exactly those that are there and not null, the two objects and the observations only when not empty, and nothing else |
| Store.PassportStore.constructor | src/sort4circ_dpp/store.py:96-108 | a new store is empty |
| Store.PassportStore.Commit | src/sort4circ_dpp/store.py:339-359 | record, history, one queued outbox entry with the record's digest, and the commit time, are updated together; earlier entries stay |
| Store.PassportStore.Create | src/sort4circ_dpp/store.py:148-169 | the method computes `Create`: defaults only where absent, version 1, refused and unchanged for a taken identifier or an invalid record |
| Store.PassportStore.Patch | src/sort4circ_dpp/store.py:171-188 | the loop over the patch, in whatever order its keys come, computes `Patch`; every failing check leaves the store unchanged |
| Store.PassportStore.Append | src/sort4circ_dpp/store.py:190-207 | the scan and the append compute `Append`: a known entry returns the current record and changes nothing |
| Store.PassportStore.CloseBindings | src/sort4circ_dpp/store.py:233-239 | the loop closes exactly the commissioned carriers and moves exactly their identifiers from the index to the retired map |
| Store.PassportStore.CommissionCarrier | src/sort4circ_dpp/store.py:209-262 | the method computes `Commission`, including the state left by a rejection after the bindings were closed |
| Store.PassportStore.Get | src/sort4circ_dpp/store.py:266-274 | the current record, refused when unknown or retired; `ProjectedReadIsStrong` compares it with the index |
| Store.PassportStore.GetVersion | src/sort4circ_dpp/store.py:276-283 | the scan returns the first version with that number, or is refused |
| Store.PassportStore.ResolveCarrier | src/sort4circ_dpp/store.py:285-297 | the three outcomes: indexed, closed, unknown; `ResolveIsSound` and `ResolveIsComplete` say when it succeeds |
| StoreSpec.CommitShaped | src/sort4circ_dpp/store.py:353-354 | committing keeps every stored record under its own identifier |
| StoreOutcomes.CommitAdds | src/sort4circ_dpp/store.py:339-359 | a commit makes the record current under its identifier, adds it to that history alone, and queues one entry with its number, the hash of its text, no attempt and no receipt |
| StoreOutcomes.CreateOutcome | src/sort4circ_dpp/store.py:148-169 | a creation is refused as a duplicate iff its identifier is stored, as invalid iff its first version is not accepted, and otherwise answers and commits that version: every member sent, the defaults for those left out, version 1 and the time, and nothing else |
| StoreOutcomes.PatchOutcome | src/sort4circ_dpp/store.py:171-188 | a patch is refused iff it carries neither the current tag nor a star, or else a protected collection would not only grow, or else the result is not accepted; otherwise it answers and commits the record with null members removed, objects merged one level deep and all else replaced, one version on |
| StoreOutcomes.GuardIs | src/sort4circ_dpp/store.py:322-337 | the append-only guard lets a record through iff each protected collection is absent or an array that begins, up to Python's equality, with the old one |
| StoreOutcomes.NormIs | src/sort4circ_dpp/store.py:195-200 | the comparison of values is Python's: True is 1, arrays item by item, objects member by member |
| StoreOutcomes.AppendOutcome | src/sort4circ_dpp/store.py:190-207 | an append to an array of objects, or to none, answers the record unchanged iff some entry there has an equal value at the identifier's name, absent and null counting alike; otherwise, if accepted, the collection becomes the old one and this entry, and nothing else changes but version and time |
| StoreOutcomes.CommissionOutcome | src/sort4circ_dpp/store.py:233-262 | an accepted commission answers and commits the record one version on with the identifier as `identity.epc` and the other identity members as they were, earlier carriers as they were or, if commissioned, replaced and closed now, the carrier asked for after them with its defaults, and every other member as it was |
| StoreOutcomes.CommissionRefusals | src/sort4circ_dpp/store.py:216-248 | a rejected commission says why: unknown passport, no identifier that can be looked up, held by another passport, a required member missing, or a record not accepted |
| StoreOutcomes.GetOutcome | src/sort4circ_dpp/store.py:266-274 | unknown, retired, or the current record |
| StoreOutcomes.VersionOutcome | src/sort4circ_dpp/store.py:276-283 | the first stored version with the number, or none has it |
| StoreOutcomes.ResolveOutcome | src/sort4circ_dpp/store.py:285-297 | an indexed identifier leads to the passport named; one that is only retired and one never seen are told apart |
| StoreHistory.CommitKeepsInv | src/sort4circ_dpp/store.py:339-359 | committing a first version or a successor keeps numbering, prefix chains, the bijection of versions and outbox entries with matching digests, their count, and distinct evidence identifiers |
| StoreSteps.WriteKeepsInv | src/sort4circ_dpp/store.py:148-262 | with a new evidence identifier, a write keeps all of these iff it is not a committed patch that leaves the record under a passport it does not continue |
| StoreSteps.ApplyCommits | src/sort4circ_dpp/store.py:148-262 | every write commits its successor iff its checks, evaluated on the state before, all hold; otherwise records, history and outbox stay, and only a commission touches the carrier maps |
| StoreSteps.ApplyKeepsShape | src/sort4circ_dpp/store.py:148-262 | every write whatever leaves every stored record with the schema's shape, under its own identifier |
| StoreSteps.CreateCommits | src/sort4circ_dpp/store.py:148-169 | an accepted creation commits version 1 of a passport not stored before; a refused one changes nothing |
| StoreSteps.PatchCommits | src/sort4circ_dpp/store.py:171-188 | an accepted patch commits its successor under the identifier it names, the next version of that passport iff it continues it; a refused one changes nothing |
| StoreSteps.AppendCommits | src/sort4circ_dpp/store.py:190-207 | an append, to whatever collection, either changes nothing or commits the next version, every protected collection extended |
| StoreSteps.AppendIsIdempotent | src/sort4circ_dpp/store.py:195-200 | appending an accepted entry again at once returns the same record and changes nothing |
| StoreSteps.CommissionCommits | src/sort4circ_dpp/store.py:209-262 | an accepted commission commits the next version; a rejected one leaves records, history and outbox alone |
| StoreSteps.PatchedIdentifierDecides | src/sort4circ_dpp/store.py:176-187 | an accepted patch keeps the whole store invariant iff it leaves the record under its passport, or under another at the same version whose protected collections the patched record extends; the store itself does not check |
| StoreTrail.WriteKeepsBase | src/sort4circ_dpp/store.py:148-262 | every write, from every state and whatever it names, keeps each passport's versions as stored, as many outbox entries as versions, the n-th entry with the number and digest of the n-th version, and the two carrier maps in agreement |
| StoreTrail.WriteVerifies | src/sort4circ_dpp/store.py:276-283 | after a write every entry verifies against the version its number finds iff every entry did before and the write does not give a passport a number it has, with another digest |
| StoreTrail.CollidingPatch | src/sort4circ_dpp/store.py:171-188 | from versions in order, the writes that do are exactly the accepted patches that leave a record at version v under another, stored passport at a higher version whose version v + 1 has another digest |
| StoreTrail.WriteKeepsCollection | src/sort4circ_dpp/store.py:322-337 | every write, in every state, leaves a protected collection of a passport extended or as it was iff it is no accepted patch of another record onto that passport that does not extend it |
| Reached.MovedAway | src/sort4circ_dpp/store.py:176-187 | reached, for every profile that accepts the two records: one passport is created and patched to an identifier nobody has; the patch is accepted and the order of versions broken |
| Reached.MovedOnto | src/sort4circ_dpp/store.py:176-187 | reached, likewise: of two passports at version 1 one is patched to the identifier of the other, dropping what that one had collected; accepted, and the order broken |
| Reached.Mismatched | src/sort4circ_dpp/store.py:171-188 | reached, likewise: of two passports one is updated and the other patched to its identifier; accepted, and with unequal digests the new entry no longer verifies, where every entry did before |
| Reached.MismatchAnswered | src/sort4circ_dpp/api.py:248-284 | and a run of these four requests and one drain, against a ledger that confirms at once, at the end of which `verify` answers `mismatch` for an entry |
| StoreSteps.StaleTagRefused | src/sort4circ_dpp/store.py:311-319 | an update under the entity tag of another version than the current one is refused and changes nothing |
| StoreSteps.NoLostUpdate | src/sort4circ_dpp/store.py:310-319 | of two updates carrying the entity tag of one version, the second is refused after the first is accepted |
| EntityTag.ETagNamesVersion | src/sort4circ_dpp/store.py:362-366 | the entity tag of one version of a passport matches another version iff they are the same |
| EntityTag.TagText | src/sort4circ_dpp/store.py:362-366 | the tag is `dpp-`, the part of the identifier behind its last colon, `-v` and the version, in quotes; it matches with or without quotes, and so does a star |
| StoreCarriers.WriteKeepsOwner | src/sort4circ_dpp/store.py:209-239 | in every state, an identifier that belongs to a passport belongs to it after a write, accepted or rejected, iff the write is no commission for another passport that passes the ownership checks while that passport's record shows the identifier commissioned |
| StoreCarriers.WriteKeepsOwners | src/sort4circ_dpp/store.py:209-239 | so a write keeps every owner iff it takes no identifier in this way |
| StoreCarriers.WriteKeepsMaps | src/sort4circ_dpp/store.py:220-262 | no write, in any state, makes index and retired map name different passports for one identifier, or a passport that is not stored |
| StoreCarriers.AgreementTakesNothing | src/sort4circ_dpp/store.py:209-239 | while bindings and index agree, no commission takes an identifier |
| StoreCarriers.WriteKeepsCarriers | src/sort4circ_dpp/store.py:148-262 | while they agree, every write, late rejections included, keeps all owners; they go on agreeing iff the record the write commits shows what the maps allow: its own carriers, only the last open, and the binding the index names |
| StoreCarriers.ResolveIsSound | src/sort4circ_dpp/store.py:285-297 | in every state a resolved record is of the passport that owns the identifier; where the index names for it only a passport that shows it commissioned, that one does, and while bindings and index agree it is its open binding |
| StoreCarriers.ResolveIsComplete | src/sort4circ_dpp/store.py:285-297 | where the index names the passport for an identifier its record shows commissioned, the identifier leads to it; where the index names only such a passport, an identifier resolves to it iff its record shows it commissioned and it is not retired |
| StoreCarriers.RejectedCommissionChanges | src/sort4circ_dpp/store.py:209-262 | in every state, a rejected commission leaves the store unchanged iff it failed an ownership check or each carrier its record shows commissioned has left the index and is retired as its own; the docstring promises it always |
| StoreCarriers.AgreedRejectionChanges | src/sort4circ_dpp/store.py:209-262 | while bindings and index agree: iff it failed an ownership check or the passport had no indexed binding |
| Reached.ClaimedByRejected | src/sort4circ_dpp/store.py:233-243 | from any state whose maps agree and for every profile that accepts the creation: a passport is created with a commissioned carrier nobody owns; it has no indexed binding, and a later request for it, rejected as incomplete, makes it the owner |
| StoreCarriers.IncompleteRequestLosesBinding | src/sort4circ_dpp/store.py:233-243 | for example a request without `carrierType`, in every state: the record still shows its carrier commissioned, and the identifier no longer resolves |
| StoreCarriers.WriteKeepsIndexed | src/sort4circ_dpp/store.py:233-262 | in every state, a passport indexed for an identifier it may show commissioned stays so through a write iff the write neither closes it (a commission past the ownership checks whose record shows it too, unless it replaces it) nor is another one that commits it while the index does not name the passport |
| StoreCarriers.WriteKeepsBacked | src/sort4circ_dpp/store.py:233-262 | in every state, an index entry that names a passport showing the identifier commissioned stays so, or goes, iff the write is none but a commission that commits this passport's record without it |
| StoreCarriers.WriteKeepsSingle | src/sort4circ_dpp/store.py:9-10 | in every state, a record that shows at most one commissioned carrier does so after a write iff the write is none but a commission that commits two |
| StoreCarriers.CommissionLeavesOne | src/sort4circ_dpp/store.py:233-262 | from every state, an accepted commission leaves exactly one carrier commissioned, the last, with the identifier asked for |
| StoreCarriers.AgreedCloses | src/sort4circ_dpp/store.py:233-262 | while bindings and index agree a commission closes no other passport's carrier, and its own open binding exactly when it passes the ownership checks and fails a later one |
| StoreCarriers.CreatedCarriersDecide | src/sort4circ_dpp/store.py:150-169 | an accepted creation keeps the binding invariant iff its payload has no carriers |
| Reached.CreatedBound | src/sort4circ_dpp/store.py:150-169 | reached, for every profile that accepts the record: a creation with carriers is accepted and breaks the agreement |
| StoreCarriers.PatchedCarriersDecide | src/sort4circ_dpp/store.py:176-187 | an accepted patch, whatever it names, keeps the agreement iff the maps allow the passport it leaves the record under to hold the carriers it leaves in it |
| StoreCarriers.ReplacedCarriersDecide | src/sort4circ_dpp/store.py:176-187 | an accepted patch that replaces the carriers keeps the agreement iff all of them belong to the passport, only the last is open, and it is the binding the index names, if any |
| StoreCarriers.RemovedCarriersDecide | src/sort4circ_dpp/store.py:176-187 | one that removes them keeps it iff the passport had no indexed binding |
| StoreCarriers.AppendedCarrierDecides | src/sort4circ_dpp/store.py:201-207 | an append keeps the agreement, but to `carriers` only if the passport already owns the identifier and has no open binding |
| StoreCarriers.UntouchedCarriersKept | src/sort4circ_dpp/store.py:176-187 | an accepted patch that names neither `carriers` nor another identifier keeps it |
| Reached.ReplacedByForeign | src/sort4circ_dpp/store.py:176-187 | an accepted patch may write a carrier whose identifier another passport owns, or none, and then breaks the agreement |
| Reached.OwnerMoved | src/sort4circ_dpp/store.py:209-239 | from any state and for every profile that accepts the creation: a passport is created with a commissioned carrier another one owns, for which the index does not name it, and a request for it that is rejected as incomplete moves the identifier to it; from then on the former owner may not commission it and the new one may |
| Reached.TakenOver | src/sort4circ_dpp/store.py:209-239 | and from the start: one passport is created and its carrier commissioned, and a second takes it in this way |
| Worker.InMemoryLedger.Submit | src/sort4circ_dpp/ledger/memory.py:26-40 | a known identifier returns its first receipt; a scheduled failure is used up, and a timeout after broadcast still stores the receipt; what it adds is bounded by `ProcessEffect` |
| Worker.InMemoryLedger.Store | src/sort4circ_dpp/ledger/memory.py:42-56 | receipt and digest are stored under the identifier, with the transaction reference hashed from the envelope; `Describes` in the system invariant keeps it so |
| Worker.InMemoryLedger.Confirm | src/sort4circ_dpp/ledger/memory.py:58-71 | only the state and time of a known receipt change; `LedgerStepKeeps` builds on it |
| Worker.InMemoryLedger.Verify | src/sort4circ_dpp/ledger/base.py:61-78 | the four verdicts, from receipt, state and anchored digest; `VerifyNeverMismatches` says which of them occur |
| EvidenceOutcomes.TransactionIs | src/sort4circ_dpp/ledger/memory.py:42-47 | a transaction is named by the hash of the canonical text of seven members of the entry, followed by its identifier |
| EvidenceOutcomes.ConfirmAnchors | src/sort4circ_dpp/ledger/memory.py:58-71 | after the ledger confirms a receipt it holds, its transaction and network stay, its time is set, no other receipt changes, and `verify` answers `match` or `mismatch` for the entry |
| Worker.Transition | src/sort4circ_dpp/evidence.py:37-43 | permitted iff listed in the table; refused transitions change nothing, `submitted` counts an attempt |
| Worker.EvidenceWorker.Process | src/sort4circ_dpp/evidence.py:80-102 | one entry and the ledger move as `Process` says, and it tells whether a forbidden transition was raised |
| Worker.EvidenceWorker.Drain | src/sort4circ_dpp/evidence.py:72-78 | the loop over the live outbox computes `Drain`, stopping at the entry that raises with the entries before it already moved |
| Worker.EvidenceWorker.Reconcile | src/sort4circ_dpp/evidence.py:104-128 | the loop computes `Reconcile`, entry by entry, ledger untouched |
| EvidenceHistory.ProcessEffect | src/sort4circ_dpp/evidence.py:80-102 | processing an entry at rest moves it legally, adds at most its own receipt, leaves entry and receipt in agreement, and raises iff the entry rested in `submitted` |
| EvidenceHistory.DrainEffect | src/sort4circ_dpp/evidence.py:72-102 | a drain, aborted or not, moves every entry legally, changes no earlier receipt, adds receipts only for its entries, and aborts iff some entry rested in `submitted` |
| EvidenceHistory.ReconcileEffect | src/sort4circ_dpp/evidence.py:104-128 | reconciliation never raises, moves every entry legally and leaves no entry open whose receipt is confirmed |
| EvidenceHistory.TerminalStays | src/sort4circ_dpp/evidence.py:26-30 | no path through the table leaves a terminal state |
| EvidenceHistory.PermittedPairs | src/sort4circ_dpp/evidence.py:21-28 | the nine permitted transitions |
| EvidenceOutcomes.DrainOutcome | src/sort4circ_dpp/evidence.py:72-102 | what a drain makes of each entry it reaches, given the ledger the entries before it leave: a settled one stays, one in `submitted` aborts, one whose attempts are used up fails for good with its reason, and any other is submitted: under a scheduled failure it ends `terminalFailed` iff that is the submit rejection and `retryableFailed` otherwise, the failure being used up; else it takes over its receipt and is confirmed, or waits in `submitted` |
| EvidenceOutcomes.ReconcileOutcome | src/sort4circ_dpp/evidence.py:104-128 | reconciliation gives each open entry the transaction and network of its receipt, confirms it with the receipt's time iff that is confirmed, and changes nothing else |
| EvidenceOutcomes.WhyFailed | src/sort4circ_dpp/evidence.py:80-95 | in every run, an entry is `terminalFailed` only if it was rejected, a rejection having been scheduled before, or failed `max_attempts` times; and it has failed no more often than failures were scheduled |
| EvidenceOutcomes.ConfirmedUnlessFailed | src/sort4circ_dpp/evidence.py:72-102 | in every run with no rejection and fewer failures scheduled than `max_attempts`, every entry is confirmed after `max_attempts` + 1 drains that did not raise |
| EvidenceOutcomes.ConfirmedGently | src/sort4circ_dpp/evidence.py:72-102 | and, with auto-confirmation and no timeout after broadcast, after as many drains of any kind |
| Retry.DrainsSettle | src/sort4circ_dpp/evidence.py:72-102 | over any stretch of any run an entry is settled or its rank has fallen by at least the number of drains in it that did not raise |
| Retry.SettledAfterDrains | src/sort4circ_dpp/evidence.py:81-84 | so after `max_attempts` + 1 drains that did not raise every entry there at the start is terminal |
| Retry.AttemptsBounded | src/sort4circ_dpp/evidence.py:81-91 | in every run whatever, `attempts` never exceeds `max_attempts` |
| Retry.CleanIff | src/sort4circ_dpp/evidence.py:72-102 | in every reachable state a drain raises iff some entry rests in `submitted` |
| Retry.SubmittedBlocks | src/sort4circ_dpp/evidence.py:74-77 | a drain never gets past an entry resting in `submitted`: that entry and all behind it stay as they are |
| Reached.DrainAborts | src/sort4circ_dpp/evidence.py:72-102 | reached, for every profile that accepts the record: a run of one creation and two drains against a ledger that does not confirm at once, whose second drain aborts and moves nothing |
| Retry.GentleRunsDrain | src/sort4circ_dpp/evidence.py:72-102 | in a run with auto-confirmation and any failures but timeouts after broadcast no drain ever raises |
| Retry.GentleRunsSettle | src/sort4circ_dpp/evidence.py:72-102 | so there every entry is terminal after `max_attempts` + 1 drains |
| Retry.ReconcileUnblocks | src/sort4circ_dpp/evidence.py:104-128 | once every receipt held is confirmed, reconciliation leaves no open entry with a receipt and none in `submitted` |
| Retry.ClearedUntilDrained | src/sort4circ_dpp/evidence.py:104-128 | from such a reconciliation up to the next drain none comes to rest there, whatever is written, broken or confirmed in between, and that drain does not raise |
| Retry.RecoveredAfterRounds | src/sort4circ_dpp/evidence.py:104-128 | in any run, `max_attempts` + 1 drains each with such a reconciliation since the drain before settle every entry there at the start, whatever timed out after broadcast or was written in between |
| Index.ReadIndex.Attach | src/sort4circ_dpp/index.py:40-45 | the loop projects every record, in any order, and catches up with the last commit |
| Index.ReadIndex.OnCommit | src/sort4circ_dpp/index.py:47-62 | the hook reprojects the committed record with its commit time; `CommitKeepsCurrent` says what that achieves |
| Index.ReadIndex.SortingView | src/sort4circ_dpp/index.py:72-110 | strong and projected reads, with the fall-back for unknown passports and the staleness refusal |
| IndexSpec.AttachIsCurrent | src/sort4circ_dpp/index.py:40-45 | after `attach` the index shows every record at its current version and has no backlog |
| IndexSpec.CommitKeepsCurrent | src/sort4circ_dpp/index.py:47-62 | the hook keeps it so, whichever record was committed |
| IndexSpec.ProjectedReadIsStrong | src/sort4circ_dpp/index.py:64-110 | while current: no backlog; a projected view equals the strong one up to its two stamps; only retired passports are served by the one and refused by the other; a read is refused as stale iff generation delay plus configured lag exceeds the limit |
| IndexSpec.ReadsShow | src/sort4circ_dpp/index.py:72-110 | a strong read shows of the current record exactly the listed members, with its last sorting decision as the prior one and no lag; a projected read, while current, the same with the lag it has |
| IndexSpec.CommitTimes | src/sort4circ_dpp/index.py:47-62 | the hook records for the committed passport alone when it was committed and projected, and catches up with that commit |
| RoundTrip.ValueRoundTrip | src/sort4circ_dpp/exchange.py:93-108 | a value written under a good name is read back as the same value iff every name determines its type at every depth: no empty objects, lists only under list names or with two items, no list directly in a list, scalars of the announced type, decimals whose text spells their value |
| RoundTrip.MembersRoundTrip | src/sort4circ_dpp/exchange.py:93-97 | the members of an object are read back iff each has a good name and a good value |
| RoundTrip.ListRoundTrip | src/sort4circ_dpp/exchange.py:98-106 | a list is read back iff its name or length shows it to be one and each item is good under the item name |
| RoundTrip.ScalarRoundTrip | src/sort4circ_dpp/exchange.py:149-157 | a scalar is read back iff it has the type its name announces and, for a number, a text that spells its value: no non-finite float does, and a whole float of 10^16 or more may not |
| ElementTree.KeyRoundTrip | src/sort4circ_dpp/exchange.py:66-75 | a member name survives its tag iff it has no `}` and does not start with a capital letter |
| Exchange.RecordRoundTrip | src/sort4circ_dpp/exchange.py:111-201 | reading what was written gives the record without its empty top-level arrays iff every member is known to the profile and good at every depth |
| Schema.SchemaRecordRoundTrip | src/sort4circ_dpp/exchange.py:111-202 | every record with the members and types of the record schema, which `to_xml` checks first, is read back from its elements so iff its members of integer type are ints and the text of each other number spells its value |
| Xsd.NumberLexical | src/sort4circ_dpp/exchange.py:84-90 | the text of a number is an xs:integer iff it is an int, and an xs:decimal iff it has no exponent and is finite |
| Xsd.DocumentNumbers | src/sort4circ_dpp/exchange.py:84-90 | the numbers in the document of such a record are what the XSD asks for iff its members of integer type are ints and none of its other numbers is written with an exponent |
| Xsd.ValidatedIsRestored | src/sort4circ_dpp/exchange.py:143-146 | and if they are, as in every document `to_xml` returns with validation on, the record is read back |
| Xsd.FloatAttemptsLost | src/sort4circ_dpp/exchange.py:143-151 | for example a record whose `attempts` is the float 1.0: the schema admits it, the XSD check in `to_xml` refuses its document, and without that check `int()` does; with the int 1 it is written and read back |
| Exchange.AppendValue | src/sort4circ_dpp/exchange.py:93-108 | the loops add one element below the parent, the written form of the value |
| Exchange.ToXml | src/sort4circ_dpp/exchange.py:111-146 | the document has the two attributes and, in profile order, one child for every member present that is not an empty array |
| DocumentForm.DocumentIs | src/sort4circ_dpp/exchange.py:111-146 | the document of every record has its two attributes and, in the order of the XSD's sequence, exactly one child for each member present that is not an empty array: a wrapper with only the one element declared in it for each row, the members of an object, or a text |
| DocumentForm.ElementIs | src/sort4circ_dpp/exchange.py:93-108 | at every depth an element is in the target namespace under its member's name with the first letter in upper case; an object has one element for each member, in order, a list one for each item, all of the name declared in its field; truth values are `true` and `false` |
| DocumentForm.UnknownIgnored | src/sort4circ_dpp/exchange.py:188-200 | a child under no name of the sequence is passed over when a document is read |
| Exchange.FromXml | src/sort4circ_dpp/exchange.py:175-202 | the loop fills the record child by child, skipping unknown names, and fails on the first malformed child |
| ScopedKeys.ScopedKeyInjective | src/sort4circ_dpp/api.py:56-59 | two scoped keys are equal iff subject, organisation, role, operation, resource and key all agree |
| Replay.KeysSeparateScopes | src/sort4circ_dpp/api.py:205-224 | two requests share a stored key iff caller, operation, key and, creation aside, passport agree |
| Replay.RepeatsFirst | src/sort4circ_dpp/store.py:118-144 | in any run, a permitted request repeated under its key gets the first response if its body is the same JSON value and a conflict otherwise, and neither changes records, history, outbox, carrier maps or memory |
| Replay.ExecutesUnlessAnswered | src/sort4circ_dpp/api.py:213-221 | a permitted request is executed iff it has no key or no earlier request with its key was answered, and then on the state as it stands |
| Replay.NeverOverwritten | src/sort4circ_dpp/store.py:137-144 | a remembered response is never replaced or dropped |
| Replay.RememberedWasAnswered | src/sort4circ_dpp/store.py:118-144 | every remembered key belongs to an earlier answered request |
| Replay.PostKeepsShape | src/sort4circ_dpp/api.py:205-357 | no request leaves the store malformed |
| Replay.RequestDoes | src/sort4circ_dpp/api.py:205-357 | a creation stores the body, an event goes to the lifecycle events and an observation to the material observations, each with the generated members it left out, and a carrier is commissioned as asked; the answer names what was written, and failures are passed on |
| Replay.PostRefuses | src/sort4circ_dpp/api.py:205-224 | who may not ask is refused, and with a key a body without canonical text is, and neither changes anything |
| Api.Handlers.Recall | src/sort4circ_dpp/store.py:118-135 | no key, unserialisable body, unknown key, conflict and replay, in that order; `ExecutesUnlessAnswered` says which occurs |
| Api.Handlers.Remember | src/sort4circ_dpp/store.py:137-144 | the canonical text and the response are stored under the key, if there is one; `NeverOverwritten` holds of it |
| Api.Handlers.CreateDpp | src/sort4circ_dpp/api.py:205-224 | the handler computes `Post` for a creation; the full view it answers with is the record itself (src/sort4circ_dpp/access.py:123-124) |
| Api.Handlers.AddEvent | src/sort4circ_dpp/api.py:286-308 | the handler computes `Post` for an event, defaults filled in |
| Api.Handlers.AddObservation | src/sort4circ_dpp/api.py:310-334 | the handler computes `Post` for an observation, request-only members dropped |
| Api.Handlers.Commission | src/sort4circ_dpp/api.py:336-357 | the handler computes `Post` for a carrier |
| Paging.Search | src/sort4circ_dpp/api.py:371-395 | a page of the sorted listing from right after the cursor's record, or from the front when the cursor is absent, empty or unknown; a next cursor iff records remain |
| Paging.SortedAscending | src/sort4circ_dpp/api.py:383-383 | records with distinct identifiers are sorted into strictly ascending (updatedAt, dppId) order |
| Paging.PageIs | src/sort4circ_dpp/api.py:379-395 | a page holds at most the asked number of records, all after the cursor's, by update time and then identifier in code point order, passes over none, and gives its last identifier as next cursor iff a record after it remains |
| Paging.TraversalIsExact | src/sort4circ_dpp/api.py:379-395 | while records are only added, with any page sizes: sort keys strictly increase across pages, no record is returned twice, and once no cursor is given every record present at the start has been returned |
| Paging.TraversalEnds | src/sort4circ_dpp/api.py:390-394 | a traversal has no more pages than the collection has records, one aside, so over a collection that stops growing it ends |
| Validation.ObservationSets | src/sort4circ_dpp/validation.py:52-68 | the loop groups the observations by their four-part key: keys in first-seen order, each group the observations of that key in order |
| Validation.CheckComposition | src/sort4circ_dpp/validation.py:71-107 | accepted iff every set's supplied mass fractions sum to at most 100.5; otherwise the first-seen set over the limit is reported with its total |
| Validation.OneSetIff | src/sort4circ_dpp/validation.py:60-68 | two observations are of one set iff they agree on source organisation, source system, method and time, absent and empty counting alike |
| Validation.CountsWhenSupplied | src/sort4circ_dpp/validation.py:86-95 | an observation raises the total of its set by its percentage iff its value is supplied and on a mass basis; the limit is 100.5 |
| Validation.SetsPartition | src/sort4circ_dpp/validation.py:60-68 | each observation is in the set of its own occasion as often as it was given and in no other, after those before it and before those after it |
| Validation.OrderIrrelevant | src/sort4circ_dpp/validation.py:92-107 | permuting the observations changes no set's total and not the verdict |
| Validation.NewOccasionsIndependent | src/sort4circ_dpp/validation.py:86-90 | observations of new occasions change no earlier set, and the whole is accepted iff both parts are |
| Validation.PrefixComposed | src/sort4circ_dpp/validation.py:92-107 | if a grown list of observations is accepted, so was every prefix of it |
| ReadZones.ReadZone.Evaluate | src/sort4circ_dpp/gateway/readzone.py:51-81 | the answer is the one determined by the call and by when that tag was last accepted, for every history of calls and every clock; the memory records exactly that |
| ReadZones.AnswerIs | src/sort4circ_dpp/gateway/readzone.py:51-81 | no tag, several, no well-formed identifier, a signal below the threshold, a repeat less than a window after the tag was last accepted, and acceptance, in that order |
| ReadZones.Spaced | src/sort4circ_dpp/gateway/readzone.py:74-81 | whatever the clock does, n further accepted reads of a tag lie at least n windows after the first |
| ReadZones.AcceptedInSpan | src/sort4circ_dpp/gateway/readzone.py:74-81 | if no two accepted reads of a tag among the calls from some point on are more than T apart, there are so few that the windows between them, one fewer than the reads, fit into T |
| ReadZones.OthersDoNotInterfere | src/sort4circ_dpp/gateway/readzone.py:75-80 | what is accepted of a tag, when and how often, depends only on the calls about that tag |

## Left out
- Runs.RunBase: runs start with the index attached to an empty store; the hook removed and restored later without `attach` is not covered.
- Schema.SchemaRecordRoundTrip: of the schema, names, types and required members are modelled; patterns, lengths, conditional requirements and vocabularies only narrow the records further.
- Xsd.ValidatedIsRestored: of the XSD, the types of numbers are modelled; the order of members inside its elements, its patterns, dates, assertions and bounds are not, and can only refuse more documents.
- Exchange.RecordRoundTrip: the case mapping of member names that begin outside ASCII, and the spellings `int()` and `Decimal()` accept that `str()` never writes are not modelled; the parsed record is not validated again.
- Exchange.AppendValue: elements are values returned to the parent, not objects shared with it; ElementTree's text form is not modelled, and of the XSD check only what `Xsd.dfy` says.
- Canonical.SameTextIffSameValue: floats are named by the decimal their shortest representation spells and, when whole, by their value; how the one is found from the other is not modelled; strings are Unicode scalar values, and object keys are strings.
- Paging.TraversalIsExact: records updated between two pages change their sort key, and the guarantee does not extend to them.
- Validation.CheckComposition: totals are exact, not floating-point sums, and the error text is not modelled.
- ReadZones.ReadZone.Evaluate: the identifier pattern is a parameter, times are exact, and the safe action attached to each reason code is not modelled.
- Store.PassportStore.Create: the one reading of the clock stands for several a few microseconds apart; the same holds for the other operations.
- Api.Handlers.CreateDpp: HTTP headers and status codes, the scope table and the reason-code problem documents are not modelled; whether the caller may make the request is a parameter. A non-finite number in a body stands for null in the record.
- Python errors other than the documented refusals (a missing key, an unhashable identifier, an entry that is no object) are folded into one outcome; malformed arrays in a patch count as append-only violations.
- The store's idempotency dictionary is kept beside the store, and the commit hook is a step of the system rather than a field holding a callback.
- The UTF-8 encoding of the canonical text, SHA-256 itself and UUID generation.
- Threads and locks, deep copies and aliasing: operations are sequential and records are values.
- The Besu ledger adapter, authentication, access views, governance gates, vocabulary and JSON Schema checks, RDF projections, command line, generators and release tools.
