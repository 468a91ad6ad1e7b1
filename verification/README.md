# Signal Desktop: verified models of contact identity, transactions and keys

This project models parts of Signal Desktop in Dafny and proves what they keep true.

- **Contacts** (`ContactBook`, `ContactMerge`, `ContactMergeProofs`, `ContactMergeChoice`,
  `ContactMergeRuns`, `ConversationController`): conversations hold up to three identifiers (service id, phone number,
  PNI) and are found through five lookup tables. `maybeMergeContacts` moves identifiers between
  conversations. `ContactBook` and `ContactMerge` say what the code does on values;
  `ConversationController` is the code on models that are updated in place, proved equal to that.
- **Conflict check** (`ConflictRules`, `ConflictProofs`, `ConflictResult`, `ConflictTwins`,
  `ConflictHeirs`, `ConflictPairs`, `ConflictTables`, `ConflictFound`, `ConflictCheck`, `Lists`): the
  loop that combines conversations sharing an identifier while the list it walks over shrinks; who
  is left, who inherits from whom, and what becomes of the lookup tables.
- **Start** (`StartUp`, `ControllerStart`): loading the conversations, filling the tables, clearing
  misfiled phone numbers and the first conflict check; exactly when the store is then one that every
  merge theorem asks for.
- **Zones** (`ZoneLock`, `ZoneMachine`, `ZoneRuns`): the re-entrant lock of the protocol store, as
  a class and as a step relation over all calls, interleaved at every `await`.
- **Protocol store** (`KeyIds`, `StoreState`, `StoreProofs`, `StoreRuns`, `StoreView`,
  `ProtocolStore`): caches, six collections of pending writes and an abstract database.
- **Identity keys** (`IdentityKeys`, `IdentityStore`, `IdentityRuns`): one key, its verified status and
  whether the user approved it, per contact.
- **Database key** (`SqlKey`), **captcha challenges** (`ChallengeRules`, `Challenge`),
  **attachment and profile envelopes** (`CryptoEnvelopes`), **orphaned files** (`OrphanCleanup`),
  **profile refresh** (`ProfileRefresh`).

Where the source updates an object step by step there is a class whose methods are proved equal to
a function on values; the theorems are about those functions and about whole runs of them.

## What turned out not to hold

Each of these has a concrete witness or an exact condition in the model.

- A supplied identifier can belong to nobody after `maybeMergeContacts`, in exactly two cases: the
  predicates `LosesPni` and `LosesAci`. The first needs a match whose two service id slots hold two
  different PNIs (`PniIsLost`). The second needs a conversation with an ACI in its pni slot
  (`PniSlotsKeepAcis`), which the store allows, since `normalizePni` only warns of a value that is no
  PNI (`UuidInPniSlotIsLost`). On stores where the pni slot holds only PNIs, and every PNI in the
  service id slot of a contact that has more than that is in the pni slot too, neither case arises;
  merges by identifiers of the right kind and `getOrCreate` keep that form (`RunsFindEverything`). The
  comment at ts/ConversationController.preload.ts:731 says that the ACI may be a PNI; the code
  throws on one (ts/util/normalizeAci.std.ts:33-37), and so does the model.
- The conflict check can combine a conversation into one that was combined away a moment before;
  then identifiers are left with no conversation (`ServiceIdIsLost`). Of two conversations that are
  rivals only of each other both are lost if and only if the one visited later has a PNI that the
  other holds, and also either a service id and no phone number, with the other holding that service
  id, or a phone number and no service id, with the other having that number (`BothLostIff`). Of any
  number of contacts that agree in all identifiers and share none with others, none is left if there
  are several and they have a PNI and just one of service id and phone number, else exactly one
  (`TwinsLeft`). On any store where contacts with a PNI and just one of service id and phone number
  have no rivals, and whoever rivals a rival of a contact with a service id or phone number alone is
  its rival too,
  every merge is into a listed conversation and everybody's data is with somebody who is left
  (`EverybodyHasAnHeir`).
- The conflict check drops a phone number by setting the attribute alone, so the table of phone
  numbers is not told. From sound tables (every entry is a listed conversation with that key) it ends
  with sound tables if and only if no visit drops the number of a conversation that is the entry of
  that number at that moment (`DoCheckForConflicts` with `StaleIffDropped`). `EntryGoesStale` is a
  store where one does. Right after loading it never happens (`FilledIsNeverStale`).
- Sound is not complete: after loading and the check a conversation can be listed with a PNI by which
  `get` does not find it, since `#addToLookup` had preferred one that the check combined away
  (`SurvivorNotFound`). Loading also clears a service id from the slot of the phone number without
  telling the table. Where nothing was cleared, survivors are found by service id, phone number and
  group id, and by PNI exactly if they have a service id or were alone with their PNI when loaded
  (`SurvivorFound`). The tables are exact after a start if and only if nothing was cleared and every
  survivor is found (`StartedExactIff`). For well-typed contacts, of which none is cleared, the store
  is then the valid one that merges need exactly if every survivor is found by its PNI
  (`StartedValidIff`), and always if every contact with a PNI has a service id (`StartedValid`).
- A top-level commit that throws never leaves its zone: no waiting call ever runs again, and what it
  took is lost (`FailedCommitSticks`). A body that awaits a call for another zone waits on itself (`WaitsOnItself`).
- A call that enters its zone during the commit or revert of the last holder can end at depth two,
  and its pending writes outlive the zone (`DirtyRelease`). The release is clean if and only if every
  write made meanwhile was saved by a commit inside a body, and so was every use of a kyber prekey
  that a revert left pending (`CleanReleaseIff`).
- A reverted use of a last-resort kyber prekey stays pending. The next commit that removes its key
  fails on the foreign key and discards the leftover; the same removal tried again goes through
  (`LeftoverBlocksRemovalOnce`). After a failed commit a pending use is forgotten and would be
  accepted again (`FailedCommitForgets`), and so it is by a restart; from when it is in the table it is
  refused for as long as its key is there (`StoredUseIsRefused`).
- `removeSenderKey` does not look at pending sender keys (`RemoveSenderKeyIff`).
- An encrypted profile of no data cannot be decrypted (`ProfileRoundTripIff`), items with a zero
  byte come back shortened (`ItemRoundTripIff`), and a family name without a given name comes back
  as a given name (`NameRoundTripIff`). A digest shorter than ours is compared as a prefix
  (`DigestAcceptedIff`).

## Assumptions

- The identifiers a merge is called with are a service id (UUID layout or `PNI:` prefix) or a phone
  number in E.164 form, so the two kinds never collide; local ids and group ids are not identifiers.
  The normalizers change nothing; that of ACIs throws on a PNI. The local id of a new conversation
  is a parameter not yet in use.
- Strings that the source treats as absent when empty are `None`; an `Option` is never an empty
  string in the attributes of a conversation.
- In the conflict check groups hold no service id, phone number or PNI of a person. For the tables after
  a start, groups with one group id are of one kind, and contacts have none.
- Zones are compared by identity and their flags are arbitrary. For the data of the store, each
  operation in a zone, each inner commit, each end of a zone and each restart (the caches filled from the
  tables, nothing pending) is one step; for the lock, nothing is.
  A body that commits inside awaits nothing else meanwhile, as the operations of the store do.
- A write to the database either applies or fails, chosen by a parameter `ok`; `commitDecryptResult`
  also fails on the foreign key and the unique constraint of the triples
  (ts/sql/Server.node.ts:1176-1202, ts/sql/migrations/1470-kyber-triple.std.ts:6-15).
- Session, sender key and prekey records are opaque; hydrating a cache entry does not change it.
- Identity operations on one service id do not overlap, and their database writes succeed.
- Ciphers, MAC and hash are parameters with the laws in `Primitives.Lawful`; random bytes, clocks,
  the user's answers and the size rule for padding are parameters.

## Model

| member | source | states |
|---|---|---|
| ContactBook.LookupServiceId | ts/ConversationController.preload.ts:445-464 | On an exact, disjoint store `get` of a service id finds a conversation exactly if that conversation holds it in either slot |
| ContactBook.LookupE164 | ts/ConversationController.preload.ts:445-464 | The same for phone numbers with their plus sign |
| ContactBook.LookupDigits | ts/ConversationController.preload.ts:457 | Digits find exactly the conversation whose phone number they are with a plus sign in front |
| ContactBook.LookupGroupId | ts/ConversationController.preload.ts:460 | A group id that is no identifier finds exactly the conversation that has it |
| ContactBook.LookupLocalId | ts/ConversationController.preload.ts:461 | A local id that is none of these finds exactly its own conversation |
| ContactBook.LookupIsFirst | ts/ConversationController.preload.ts:455-462 | For any key and exact tables: `get` finds a conversation exactly if it comes upon it at an earlier attempt than upon any other, in the order phone number, phone number after a plus sign, service id, PNI, group id, local id |
| ContactBook.UpdateKeepsValid | ts/ConversationController.preload.ts:1868-1926 | `idUpdated` after writing an identifier nobody else owns keeps every table exact and the store disjoint |
| ContactBook.UpdateNeedsDisjoint | ts/ConversationController.preload.ts:1874-1886 | Because the old key is deleted whoever owns it, clearing a value that two conversations share leaves a table inexact |
| ContactBook.AddKeepsValid | ts/ConversationController.preload.ts:1960-2019 | Adding a conversation with free identifiers keeps exactness and disjointness |
| ContactBook.RemoveKeepsValid | ts/ConversationController.preload.ts:2021-2078 | Removing a conversation keeps exactness and disjointness |
| ContactBook.RemoveTakesOwnEntries | ts/ConversationController.preload.ts:2021-2078 | Whatever the tables hold, each loses just the entry under the identifier of the removed conversation, and only if that entry is its own |
| ContactMergeProofs.AssignSpec | ts/ConversationController.preload.ts:941-943 | Giving a target an identifier nobody else holds keeps the store valid and changes that one record |
| ContactMergeProofs.ClearSpec | ts/ConversationController.preload.ts:917-933 | Taking an identifier from a match keeps the store valid and changes that one record |
| ContactMergeProofs.MoveSpec | ts/ConversationController.preload.ts:917-958 | Clearing the match first and setting the target second keeps every table exact; the match is merged exactly if it is left without identifiers |
| ContactMergeProofs.CreateSpec | ts/ConversationController.preload.ts:486-574 | `getOrCreate` for an identifier not yet known keeps the store valid |
| ContactMergeProofs.MergeFindsResult | ts/ConversationController.preload.ts:732-1021 | It throws exactly without any identifier or with a PNI as ACI. Otherwise, for every valid store, the result is a conversation of a valid store, and `get` of each supplied identifier returns it, except exactly in the two losing cases, where it returns nothing |
| ContactMergeChoice.ResultIsChosen | ts/ConversationController.preload.ts:836-893 | The result is the ACI's match, else the phone number's, else the PNI's. For an ACI that matched nothing the match is taken exactly if its service id is absent, its own PNI or the supplied one; for a phone number that matched nothing the PNI's match is taken exactly if it has no phone number; else a new conversation is made |
| ContactMergeChoice.ResultKeepsRest | ts/ConversationController.preload.ts:89-135 | What was not supplied stays on the result: the phone number, the PNI unless the phone number is new, and, without an ACI supplied, a service id that is neither its own nor the supplied PNI |
| ContactMergeRuns.MergeTouchesOnlyMatches | ts/ConversationController.preload.ts:897-958 | Conversations that did not match are unchanged, matches only lose identifiers and keep a service id that is neither their own nor the supplied PNI, and the merges started are exactly those of matches left bare, never of the result |
| ContactMergeRuns.MergeKeepsRegular | ts/ConversationController.preload.ts:812-990 | Merges by identifiers of the right kind keep a store regular: only PNIs in pni slots, and a PNI in the service id slot also in the pni slot unless it is all the contact has |
| ContactMergeRuns.RegularLosesNothing | ts/ConversationController.preload.ts:732-1021 | On such stores neither losing case arises |
| ContactMergeRuns.PniSlotsKeepAcis | ts/ConversationController.preload.ts:862-893 | Where pni slots hold only PNIs no supplied ACI is ever lost |
| ContactMergeRuns.RunsFindEverything | ts/ConversationController.preload.ts:486-1021 | Over any run of merges and `getOrCreate` with identifiers of the right kind every call finds all its identifiers in its result |
| ContactMergeRuns.AcisStay | ts/ConversationController.preload.ts:486-1021 | Over any run of merges and `getOrCreate` with identifiers of the right kind an ACI that some conversation has stays with some conversation |
| ContactMergeRuns.PniIsLost | ts/ConversationController.preload.ts:862-893 | A store and call after which the supplied PNI belongs to nobody |
| ContactMergeRuns.FindKeeps | ts/ConversationController.preload.ts:486-574 | `getOrCreate` finds what it was asked for and keeps the store regular, also where it makes a contact with nothing but a PNI |
| ContactMergeRuns.UuidInPniSlotIsLost | ts/ConversationController.preload.ts:98-103 | A store with an ACI in a pni slot and a call after which that ACI belongs to nobody |
| ConversationController.Controller.Get | ts/ConversationController.preload.ts:445-464 | Returns the model the specification's lookup names |
| ConversationController.Controller.IdUpdated | ts/ConversationController.preload.ts:1868-1926 | Deletes the old key, maps the new one to this model, touches one table only |
| ConversationController.Controller.UpdateServiceId | ts/models/conversations.preload.ts:2206-2228 | The new state is the specified update of the old; nothing happens for an equal value |
| ConversationController.Controller.UpdateE164 | ts/models/conversations.preload.ts:2188-2204 | The same for phone numbers |
| ConversationController.Controller.UpdatePni | ts/models/conversations.preload.ts:2253-2326 | The same for PNIs |
| ConversationController.Controller.ApplyChange | ts/ConversationController.preload.ts:89-135 | A new phone number erases the PNI, a PNI fills an empty or PNI-holding service id slot, an erased PNI leaves that slot |
| ConversationController.Controller.AddToTable | ts/ConversationController.preload.ts:1974-1984 | One table: an existing entry gives way unless it is the better contact |
| ConversationController.Controller.AddToLookup | ts/ConversationController.preload.ts:1960-2019 | All four tables, as specified; a group takes the entry in any case |
| ConversationController.Controller.AddConversation | ts/ConversationController.preload.ts:350-353 | The list grows by one and the tables are those of the specification |
| ConversationController.Controller.RemoveConversation | ts/ConversationController.preload.ts:374-376 | The model leaves the list and every table entry that is its own |
| ConversationController.Controller.RemoveFromTable | ts/ConversationController.preload.ts:2034-2044 | One table: the entry of another model stays |
| ConversationController.Controller.DangerouslyRemoveById | ts/ConversationController.preload.ts:477-484 | Removes what `get` finds, or nothing |
| ConversationController.Controller.GetOrCreate | ts/ConversationController.preload.ts:486-574 | Returns the found conversation or a new one, as specified |
| ConversationController.Controller.PlaceUnused | ts/ConversationController.preload.ts:836-893 | Target, else match that can take it, else new conversation: same host and state as specified |
| ConversationController.Controller.MoveIdentifier | ts/ConversationController.preload.ts:917-958 | Same state and same merges as specified |
| ConversationController.Controller.ProcessMatch | ts/ConversationController.preload.ts:812-990 | One round of the loop, same state, target, unused identifiers and merges as specified |
| ConversationController.Controller.MaybeMergeContacts | ts/ConversationController.preload.ts:732-1021 | The whole method agrees with the function the merge theorems are about; it throws exactly without any identifier or with a PNI as ACI |
| ConflictProofs.MeetsItself | ts/ConversationController.preload.ts:1157-1163 | The assertion that PNI equals service id holds |
| ConflictCheck.CheckPni | ts/ConversationController.preload.ts:1153-1188 | The PNI branch, with that assertion checked at every visit of the loop |
| ConflictProofs.CombineIs | ts/ConversationController.preload.ts:1290-1310 | Combining removes the obsolete conversation and notes the merge exactly if it is still listed and both are contacts or both groups |
| ConflictProofs.VisitDirect | ts/ConversationController.preload.ts:1120-1231 | Visiting a contact keeps what the three local tables know |
| ConflictResult.NextInPlace | ts/ConversationController.preload.ts:1113-1118 | The list shrinks under the loop, yet the conversation to visit next is still at its position |
| ConflictResult.SurvivorsDistinct | ts/ConversationController.preload.ts:1103-1279 | No two survivors share a service id, a PNI, a phone number or a version two group id |
| ConflictResult.EveryoneAccounted | ts/ConversationController.preload.ts:1103-1279 | Every conversation survives or was combined into another one exactly once, and the only attribute written is a dropped phone number |
| ConflictResult.OneGroupLeft | ts/ConversationController.preload.ts:1233-1275 | Of groups with one version two id exactly one survives, of version two if any was |
| ConflictResult.UnbeatenStays | ts/ConversationController.preload.ts:1120-1275 | Who wins: contacts with service id and phone number beat those visited before, contacts with only one of the two and no PNI yield, version two groups beat others, and two contacts with different service ids that share a phone number both survive, the later one with the number. An unbeaten conversation survives, unchanged unless its number is taken |
| ConflictResult.ServiceIdIsLost | ts/ConversationController.preload.ts:1140-1148 | A store in which a conversation is combined into one already combined away, and its service id is gone |
| ConflictTwins.TwinsLeft | ts/ConversationController.preload.ts:1120-1231 | Of any number of contacts that agree in all identifiers and share none with others, exactly one is left if there is but one, if they have no PNI, or if they have service id and phone number or neither; else none is left |
| ConflictPairs.BothLostIff | ts/ConversationController.preload.ts:1120-1231 | For two conversations that are rivals only of each other: both are gone, and so is the data of both, exactly under the stated condition on the two; otherwise following the merges from either ends at one that is left |
| ConflictHeirs.EverybodyHasAnHeir | ts/ConversationController.preload.ts:1120-1310 | If contacts with a PNI and just one of service id and phone number have no rivals, and rivals of rivals of a contact with a service id or phone number alone are its rivals, every merge is into a conversation still listed, and following the merges from any conversation ends at one that is left |
| ConflictTables.EntryWhenDropped | ts/ConversationController.preload.ts:1194-1208 | A conversation that loses its number is the entry of that number at that moment exactly if it was the entry at the start and is still listed |
| ConflictTables.PhonesSoundIff | ts/ConversationController.preload.ts:1202-1208 | The entries of the table of phone numbers end sound exactly if none of them lost its number while listed |
| ConflictTables.StaleIffDropped | ts/ConversationController.preload.ts:1194-1208 | An entry of the table loses its number while listed exactly if some visit drops the number of the conversation that is its entry at that moment |
| ConflictTables.EntryGoesStale | ts/ConversationController.preload.ts:1194-1208 | A store and a table with a conversation that the check leaves without its number |
| ConflictTables.LoadedIsRight | ts/ConversationController.preload.ts:2080-2084 | In tables filled in list order the entry of a value is the first better conversation with it (a phone number makes better for service ids, a service id for the others), else the last of all |
| ConflictTables.FilledIsNeverStale | ts/ConversationController.preload.ts:1194-1208 | No entry of such a table ever loses its number in the check |
| ConflictFound.ServiceIdFound | ts/ConversationController.preload.ts:1120-1148 | Whoever survives the check was the entry of its service id when the tables were filled |
| ConflictFound.PhoneFound | ts/ConversationController.preload.ts:1190-1231 | The same for a phone number it kept |
| ConflictFound.PniFoundIff | ts/ConversationController.preload.ts:1153-1188 | For a PNI exactly if it has a service id or nobody else was loaded with that PNI |
| ConflictFound.GroupFound | ts/ConversationController.preload.ts:1233-1275 | The same as for service ids for the group id of a group |
| ConflictCheck.CombineConversations | ts/ConversationController.preload.ts:1290-1310 | Removes the obsolete conversation unless it is gone already or of another type; a repeated merge does nothing |
| ConflictCheck.DoCheckForConflicts | ts/ConversationController.preload.ts:1103-1279 | The loop over the shrinking list visits every conversation of the initial list exactly once and computes the specified result; started with sound tables the whole store afterwards is the one specified, and its tables are sound exactly if no phone table entry lost its number while listed |
| ControllerStart.GenerateLookups | ts/ConversationController.preload.ts:2080-2084 | All four tables are those that adding the conversations in list order gives |
| ControllerStart.ClearMisfiled | ts/ConversationController.preload.ts:1797-1808 | Exactly the phone numbers that are service ids are cleared, where there is a service id |
| ControllerStart.Start | ts/ConversationController.preload.ts:1769-1810 | Loading and the first check give the store that the start theorems are about, with sound tables exactly if no number was cleared |
| StartUp.StartedExactIff | ts/ConversationController.preload.ts:1769-1810 | After a start all four tables are exact if and only if no number was cleared and no survivor has a PNI, no service id and loaded rivals for that PNI |
| StartUp.StartedValidIff | ts/ConversationController.preload.ts:1769-1810 | For well-typed contacts the store after a start is exact and disjoint exactly if there is no such survivor |
| StartUp.StartedValid | ts/ConversationController.preload.ts:1769-1810 | In particular if every contact with a PNI has a service id, whatever conflicts there are |
| StartUp.SurvivorFound | ts/ConversationController.preload.ts:1103-1279 | A survivor is found in every slot, but by its PNI exactly if it has a service id or was alone with it |
| StartUp.SurvivorNotFound | ts/ConversationController.preload.ts:1165-1176 | A store whose survivor has a PNI by which `get` does not find it |
| StartUp.RunsFromStart | ts/ConversationController.preload.ts:486-1021 | From such a start on, over any run of proper calls, every call finds all its identifiers in its result |
| ZoneLock.BatchIsMaximal | ts/SignalProtocolStore.preload.ts:1371-1384 | The batch let in is the longest part of the queue that asks for one zone |
| ZoneLock.LeaveKeepsSane | ts/SignalProtocolStore.preload.ts:1349-1391 | After leaving, the queue head never asks for the current zone, nothing is lost from the queue, and a hand-over shortens it |
| ZoneLock.ZoneGate.BeginWithZone | ts/SignalProtocolStore.preload.ts:1159-1191 | Enters or queues, as the guard says |
| ZoneLock.ZoneGate.EnterZone | ts/SignalProtocolStore.preload.ts:1337-1347 | Counts one more holder and sets the zone for the first |
| ZoneLock.ZoneGate.TakeBatch | ts/SignalProtocolStore.preload.ts:1371-1384 | The draining loop takes exactly the batch |
| ZoneLock.ZoneGate.LeaveZone | ts/SignalProtocolStore.preload.ts:1349-1391 | Both assertions hold, and the new lock and the calls let in are those of the specification |
| ZoneMachine.StepKeepsInv | ts/SignalProtocolStore.preload.ts:1159-1209 | Every step of every interleaving, commits inside bodies included, keeps the lock invariant, and each write is in one place: pending, taken by one commit, in the database, or lost |
| ZoneRuns.ZoneExclusion | ts/SignalProtocolStore.preload.ts:1159-1209 | In every reachable state all holders hold the current zone, the depth is their number, and the queue head asks for another zone |
| ZoneRuns.QueueConserved | ts/SignalProtocolStore.preload.ts:1349-1391 | Every call is exactly one of queued, holding and finished, and queued calls go in in the order they came |
| ZoneRuns.HandOver | ts/SignalProtocolStore.preload.ts:1368-1391 | A hand-over lets in a maximal same-zone batch and strictly shortens the queue |
| ZoneRuns.SomeoneCanGo | ts/SignalProtocolStore.preload.ts:1193-1209 | While bodies only await their own zone and no commit throws, some call can always take its next step |
| ZoneRuns.BeginKeepsOwnZone | ts/SignalProtocolStore.preload.ts:1166-1193 | What a running body awaits in its own zone goes in at once, past any queue |
| ZoneRuns.EverythingFinishes | ts/SignalProtocolStore.preload.ts:1159-1209 | From any such state everything finishes, within a bound, without new calls |
| ZoneRuns.RunsEnd | ts/SignalProtocolStore.preload.ts:1159-1209 | No run without new calls, writes, new commits inside bodies and failing top-level commits is longer than that bound |
| ZoneRuns.StuckForever | ts/SignalProtocolStore.preload.ts:1203-1206 | While a call is stuck its zone is held and no waiting call goes in, over any run |
| ZoneRuns.FailedCommitSticks | ts/SignalProtocolStore.preload.ts:1203-1206 | A top-level commit that throws makes its call stuck: over any run from there its zone stays held, nobody is let in, and nothing the commit took ever reaches the database |
| ZoneRuns.TopCommitIsAtomic | ts/SignalProtocolStore.preload.ts:1193-1313 | All that is pending when the last body of a zone returns is in the database once its commit is done, whatever comes after; if the commit throws none of it ever is, and the call stays stuck |
| ZoneRuns.WaitsOnItself | ts/SignalProtocolStore.preload.ts:1166-1191 | A body that awaits another zone never ends and what it awaits never starts |
| ZoneRuns.CleanReleaseIff | ts/SignalProtocolStore.preload.ts:1193-1206 | A zone is released with nothing pending exactly if every write made since its last body ended, and every kyber use a revert left, was saved by a commit inside a body |
| ZoneRuns.OrderlyReleasesAreClean | ts/SignalProtocolStore.preload.ts:1203-1206 | If nobody enters during a top-level commit or revert, the zone is only ever free with nothing pending but kyber uses a revert left |
| ZoneRuns.OnlyLateWritesOutlive | ts/SignalProtocolStore.preload.ts:1203-1206 | In any run, what outlives a zone was written by calls that entered during its last commit or revert, or is a kyber use that revert left |
| ZoneRuns.ReturnedWritesAreDurable | ts/SignalProtocolStore.preload.ts:1203-1206 | What was pending when the last body of a zone returned is in the database once that call is finished |
| ZoneRuns.ThrownWritesAreGone | ts/SignalProtocolStore.preload.ts:1195-1201 | What was pending when the last body of a zone threw never gets to the database, except kyber uses |
| ZoneRuns.UseOutlivesRevert | ts/SignalProtocolStore.preload.ts:1316-1331 | A run after which a use of a kyber prekey is pending in a free zone |
| ZoneRuns.InnerCommitIsAtomic | ts/SignalProtocolStore.preload.ts:1495-1502 | A commit inside a body brings all that was pending to the database, whoever wrote it, or loses all of it for good |
| ZoneRuns.NothingEarly | ts/SignalProtocolStore.preload.ts:1493-1508 | In a zone that holds every kind of write back nothing reaches the database before a top-level commit |
| ZoneRuns.EarlyWrite | ts/SignalProtocolStore.preload.ts:1493-1508 | In any other zone something can: a run in which a write is in the database while the body goes on |
| ZoneRuns.EarlyLoss | ts/SignalProtocolStore.preload.ts:1495-1502 | A run in which such a commit throws: the write is lost and the body goes on |
| ZoneRuns.CommitThrows | ts/SignalProtocolStore.preload.ts:1203-1206 | A run in which a top-level commit throws: the write is lost and the zone is held by nobody but the stuck call |
| ZoneRuns.DirtyRelease | ts/SignalProtocolStore.preload.ts:1203-1206 | A run after which a write outlives its zone into the next one |
| KeyIds.KeyIdInjective | ts/SignalProtocolStore.preload.ts:388-390 | Different prekeys have different ids |
| KeyIds.TripleKeyInjective | ts/SignalProtocolStore.preload.ts:225-231 | Different triples have different cache keys, whatever colons their ids contain |
| KeyIds.TriplePrefixExact | ts/SignalProtocolStore.preload.ts:1273-1283 | A prekey id and a colon is a prefix of exactly the triples of that prekey |
| KeyIds.PniPrefixExact | ts/SignalProtocolStore.preload.ts:2568-2589 | A PNI and a colon is a prefix of exactly the prekeys of that PNI |
| KeyIds.PrefixNeedsWellFormed | ts/SignalProtocolStore.preload.ts:2568-2589 | With malformed service ids the prefix would name somebody else's prekeys |
| StoreProofs.CommitIsAtomic | ts/SignalProtocolStore.preload.ts:1211-1313 | A commit succeeds exactly if the database is up to it and the overlay keeps the foreign key; then database and caches are the overlay, else both are as before; nothing is pending after |
| StoreProofs.CommitKeepsLoads | ts/SignalProtocolStore.preload.ts:1211-1313 | A successful commit changes the answer of no load |
| StoreProofs.InsertableIff | ts/sql/Server.node.ts:1176-1202 | Given the duplicate check, only the foreign key can refuse a pending triple |
| StoreProofs.PrefixMatchesCascade | ts/SignalProtocolStore.preload.ts:1273-1283 | A cached use starts with the id of a removed key and a colon exactly if that is the key it is a use of |
| StoreProofs.UsesAfterCommit | ts/sql/Server.node.ts:1793-1854 | After a successful commit a use is in the table exactly if it was pending, or it was there and its key was not removed; the cache forgets exactly the uses of removed keys |
| StoreProofs.UsesAfterForget | ts/sql/Server.node.ts:1168-1175 | Forgetting a PNI takes exactly the uses of the keys of that PNI from the table |
| StoreProofs.RevertIsClean | ts/SignalProtocolStore.preload.ts:1316-1331 | After a revert every load answers from the database; only pending triples stay |
| StoreProofs.HydratedInv | ts/SignalProtocolStore.preload.ts:294-384 | Freshly filled caches mirror the database and remember exactly the uses in the table |
| StoreRuns.RunKeepsInv | ts/SignalProtocolStore.preload.ts:1393-1436 | Over any run the caches mirror the database and the four loads answer from database and pending writes |
| StoreRuns.ZoneIsAtomic | ts/SignalProtocolStore.preload.ts:1211-1331 | Writes a zone holds back reach the database all together or not at all |
| StoreRuns.ForgetKeepsInv | ts/SignalProtocolStore.preload.ts:2561-2605 | `removeOurOldPni` removes the same prekeys from caches and database |
| StoreRuns.NeverAcceptedTwice | ts/SignalProtocolStore.preload.ts:536-584 | While no commit fails or removes the key, and no restart comes before the use is in the table, a use once remembered is never accepted again |
| StoreRuns.StoredUseIsRefused | ts/SignalProtocolStore.preload.ts:327-335 | A use that is in the table is refused over any run in which its key stays in the table, with any failing commits, reverts, removals and restarts |
| StoreRuns.CommitStores | ts/SignalProtocolStore.preload.ts:1240-1259 | A commit that succeeds puts every pending use in the table |
| StoreRuns.RestartKnowsStored | ts/SignalProtocolStore.preload.ts:327-335 | After a restart exactly the uses in the table are remembered |
| StoreRuns.AcceptedIsRemembered | ts/SignalProtocolStore.preload.ts:536-584 | An accepted use is remembered |
| StoreRuns.FailedCommitForgets | ts/SignalProtocolStore.preload.ts:1240-1259 | A failed commit forgets every pending use |
| StoreRuns.LeftoverBlocksRemovalOnce | ts/SignalProtocolStore.preload.ts:1326-1330 | With a use left over from a revert the next commit that removes its key fails and changes only that nothing is pending; the same removal tried again removes key and triples |
| StoreRuns.RemoveSenderKeyIff | ts/SignalProtocolStore.preload.ts:1041-1063 | A removed sender key is gone for loads exactly if no write of it is pending |
| StoreView.DoRefines | ts/SignalProtocolStore.preload.ts:950-1039 | Every operation, also those that bypass the zones, does to the view what the simple form, a database with one current view, does |
| StoreView.VerdictRefines | ts/SignalProtocolStore.preload.ts:536-584 | A use of a kyber prekey is answered as the simple form answers |
| StoreView.RunRefines | ts/SignalProtocolStore.preload.ts:1159-1436 | Over every run the store is the simple form run by itself: same database, same loads, same answers to uses |
| ProtocolStore.Database.CommitDecryptResult | ts/sql/Server.node.ts:1793-1854 | One transaction, rows inserted one by one: the overlay or nothing. It succeeds exactly if every pending use is new and of a key that is there and not removed; then the table has the pending uses and those it had of keys not removed |
| ProtocolStore.Database.RemoveKyberPreKeysByServiceId | ts/sql/Server.node.ts:1168-1175 | Exactly the keys of that owner go, and exactly their uses |
| ProtocolStore.SignalProtocolStore.CommitZoneChanges | ts/SignalProtocolStore.preload.ts:1211-1313 | Swaps the pending collections, commits, applies to the caches: the specified new state |
| ProtocolStore.SignalProtocolStore.ForgetKyberPreKeys | ts/SignalProtocolStore.preload.ts:1273-1283 | The loop removes the keys and exactly the cached triples with one of the prefixes |
| ProtocolStore.SignalProtocolStore.RevertZoneChanges | ts/SignalProtocolStore.preload.ts:1316-1331 | Clears all pending collections but the triples |
| ProtocolStore.SignalProtocolStore.LoadSession | ts/SignalProtocolStore.preload.ts:1393-1436 | Answers as specified and changes only whether entries are hydrated |
| ProtocolStore.SignalProtocolStore.StoreSession | ts/SignalProtocolStore.preload.ts:1453-1509 | Pending, or committed at once in a zone that does not hold sessions back |
| ProtocolStore.SignalProtocolStore.RemoveSession | ts/SignalProtocolStore.preload.ts:1622-1638 | Removes from database, cache and pending writes, or nothing |
| ProtocolStore.SignalProtocolStore.SaveSenderKey | ts/SignalProtocolStore.preload.ts:950-991 | As `StoreSession`, with a failing commit swallowed |
| ProtocolStore.SignalProtocolStore.GetSenderKey | ts/SignalProtocolStore.preload.ts:993-1039 | Answers as specified; a pending key never leaks into the cache, since pending keys are hydrated |
| ProtocolStore.SignalProtocolStore.LoadPreKey | ts/SignalProtocolStore.preload.ts:626-659 | Not found while its removal is pending |
| ProtocolStore.SignalProtocolStore.LoadKyberPreKey | ts/SignalProtocolStore.preload.ts:431-445 | Not found while its removal is pending |
| ProtocolStore.SignalProtocolStore.StorePreKeys | ts/SignalProtocolStore.preload.ts:676-714 | Stores all keys, or none if one is there already |
| ProtocolStore.SignalProtocolStore.RemovePreKeys | ts/SignalProtocolStore.preload.ts:716-743 | Pending, or committed at once in a zone that does not hold removals back |
| ProtocolStore.SignalProtocolStore.AddUnprocessed | ts/SignalProtocolStore.preload.ts:2518-2529 | Pending, or committed at once in a zone that does not hold them back |
| StoreState.StorePreKeys | ts/SignalProtocolStore.preload.ts:676-714 | It stores exactly if none of the keys is there; then they load unless their removal is pending, and no other load changes |
| StoreState.StoreKyberPreKeys | ts/SignalProtocolStore.preload.ts:496-534 | The same for kyber prekeys |
| ProtocolStore.SignalProtocolStore.MaybeRemoveKyberPreKey | ts/SignalProtocolStore.preload.ts:536-584 | Removes an ordinary key; remembers a use of a last-resort key or refuses it |
| ProtocolStore.SignalProtocolStore.RemoveOurOldPni | ts/SignalProtocolStore.preload.ts:2561-2605 | The loops over the caches remove by prefix, the tables lose by owner, and the state is the specified one |
| IdentityKeys.SaveIdentity | ts/SignalProtocolStore.preload.ts:2098-2217 | A key is replaced exactly if another is there, overwriting is allowed and it is not ours; verified and unverified become unverified, default stays default; it is no first use, and approval is required until the threshold has passed exactly if it was not given. A first key never needs approval. For the same key only the approval is written, and exactly if it is required |
| IdentityKeys.SetApproval | ts/SignalProtocolStore.preload.ts:2261-2287 | Without a record it throws; else nothing but the approval changes, and it is required exactly if it was refused, the key is no first use and the threshold has not passed |
| IdentityKeys.SetVerified | ts/SignalProtocolStore.preload.ts:2291-2323 | It throws exactly without a record that validates; else status and what the caller adds are written, key and time stay |
| IdentityKeys.UpdateAfterSync | ts/SignalProtocolStore.preload.ts:2379-2456 | The record says what the other device said; unless it did so before it is dated now and approved; a message is due exactly if being verified changed and the key did not |
| IdentityRuns.MigrateMoves | ts/SignalProtocolStore.preload.ts:1882-1929 | Exactly if there is no record under the service id and an old one of its conversation, that one is filed under the service id as it is; no other record is touched |
| IdentityRuns.RunKeepsTold | ts/SignalProtocolStore.preload.ts:2075-2456 | Over any run every record is what the history of that contact alone gives |
| IdentityRuns.VerifiedIffSaid | ts/SignalProtocolStore.preload.ts:2261-2456 | A contact is verified exactly if its history has somebody saying so of its present key and nothing after that but approvals |
| IdentityRuns.ApprovalLastSaid | ts/SignalProtocolStore.preload.ts:2209-2217 | Over any run of any calls approval is required of a contact exactly if the last that was said of first use and of approval is no, and the last dated note is younger than the threshold |
| IdentityRuns.ApprovalIff | ts/SignalProtocolStore.preload.ts:2098-2217 | If nobody takes an approval back, and what is set on marking comes with an approval, approval is required exactly of a contact whose last new key replaced another one within the threshold, unapproved, and whom nobody approved since |
| IdentityStore.IdentityStore.SaveIdentity | ts/SignalProtocolStore.preload.ts:2075-2205 | Cache and table become what the specification says |
| IdentityStore.IdentityStore.SetApproval | ts/SignalProtocolStore.preload.ts:2261-2287 | The same; without a record it throws |
| IdentityStore.IdentityStore.SetVerified | ts/SignalProtocolStore.preload.ts:2291-2323 | The same; it throws and changes no status without a record and for one that does not validate |
| IdentityStore.IdentityStore.UpdateIdentityAfterSync | ts/SignalProtocolStore.preload.ts:2379-2456 | The same, with the answer about the message |
| SqlKey.UserConfig.GetSQLKey | app/main.main.ts:1641-1751 | Makes exactly the planned writes in the planned order and returns the planned key |
| SqlKey.UserConfig.HandleSafeStorageDecryptionError | app/main.main.ts:1755-1786 | Goes on with the plain key if the user did so before or does now |
| SqlKey.StartCareful | app/main.main.ts:1641-1751 | After any number of its writes a start leaves only copies of the one key, and at least one |
| SqlKey.KeyIsStable | app/main.main.ts:1641-1751 | Once a key is on disk every start fails or returns it, and it stays on disk, whatever crashes |
| SqlKey.AllStartsAgree | app/main.main.ts:1641-1751 | From an empty configuration all starts that return a key return the same one |
| SqlKey.WrongDecryptionIsReturned | app/main.main.ts:1676-1700 | With no plain copy, a wrong decryption is what the start returns |
| SqlKey.StartFailsIff | app/main.main.ts:1661-1700 | A start fails exactly if the Linux backend changed, or there is an encrypted key and the system does not encrypt, cannot decrypt it, or decrypts it to something else than the plain copy while the user quits and never went on before; then it writes nothing |
| SqlKey.ReturnedKey | app/main.main.ts:1641-1751 | The key returned is the plain copy if there is one, else the decryption, else a new key |
| SqlKey.DiskAfterStoring | app/main.main.ts:1724-1748 | After a start without an encrypted key the plain copy is on disk exactly under Flatpak or where the system does not encrypt, the encrypted key exactly where it does |
| SqlKey.DiskAfterDecrypting | app/main.main.ts:1676-1710 | After a start with an encrypted key the plain copy is gone exactly if the decryption confirmed it, and on Linux the backend is on record |
| ChallengeRules.TokenSentOnce | ts/challenge.dom.ts:407-476 | In every run the counter is the number of calls in flight, handlers are the unanswered requests, no assignment of the token is sent twice, and at rest the newest has been sent |
| ChallengeRules.StepKeeps | ts/challenge.dom.ts:407-476 | Every step of every interleaving keeps that |
| ChallengeRules.CaptchaIsOwnAnswer | ts/challenge.dom.ts:407-432 | In every run each call sends at most once, and the captcha it sends came as a response to its own request |
| Challenge.ChallengeHandler.ResumeSolve | ts/challenge.dom.ts:414-432 | Sends the token unless another call did |
| Challenge.ChallengeHandler.OnResponse | ts/challenge.dom.ts:319-327 | Resolves the request with that number once and ignores others |
| Challenge.ChallengeHandler.FinishSolve | ts/challenge.dom.ts:434-475 | After an error everybody registered waits for one time and no queue starts; after success the queue of everybody who was registered starts, each once, or all are noted while offline |
| Challenge.ChallengeHandler.ForceWaitOnAll | ts/challenge.dom.ts:248-262 | Every registered conversation gets that time and a timer for it |
| Challenge.ChallengeHandler.StartAllQueues | ts/challenge.dom.ts:379-389 | Every due conversation is started once and no other |
| Challenge.ChallengeHandler.Register | ts/challenge.dom.ts:264-317 | Which registrations start a queue, at once or once online, which set which timer, and which ask for a captcha; one that is registered already changes nothing |
| Challenge.ChallengeHandler.MaybeSolve | ts/challenge.dom.ts:204-221 | Starts a captcha only with none in flight and no rate limit |
| Challenge.ChallengeHandler.TimerFires | ts/challenge.dom.ts:223-246 | Lifts the rate limit and starts the conversation, or notes it while offline |
| Challenge.ChallengeHandler.OnOnline | ts/challenge.dom.ts:192-202 | Starts what is due, forgets what was noted |
| CryptoEnvelopes.VerifyHmacSha256 | ts/Crypto.node.ts:361-381 | The loop accepts exactly the first `length` bytes of our MAC, and tells a bad length from a bad MAC |
| CryptoEnvelopes.VerifyDigest | ts/Crypto.node.ts:488-501 | The loop accepts exactly digests whose every byte agrees with ours |
| CryptoEnvelopes.DigestAcceptedIff | ts/Crypto.node.ts:488-501 | Up to our length that is being a prefix of ours |
| CryptoEnvelopes.DecryptAttachment | ts/Crypto.node.ts:503-536 | Same result and same error as the specification |
| CryptoEnvelopes.AttachmentRoundTrip | ts/Crypto.node.ts:503-580 | Decrypting an encrypted attachment with its keys and digest gives the plaintext |
| CryptoEnvelopes.DecryptsIff | ts/Crypto.node.ts:503-536 | An attachment is decrypted exactly if its last 32 bytes are the MAC of what stands before, every byte of the digest is ours, and the cipher accepts it; which of the three refuses it, in this order, is the error |
| CryptoEnvelopes.BadLengthsRefused | ts/Crypto.node.ts:508-513 | Other errors are of length: keys that are not 64 bytes, attachments under 48 bytes |
| CryptoEnvelopes.PaddedRoundTrip | ts/Crypto.node.ts:582-606 | A padded attachment comes back followed by its zeroes |
| CryptoEnvelopes.ProfileRoundTripIff | ts/Crypto.node.ts:608-647 | Profile data come back exactly if there are any |
| CryptoEnvelopes.ProfileRefused | ts/Crypto.node.ts:623-647 | Exactly which profile data are refused: too short, with a key of the wrong length, or by the cipher |
| CryptoEnvelopes.FirstFitIsFirst | ts/Crypto.node.ts:654-659 | The padded length is the first that fits, if any does |
| CryptoEnvelopes.EncryptProfileItemWithPadding | ts/Crypto.node.ts:649-663 | The buffer filled in place is the item followed by zeroes |
| CryptoEnvelopes.TrimForDisplay | ts/Crypto.node.ts:476-486 | The part before the first zero byte |
| CryptoEnvelopes.ItemRoundTripIff | ts/Crypto.node.ts:649-663 | An item comes back exactly if it has no zero byte |
| CryptoEnvelopes.DecryptProfileName | ts/Crypto.node.ts:665-693 | The two loops split the name at its zero bytes |
| CryptoEnvelopes.SplitPaddedName | ts/util/encryptProfileData.preload.ts:40-46 | What the joined and padded name is split into: a missing given name lets the family name take its place |
| CryptoEnvelopes.NameRoundTripIff | ts/Crypto.node.ts:665-693 | Zero-free names come back exactly if there is a given name or no family name |
| OrphanCleanup.CleanupOrphanedAttachments | app/attachment_channel.main.ts:329-402 | Deletes exactly the listed files that nothing refers to and that are still there, and nothing at all unless every read came back |
| OrphanCleanup.DeleteOrphanedAttachments | app/attachment_channel.main.ts:404-538 | The same for the part after the first reads |
| OrphanCleanup.ReadPages | app/attachment_channel.main.ts:417-454 | The cursor loop removes what any number of pages refer to, and fails exactly if a read fails or the cursor never ends |
| ProfileRefresh.StalestFirst | ts/routineProfileRefresh.preload.ts:204-239 | Eligible are contacts with a service id that are not unregistered and stale, ourselves exactly if the credential expired, others if not fetched within three days; sorted by last fetch, never before all else, the first fifty are chosen |
| ProfileRefresh.FilterSortBy | ts/routineProfileRefresh.preload.ts:215-239 | Skipping conversations after the sort is sorting those that are not skipped |

## Left out

- ContactMergeProofs.MergeFindsResult: does not cover the notification about a discovered phone number and the verified flag of a PNI signature; they change no identifier.
- ConversationController.Controller.UpdatePni: only the attribute and the lookup tables; verification state, timeline messages and jobs are not part of this model.
- ConversationController.Controller.AddToLookup: the index by local id is kept by `Push`, since new local ids are unused.
- ConflictCheck.CombineConversations: message migration, copied attributes, profile keys, sessions and storage records of a combined conversation are not part of this model; none of them is an identifier. The merge counts as one step and no conversation is added meanwhile.
- ConversationController.Controller.GetOrCreate: groups, validation and saving of a new conversation.
- KeyIds.TriplePrefixExact: only for well-formed service ids; `PrefixNeedsWellFormed` shows why.
- ProtocolStore.SignalProtocolStore.MaybeRemoveKyberPreKey: the check of the key and the body in the zone are one step.
- ProtocolStore.SignalProtocolStore.RemoveOurOldPni: the identity key pair and registration id of the old PNI, and the signed prekeys, which go the same way as the prekeys.
- ProtocolStore.SignalProtocolStore.CommitZoneChanges: the events about low numbers of keys.
- Session archiving, device lists, `confirmKyberPreKey`, clearing of whole tables and signed prekeys of the protocol store.
- The per-contact job queues of sessions, sender keys and identities.
- `saveIdentityWithAttributes` called from outside, which can set any field; key change events; trust decisions.
- IdentityStore.IdentityStore.SaveIdentity: sibling sessions are not archived and a failing database write is not modelled.
- Reading the configuration file of the database key, the dialog itself, and the start of the database.
- Challenge.ChallengeHandler.Register: loading from storage, expiry and the timer of one conversation replacing another; that no waiting conversation is stranded is not claimed, since `onOnline` forgets what was noted while offline.
- CryptoEnvelopes.PadAndEncryptAttachment: the logarithmic size rule is floating point and a parameter; a size below that of the plaintext fails, as the allocation does.
- Base64 and UTF-8 around the profile envelopes, and the streaming attachment cryptography.
- OrphanCleanup.CleanupOrphanedAttachments: drafts, stickers, avatars and badges, which are cleaned up the same way with one read each; files other than missing ones that cannot be inspected stay in the set, as in the source.
- ProfileRefresh.StalestFirst: the refresher's waiting loop and the fetching of profiles.
