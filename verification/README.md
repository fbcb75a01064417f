# Circle protocols, live terminals and chat of the experience runtime: a Dafny model with proofs

The runtime keeps *circles*: small groups of devices that trust each other without a server. This project models
the parts of it where a mistake would break that trust or lose data, and proves what they promise.

- **Membership** (`Roster*.dfy`, `Invitees.dfy`). A core merges signed rosters by a fixpoint over admissions and then
  applies the creator's revocations. The result does not depend on the order of Go's maps, a second ingestion changes
  nothing, and over every run no record or proof is lost, no revocation is undone, and every listed device has a
  chain of stored admissions back to the first roster.
- **Circle keys** (`Keys.dfy`, `Key*.dfy`, `Removal*.dfy`). The creator rotates the key and seals one entry per member;
  the network loses, repeats and reorders updates. Cores at one epoch hold one key, one exchange catches up, no later
  update has an entry for a removed device, which returns only by pairing again, and the preview of a removal is its
  result.
- **Live terminals** (`Screen*.dfy`, `AnsiScreen.dfy`, `Lease*.dfy`, `TerminalStream*.dfy`, `StreamEffects.dfy`). The
  screen emulator by value and on the heap, where scrolling makes rows of a grid one shared row; control leases with
  compare-and-swap epochs; stream framing under any partition into reads.
- **Chat** (`Election.dfy`, `Recovery.dfy`, `MeshEffects.dfy`, `Outbox*.dfy`). Broker election and recovery; conservation
  of posts from the outbox over every interleaving of posts, flushes, reseals, key changes, restarts and redelivery;
  nothing a removed device sent is taken in.
- **Pairing** (`Pairing*.dfy`). Commitments, codes and welcomes, and both sides' sessions over a bad network and across
  restarts.
- **Text and framing** (`Texts.dfy`, `Mcp*.dfy`, `WordPiece.dfy`, `Pooling.dfy`, `TextEffects.dfy`). The two MCP
  framings, the greedy tokenizer, and mean pooling over exact reals.

Code that updates fields in place is a class or a method with loops (`CircleRecord`, `AnsiScreen`, `TerminalStore`,
`TerminalControl`, `MeshRuntime`, `ChatDb`, `PairingTable`, `Reader`, `Tokenizer`), proved equal to a function of the
old state; the properties are lemmas about those functions. Protocols are state machines over their atomic steps, and
the main results quantify over every run. Files named `*Effects.dfy` say for each single operation what it does to the
records, rows, cells and answers it touches, without the functions the methods are proved equal to.

Cryptography is symbolic: a signature opens only under the key that made it, a sealed text only under its key and
context, a digest stands for the parts it covers. Clocks, random ids, new keys and the fate of every send are
parameters. Texts the code only stores and compares are numbers, 0 being the empty text.

## What does not hold

Where the code does less than its documentation says, or a law needs a condition, the exact condition is proved.

- The comment on control leases promises a monotonic epoch (`terminal_control.go:10`). Entering private mode revokes
  all leases and the next grant starts again at 1, so a write that names only an epoch can be accepted under another
  lease: `LeaseRuns.PrivateModeReusesEpochs`. Naming the lease, or not entering private mode, closes this:
  `LeaseRuns.LeasedWriteIff`, `LeaseRuns.EpochWriteIff`.
- Scrolling copies row references, so the line that leaves the bottom row is blanked rather than kept unless it was
  blank (`ScreenLaws.ScrollKeepsBottomIff`), and a restored screen behaves like the original only if its rows are
  still distinct (`ScreenSnapshot.RestoreSimulatesIff`), which for a new screen means it never scrolled or has one row
  (`ScreenScrolls.UnscrolledQualifies`).
- Writing in chunks is writing at once, on every screen and whatever follows, if and only if no chunk ends inside an
  escape: `ScreenChunks.SettledIff`.
- The removal preview lists a member as cut off only when it has no key-agreement record; the rotation also cuts off
  members whose record is no key. The two agree exactly when the records are usable: `Removal.PreviewEqualsResult`.
- A removal does not stop a removed device for good. Pairing never looks at revocations, so once the device's own
  stored circle no longer lists it as active, because it learned of its removal or deleted the circle, a member it was
  admitted by hands it the current key (`KeyReturns.RemovedReturns`). It stays at or below the epoch of its removal if
  and only if it stores no welcome past that epoch: `KeyRuns.RemovedStaysBelowIff`.
- Epochs can go back: a welcome carries the epoch its member was at when it was built, and may be stored later. Over a
  run a device comes to hold a lower epoch than before if and only if it stores a welcome of an epoch below one it held
  before (`KeyRuns.LoweredIff`), even one whose member was not behind when it was built
  (`KeyReturns.OldWelcomeLowers`).
- Catching up needs the member's own key-agreement key on record with the creator, where the first record stays:
  `KeyCatchUp.OneExchangeCatchesUp`.
- The election's comment names the next member after the creator when it is gone; when the creator is not active at
  all, the walk starts at the least id: `Election.ElectBroker`.
- Recovery can try a host twice and reach its last return: the first exactly when an attempt elects a host the call has
  marked before, its mark expired or taken off, and the second never without that (`Recovery.TriesTwiceIff`,
  `Recovery.ExpiryRunsOut`).
- A post is sealed before it is saved, a key changes before the queue is resealed, an error of the reseal is dropped,
  and pairing again changes the key with no reseal at all. A queued item opens under the current key if and only if its
  last sealing used that key (`OutboxKeys.QueuedOpensIff`); with keys that never come back, if and only if every key
  since it was sealed was followed by a rewrite (`OutboxKeys.FollowedIff`). One that was missed is stranded for good
  (`OutboxKeys.MissedStrands`).
- "An error means nothing was posted" (`share_chat.go:532-533`) fails in two ways. A flush may hand the post over
  between its save and its failure, and one that loaded the queue before the failure may come to it afterwards, with
  both tables empty again. A failed post goes out on no run if and only if no flush did the first and none under way at
  the failure still has it before it: `OutboxPosts.FailedPost`, `OutboxPosts.FailedPostGoesOut`,
  `OutboxPosts.FailedPostGoesLate`.
- Pairing sessions live in memory. A member that restarts in between issues a second nonce for a repeated hello, and
  the two sides then show different codes (`PairingRestarts.RestartSplitsCodes`): the codes agree if and only if the
  joiner took the nonce of the last opening (`PairingRestarts.CodesAgreeIff`), and the two people of a completed join
  confirmed one code if and only if it was the last before the member's last confirmation
  (`PairingRestarts.JoinedSameIff`).
- The greedy tokenizer can report a word as unknown that has a cut (`WordPiece.GreedyCanMissACut`); it does so exactly
  when no cut has the longest known piece at every place (`WordPiece.GivesUpIff`).
- A stream with a bad frame loses more or less behind it, depending on how it is cut into reads; the cutting shows
  exactly when a whole frame starts a header's length or more behind the error: `TerminalStreamLaws.CutsAgreeIff`.
- The frame decoder accepts payloads up to 2^32 - 1 bytes, the encoder and the splitter at most 16 MiB:
  `TerminalStreamLaws.DecodesIff`, `TerminalStreamLaws.DecodeEncode`.

## Model

| member | source | states |
|---|---|---|
| RosterIngest.AdmitMember | runtime/experience/share_roster.go:139-155 | stores an admission and a member once; a device with a stored revocation enters revoked |
| RosterIngest.RevokeIfSigned | runtime/experience/share_roster.go:159-176 | a revocation counts only with the creator's signature and never against the creator; it is kept and marks every record of the device |
| Roster.TrustedIsLeast | runtime/experience/share_roster.go:100-137 | the devices with a finite chain of verified admissions are the least set closed under trust |
| RosterIngest.IngestRosterProofs | runtime/experience/share_roster.go:110-137 | the fixpoint loop ends, and for any order of its maps establishes exactly that set, then the creator's revocations |
| RosterEffects.CandidateIff | runtime/experience/share_roster.go:110-116 | a device is a candidate if and only if some listed record names it under a key that hashes to its id and an admission of it came along; the record taken is the last such one |
| RosterEffects.AdmittedIff | runtime/experience/share_roster.go:108-155 | a device without a stored admission gets one if and only if it is so listed and its admission verifies under an active member's key, its own if it is the creator, or that of a device admitted along with it; its record is the last such one, with the date of the admission |
| RosterEffects.RevokedIff | runtime/experience/share_roster.go:127-176 | a revocation is stored if and only if it was, or the one that came is not of the creator and verifies under the creator's key; then every record of the device is marked, otherwise none |
| RosterLaws.IngestionConfluent | runtime/experience/share_roster.go:108-137 | any two ingestions of the same input give the same members, admissions and revocations |
| RosterLaws.IngestionIdempotent | runtime/experience/share_roster.go:108-137 | ingesting the same input again changes nothing |
| RosterSteps.VouchMembers | runtime/experience/share_roster.go:181-204 | the loop over the members does what vouching means, below |
| RosterSteps.VouchingEstablishes | runtime/experience/share_roster.go:178-204 | after vouching exactly the members this device may vouch for have gained an admission, and the creator's revoked ones a signed revocation; nothing else changed |
| RosterRuns.StepKeepsSound | runtime/experience/share_roster.go:139-219 | every step (ingest, vouch, remove, merge hints, pair) keeps ids distinct, the creator unrevoked, revoked flags equal to stored revocations, all of them signed; no record or proof is lost or replaced |
| RosterRuns.RunKeepsSound | runtime/experience/share_roster.go:139-219 | the same over whole runs, between any two points of the run |
| RosterRuns.RevokedForever | runtime/experience/share_roster.go:157-176 | a device with a stored revocation is never active again on any run, and the creator always is |
| RosterRuns.AddedHasChain | runtime/experience/share_roster.go:108-137 | one ingestion: a device it adds has a finite chain of verified admissions back to an active member or the creator's own, under a key that hashes to its id |
| RosterChains.StepKeepsChains | runtime/experience/share_roster.go:108-204 | every step keeps it so that each device listed since the first roster has a chain of stored admissions back to it |
| RosterChains.EveryMemberChained | runtime/experience/share_roster.go:108-204 | over every run each listed device has a finite chain of stored admissions, each verifying under the recorded key of its inviter, back to a member of the first roster |
| RosterRuns.RevokedSetsAgree | runtime/experience/share_roster.go:108-176 | two cores that ingest each other's rosters end with equal revoked sets and agree on every device both list |
| Invitees.CircleInvitees | runtime/experience/share_roster.go:221-240 | ends, and returns without duplicates exactly the members reachable along invited-by edges that avoid the creator |
| RosterSteps.RevokeMember | runtime/experience/share_circle.go:360-384 | only the creator removes, and only a listed device other than itself; every record of the device is marked and the revocation signed |
| RosterEffects.RemovedIff | runtime/experience/share_circle.go:360-384 | record by record: what a removal marks, and a revocation that verifies under the creator's key, unless one was stored |
| RosterChains.CreatedListed | runtime/experience/share_circle.go:180-211 | a new circle is a roster such runs start from: it stores admissions for listed devices only and lists this device under its key |
| RosterChains.WelcomedListed | runtime/experience/pairing.go:98-129 | so is the roster a joiner gets with its welcome, unless it is listed there under another key |
| RosterRuns.CreatedSound | runtime/experience/share_circle.go:180-211 | a circle its creator just made starts sound, with the creator's own admission |
| RosterSteps.UpsertMember | runtime/experience/share_peers.go:177-199 | replaces the record of a known device by the merge of both, or appends it |
| RosterSteps.MergeOnlyHints | runtime/experience/share_peers.go:201-221 | merging a peer's member list changes only endpoints, names and times: no key, flag or date |
| RosterEffects.HintsGive | runtime/experience/share_peers.go:201-221 | a peer's record with this device's or no key gives every hint that is not empty to the first stored record of its device; any other record changes nothing |
| RosterEffects.UpsertGives | runtime/experience/share_peers.go:177-221 | a joining record gives its hints to the stored one, key and date only where there was none, or is appended if it comes with a key |
| RosterSteps.MergePeerRoster | runtime/experience/share_peers.go:291-315 | the loop over the incoming list is the fold of those merges, followed by vouching |
| Keys.IngestKexRecords | runtime/experience/share_rekey.go:120-135 | keeps one signed key-agreement record per known member, first come |
| Keys.KexOnlyGrows | runtime/experience/share_rekey.go:120-135 | records are only added |
| Keys.RekeyCircle | runtime/experience/share_rekey.go:139-168 | only the creator rotates: next epoch, old key kept as previous, one entry per remaining member with a usable record, the others returned as cut off |
| KeyEffects.RotatedIff | runtime/experience/share_rekey.go:139-197 | a rotation works for the creator alone; the circle then has the new key at the next epoch and keeps the key it had with its epoch, and the update verifies and seals the new key to exactly the active others with a usable record |
| KeyEffects.CutOffIs | runtime/experience/share_rekey.go:149-160 | the devices cut off are exactly the active others without a usable record, in roster order |
| KeyEffects.AdoptedIff | runtime/experience/share_rekey.go:190-227 | an update is adopted if and only if it is of this circle and a later epoch, verifies under the recorded creator's key and has an entry sealed to this device for that epoch; the circle then has its key and keeps the one it had with its epoch |
| KeyEffects.RotationKeepsOpening | runtime/experience/share_rekey.go:190-239 | after a rotation what was sealed under the key before it opens inside the grace window, to the same envelope, and outside only if the key is the same |
| KeyEffects.AdoptionKeepsOpening | runtime/experience/share_rekey.go:190-239 | the same after an adopted update |
| KeyEffects.RotationReaches | runtime/experience/share_rekey.go:139-227 | a member at an earlier epoch, listed as active with its own key on record, adopts the creator's rotation and ends with its key |
| KeyEffects.ExtendedIff | runtime/experience/share_rekey.go:274-309 | an extension adds an entry of the current key for each such device without one, for the creator's own update of the current epoch, and changes nothing else |
| KeyEffects.KexStoredIff | runtime/experience/share_rekey.go:120-135 | a key-agreement record is stored if and only if one was, or the list has one that verifies under the listed key; then the first such |
| Keys.ExtendKeyUpdate | runtime/experience/share_rekey.go:274-309 | only the creator extends, only the update of the current epoch, only by missing members; entries are never replaced |
| Keys.ApplyKeysMaterial | runtime/experience/share_keys_exchange.go:142-169 | one delivery: records, extension, a newer update if it opens, then vouching |
| KeyMoves.MoveAgreed | runtime/experience/share_rekey.go:139-309 | each rotation, roster step, delivery, welcome built, welcome stored and loss of a stored circle keeps every core in step: the key of its epoch, an epoch the creator reached |
| KeyRuns.RunAgreed | runtime/experience/share_rekey.go:139-309 | the same over whole runs with lost, repeated and reordered deliveries |
| KeyRuns.SameEpochSameKey | runtime/experience/share_rekey.go:200-227 | over every run two cores at the same epoch hold the same key, even at different times |
| KeyRuns.EpochsOnlyGrow | runtime/experience/share_rekey.go:200-227 | the epoch of a device never decreases and its roster is never undone while it keeps its stored circle |
| KeyRuns.LoweredIff | runtime/experience/pairing_session.go:466-513 | over every run a device comes to hold a lower epoch than it held before, its stored circle lost in between or not, if and only if it stores a welcome of an epoch below one it held before |
| KeyRuns.WelcomeBuilt | runtime/experience/pairing_session.go:742-753 | a welcome on its way was built on the run, by a member that was at its epoch then, or was on its way from the start |
| KeyReturns.OldWelcomeLowers | runtime/experience/pairing_session.go:466-513 | a run from creation on which an epoch goes back: two welcomes built, the key rotated in between, the later one stored, the device removed, the earlier one stored |
| KeyRuns.RemovedStaysOut | runtime/experience/share_rekey.go:139-188 | no update of an epoch after a removal, whenever signed or extended, holds an entry for the removed device |
| KeyRuns.RemovedStaysBelowIff | runtime/experience/share_rekey.go:139-227 | a removed device stays at or below the epoch of its removal if and only if it stores no welcome past that epoch |
| KeyRuns.RemovedPairsAgain | runtime/experience/pairing.go:98-129 | nothing refuses a removed device whose own stored circle does not list it as active: its inviter, the creator, builds a welcome with the current key and the device stores it |
| KeyReturns.RemovedReturns | runtime/experience/pairing_session.go:484-513 | a run from creation on which a removed device ends past the epoch of its removal: paired, removed, key rotated, the removal learned from the creator's roster, paired again |
| KeyCatchUp.StartAgreed | runtime/experience/share_circle.go:180-211 | a new circle is a world in agreement |
| KeyCatchUp.OneExchangeCatchesUp | runtime/experience/share_keys_exchange.go:56-90 | one exchange with the creator brings an active member to its epoch and key, however many rotations it missed, if and only if it was there or its recorded key-agreement key is its own |
| Removal.PlanRevoke | runtime/experience/circle_manage.go:248-276 | refuses exactly when this device is not the creator, or the target is the creator or not active; otherwise targets, invitees, cut-off list and next epoch |
| RemovalEffects.PlannedIs | runtime/experience/circle_manage.go:267-274 | the previewed cut-off list is exactly the active others that stay and have no key-agreement record, in roster order |
| Removal.RevokeAndRotate | runtime/experience/share_keys_exchange.go:268-276 | removes each target in turn, then rotates once; the first failure stops it and leaves the removals before it stored |
| Removal.PreviewEqualsResult | runtime/experience/circle_manage.go:247-276 | on the same circle the removal revokes exactly the planned targets and reaches the planned epoch, and its cut-off list is the planned one if and only if the remaining members' records are usable |
| Screen.Written | runtime/experience/terminal_store.go:955-971 | the token loop ends on every input and keeps every grid in shape, whatever the cursor |
| AnsiScreens.AllocGrid | runtime/experience/terminal_store.go:883-889 | a new grid has distinct rows, all blank |
| AnsiScreens.ScrollGrid | runtime/experience/terminal_store.go:973-981 | copying row references shares one row more at the bottom and shifts the others; the shared one is blanked |
| AnsiScreens.PutRune | runtime/experience/terminal_store.go:940-953 | a cell written through one reference shows in every line that is the same row, and nowhere else |
| AnsiScreens.AnsiScreen.TryWriteCsi | runtime/experience/terminal_store.go:898-916 | finds exactly the whole control sequences and applies them |
| AnsiScreens.AnsiScreen.Write | runtime/experience/terminal_store.go:955-971 | the heap screen does what the value does; the two grids never share a row |
| AnsiScreens.AnsiScreen.Capture | runtime/experience/terminal_store.go:1047-1066 | the snapshot of the shown grid |
| AnsiScreens.AnsiScreen.Restore | runtime/experience/terminal_store.go:1068-1087 | a snapshot on a fresh main grid, each rune at its byte offset; the screen can be written to afterwards if and only if the snapshot has rows and columns and a shown alternate grid has its size |
| ScreenLaws.WriteInChunks | runtime/experience/terminal_store.go:955-971 | writing p then q is writing p + q when no token of p ends inside an escape |
| ScreenChunks.SettledIff | runtime/experience/terminal_store.go:898-971 | a stream may be cut after p, on every screen and before every q, if and only if no token of p ends inside an escape |
| ScreenChunks.UnsettledDiffers | runtime/experience/terminal_store.go:898-971 | after any other p every screen wide enough is told apart by some q |
| ScreenLaws.CutAfterEscape | runtime/experience/terminal_store.go:898-916 | an instance: a cut after ESC |
| ScreenLaws.CutInsideSequence | runtime/experience/terminal_store.go:898-916 | an instance: a cut before the final byte |
| ScreenLaws.ScrollTimes | runtime/experience/terminal_store.go:973-981 | n scrolls of a grid with j shared rows share min(j + n, rows), move the unshared lines n rows up and blank the rest |
| ScreenLaws.ScrollKeepsBottomIff | runtime/experience/terminal_store.go:973-981 | a scroll is the usual one if and only if the bottom line was blank or there is one row |
| ScreenLaws.AlikeForever | runtime/experience/terminal_store.go:898-1045 | screens that look alike look alike after any bytes |
| ScreenLaws.SevenBitWritten | runtime/experience/terminal_store.go:940-953 | 7-bit bytes keep every cell 7-bit |
| ScreenSnapshot.RestoreSimulatesIff | runtime/experience/terminal_store.go:1047-1087 | a screen on its main grid showing 7-bit text and its restored copy give the same snapshots after every further write if and only if its rows are still distinct |
| ScreenScrolls.SharedCountsScrolls | runtime/experience/terminal_store.go:955-981 | after any bytes the bottom min(j + n, rows) rows of the main grid are one row, where j were before and n counts its scrolls along the tokens |
| ScreenScrolls.AltCountsScrolls | runtime/experience/terminal_store.go:955-1031 | the same for the alternate grid while it is shown, with its scrolls since it was last made |
| ScreenScrolls.UnscrolledQualifies | runtime/experience/terminal_store.go:871-1087 | a new screen written any 7-bit bytes, its main grid shown, and its restored copy give the same snapshots for ever if and only if the main grid was never scrolled or has one row |
| ScreenControls.CursorGoes | runtime/experience/terminal_store.go:994-1005 | CSI row ; column H puts the cursor there, for every row and column |
| ScreenEffects.EraseShowsNothing | runtime/experience/terminal_store.go:1007-1018 | CSI 2 J leaves every cell of the shown grid empty and homes the cursor; which lines are one row, the other grid and the size stay; any other parameter does nothing |
| ScreenEffects.GlyphShows | runtime/experience/terminal_store.go:918-953 | a printable byte shows at the cursor, in every line that is that row and nowhere else, and the cursor goes right; past the last column to the first one, and on as a line feed does |
| ScreenEffects.LineFeedGoes | runtime/experience/terminal_store.go:918-981 | a line feed goes down one row; at the last row every line shows what the one below it did, and the bottom lines, one row more than before, show nothing |
| ScreenEffects.TabGoes | runtime/experience/terminal_store.go:927-934 | a tab goes to the next multiple of 8, or to the last column if there is none, with the wrap-around of the code's integers |
| ScreenEffects.EntersAlternate | runtime/experience/terminal_store.go:1020-1031 | entering the alternate grid shows one that is empty and has distinct rows; the main grid and the cursor stay |
| ScreenEffects.LeavesAlternate | runtime/experience/terminal_store.go:1020-1031 | leaving it shows the main grid again |
| ScreenEffects.SnapshotShows | runtime/experience/terminal_store.go:1047-1066 | cell by cell: the text of a snapshot's row is what the shown line shows, a space for an empty cell, up to its last other rune |
| ScreenEffects.RestoredShows | runtime/experience/terminal_store.go:1068-1087 | cell by cell: a restored screen shows each rune of a row's text at its byte offset, as far as the columns go, and nothing else |
| ScreenControls.AlternateKeepsMain | runtime/experience/terminal_store.go:1020-1031 | nothing written on the alternate grid changes the main one |
| ScreenControls.MainSharingGrows | runtime/experience/terminal_store.go:973-981 | no write makes rows of the main grid distinct again |
| Leases.TerminalStore.GetActiveLease | runtime/experience/terminal_store.go:699-713 | the unrevoked lease of the highest epoch |
| Leases.TerminalStore.GrantLeaseCas | runtime/experience/terminal_store.go:715-749 | compare with the active epoch, revoke, insert the next epoch; unknown session or taken id leaves no lease |
| LeaseEffects.CasIs | runtime/experience/terminal_store.go:715-749 | row by row: a compare with another epoch than that of the unrevoked lease of the highest epoch changes nothing; a matching one revokes the session's leases and adds one of the next epoch, unless the session is unknown or the id is taken |
| Leases.TerminalStore.ReleaseLeaseCas | runtime/experience/terminal_store.go:782-796 | only the named active lease of the holder is released, to the owner |
| Leases.TerminalStore.SetPrivateMode | runtime/experience/terminal_store.go:451-479 | entering private mode revokes the session's leases; leaving it revokes none |
| LeaseEffects.PrivateIs | runtime/experience/terminal_store.go:451-479 | row by row: the mode is set as given, entering it revokes every lease of the session and no other, and an unknown session is left alone |
| LeaseRuns.RunKeepsOrder | runtime/experience/terminal_store.go:451-749 | over every run no session has two unrevoked leases and no lease id is used twice |
| LeaseRuns.GrantInstalls | runtime/experience/terminal_store.go:715-749 | a grant succeeds exactly on the active epoch of a known session and installs the next one; a refused grant changes nothing |
| LeaseRuns.EpochCountsGrants | runtime/experience/terminal_store.go:715-749 | the epoch is the number of successful grants since private mode was last entered |
| Leases.TerminalControl.GrantControl | runtime/experience/terminal_control.go:42-65 | owner or host only, not in private mode, then compare and grant |
| Leases.TerminalControl.RevokeControl | runtime/experience/terminal_control.go:93-118 | owner or host only, for the named holder if there is one; control returns to the owner |
| LeaseEffects.OpenerControls | runtime/experience/terminal_control.go:42-65 | the device that opened a session can grant control of it, and no other can |
| Leases.TerminalControl.ValidateWrite | runtime/experience/terminal_control.go:120-150 | the check on a write, in the order of its errors |
| LeaseEffects.RefusalIs | runtime/experience/terminal_control.go:120-150 | which error a write gets: exactly when the session is unknown, private, the lease does not match, the device is neither holder nor owner, or the lease has expired |
| LeaseRuns.ControlIsCompare | runtime/experience/terminal_control.go:42-118 | grant, release and revoke succeed under exactly these conditions and are then one compare; otherwise nothing changes |
| LeaseRuns.AcceptsIff | runtime/experience/terminal_control.go:120-150 | a write is accepted if and only if the session is not private and an unrevoked lease permits it |
| LeaseRuns.LeasedWriteIff | runtime/experience/terminal_control.go:120-150 | an accepted write naming its lease is accepted later if and only if no grant, release, revocation or private-mode entry happened since and the lease has not expired |
| LeaseRuns.EpochWriteIff | runtime/experience/terminal_control.go:120-150 | the same for a write naming only its epoch, while private mode is not entered |
| LeaseRuns.PrivateModeReusesEpochs | runtime/experience/terminal_control.go:14-22 | with private mode entered in between, an epoch alone is accepted again under another lease |
| LeaseRuns.CompareNoticesChange | runtime/experience/terminal_store.go:782-796 | between check and compare: without a private-mode entry a matching epoch means the checked lease is still active |
| LeaseRuns.OneWriter | runtime/experience/terminal_control.go:120-150 | at most one device besides the owner can write at any moment |
| TerminalStream.EncodeTerminalFrame | runtime/experience/terminal_stream.go:50-62 | fills the buffer with the wire form, or refuses a payload over 16 MiB |
| TerminalStream.SplitTerminalFrames | runtime/experience/terminal_stream.go:83-107 | all whole frames, the rest, and the error if any |
| TerminalStream.StreamHostFrames | runtime/experience/terminal_stream.go:579-599 | the reading loop over any reads |
| StreamEffects.WireIs | runtime/experience/terminal_stream.go:50-62 | byte by byte: four letters, kind, flags, sequence and payload length, the most significant byte first, then the payload |
| StreamEffects.SplitStops | runtime/experience/terminal_stream.go:83-107 | a split keeps a buffer that is short of a header or of the payload it announces, and fails on other letters and on a length above 16 MiB |
| StreamEffects.SplitGoesOn | runtime/experience/terminal_stream.go:83-107 | otherwise it takes the frame the bytes hold and goes on behind it |
| TerminalStreamLaws.DecodeEncode | runtime/experience/terminal_stream.go:50-81 | every frame within the limit decodes back from its encoding, 64-bit sequence included |
| TerminalStreamLaws.DecodesIff | runtime/experience/terminal_stream.go:64-81 | decoding yields a frame if and only if the bytes are exactly its wire form |
| TerminalStreamLaws.SplitExtends | runtime/experience/terminal_stream.go:83-107 | splitting a longer buffer gives the frames of its prefix, then goes on from the prefix's rest |
| TerminalStreamLaws.ChunkingIsIrrelevant | runtime/experience/terminal_stream.go:579-599 | however a stream that splits without error is cut into reads, the loop pushes what one split of the whole gives |
| TerminalStreamLaws.CutsAgreeIff | runtime/experience/terminal_stream.go:83-107 | for any bytes: every cutting pushes what one split gives if and only if they split without error or no whole frame starts a header's length or more behind the error |
| TerminalStreamLaws.FramesSurviveAnyPartition | runtime/experience/terminal_stream.go:579-599 | any partition of encoded frames yields exactly those frames with nothing pending |
| McpFraming.Reader.ReadMcpMessage | runtime/experience/mcp_stdio.go:75-89 | reads one message of either framing, skipping other lines |
| McpFraming.Reader.FinishMcpFrame | runtime/experience/mcp_stdio.go:98-114 | skips the header block and takes the announced body |
| McpEffects.ObjectLine | runtime/experience/mcp_stdio.go:75-81 | a line that starts an object is a message, without the blanks around it |
| McpEffects.OtherLine | runtime/experience/mcp_stdio.go:75-89 | a line of neither kind is skipped |
| McpEffects.HeaderRead | runtime/experience/mcp_stdio.go:75-114 | a length header, any other header lines, a blank line and a body: the message is the announced number of bytes; a number that is not positive takes nothing, one above what is left takes everything and fails |
| McpEffects.OtherReads | runtime/experience/mcp_stdio.go:91-95 | a number with another character in it is 0, or the greatest of its sign when the digits before it already exceed 64 bits |
| McpLaws.LineRoundTripIff | runtime/experience/mcp_stdio.go:75-121 | a line gives back its body if and only if the body starts an object, holds no newline and ends in no blank |
| McpLaws.LengthRoundTripIff | runtime/experience/mcp_stdio.go:75-114 | a Content-Length frame gives back its body if and only if the body is not empty |
| McpLaws.MixedRoundTrip | runtime/experience/mcp_stdio.go:72-121 | any sequence of messages in any mix of framings is read back, same bodies and flags, one message a read |
| Texts.AtoiItoa | runtime/experience/mcp_stdio.go:91-95 | a length reads back from its decimal text |
| Election.ElectBroker | runtime/experience/share_mqtt.go:64-100 | collecting, sorting and walking the ring elects exactly the creator, or the next able id after it, or the least one |
| MeshEffects.ElectedIff | runtime/experience/share_mqtt.go:61-100 | the elected broker is the one device, active and not gone, that comes first on the ring that starts at the creator, or at the least id if the creator is not active |
| Election.ElectionCanonical | runtime/experience/share_mqtt.go:64-100 | list order, repeated and revoked records do not matter |
| Election.ElectsIff | runtime/experience/share_mqtt.go:61-100 | there is a broker if and only if some active member is not gone, and it is one of those |
| Election.ElectionStable | runtime/experience/share_mqtt.go:64-100 | more hosts gone changes the broker only when the elected one is gone |
| Recovery.MeshRuntime.BrokerGoneSet | runtime/experience/share_mqtt.go:318-332 | the unexpired marks; expired ones are dropped |
| Recovery.MeshRuntime.BrokerFailingFor | runtime/experience/share_mqtt.go:165-179 | since when a host has been failing |
| Recovery.MeshRuntime.RecoverCircleMesh | runtime/experience/share_mqtt.go:847-878 | the attempts of one recovery, in the order of its returns |
| MeshEffects.OutcomeIff | runtime/experience/share_mqtt.go:820-878 | how one attempt ends, by the member list, the marks and the clock: suspended, no broker, linked, given up on, or the next attempt |
| MeshEffects.AttemptLeaves | runtime/experience/share_mqtt.go:820-878 | the marks and failure times it leaves: expired marks go, a reached host ends all failures, a first failure is timed, a host that failed for 20 seconds is marked |
| MeshEffects.AttemptsInTurn | runtime/experience/share_mqtt.go:847-878 | a recovery ends with the first attempt that decides, each starting from what the one before left |
| Recovery.RecoveryBounded | runtime/experience/share_mqtt.go:847-878 | if the marks the call makes outlast the attempts it makes, no host is tried twice, only active ones are, and the last return is never reached |
| Recovery.TriesTwiceIff | runtime/experience/share_mqtt.go:847-878 | a recovery tries a host twice if and only if some attempt elects a host the call has marked before; it cannot reach its last return without that |
| Recovery.ActiveSelfHasBroker | runtime/experience/share_mqtt.go:847-878 | an active device without a mark on itself always has a broker to try and never marks itself |
| Recovery.ExpiryRunsOut | runtime/experience/share_mqtt.go:847-878 | marks that expire during the call make it try a host twice and run out of attempts |
| Outbox.ChatDb.DeliverLocalChatPost | runtime/experience/share_chat.go:534-550 | save, grant, send, delete; a post that fails leaves nothing |
| OutboxLaws.PostEffect | runtime/experience/share_chat.go:531-550 | a post fails exactly when its id is taken or the step after saving fails, and then nothing changed; otherwise its row is stored and its item queued unless sent |
| OutboxEffects.PostEnds | runtime/experience/share_chat.go:534-550 | a post fails exactly when its id is stored or queued or the step after saving fails, and counts as sent exactly when the send was done |
| Outbox.ChatDb.FlushOutbox | runtime/experience/share_chat.go:777-797 | loads the queue once and sends in order until a send fails |
| OutboxLaws.FlushEffect | runtime/experience/share_chat.go:777-797 | what was sent is a prefix of the queue, and only what was sent is deleted |
| OutboxEffects.FlushStops | runtime/experience/share_chat.go:777-797 | where a flush stops, what it sent and deleted by then, and when it fails |
| OutboxLaws.FlushDrains | runtime/experience/share_chat.go:777-797 | when every send goes through the whole queue is sent once and removed |
| OutboxLaws.QueueInOrder | runtime/experience/share_chat.go:716-742 | the queue is in order of time, then id |
| OutboxEffects.QueueIsRows | runtime/experience/share_chat.go:716-742 | the loaded queue is exactly the circle's rows |
| Outbox.ChatDb.AcceptChatWire | runtime/experience/share_chat.go:644-714 | a delivered wire adds one row, unread unless this device sent it, if and only if it opens under an open key, its envelope is of this circle, signed by an active member and admitted, and its id is new; otherwise nothing changes |
| OutboxEffects.DeliveryIff | runtime/experience/share_chat.go:644-714 | if the wire opens under the current key, or the previous one in grace, to an envelope of this circle, signed under the key of its active sender, admitted and with a new id, then it becomes the last message, unread unless this device sent it; in every other case nothing changes |
| OutboxSound.RunSound | runtime/experience/share_chat.go:534-797 | over every interleaving of the steps of posts, flushes, reseals, key changes, pairings, deliveries, reads and stops: a kept post is stored, and was handed over or is still queued; a queued item is its stored post under the key of its last sealing |
| OutboxAtomic.PostIsAtomic | runtime/experience/share_chat.go:534-550 | the steps of a post with nothing in between leave the tables as the post does as a whole, keep it unless it fails and hand it over exactly when it is sent, crash included |
| OutboxAtomic.FlushIsAtomic | runtime/experience/share_chat.go:777-797 | the steps of a flush with nothing in between leave the queue as the flush does as a whole and hand over exactly the items it sends |
| OutboxAtomic.ResealIsAtomic | runtime/experience/share_keys_exchange.go:223-249 | the steps of a reseal with nothing in between rewrite what it does as a whole, up to the first row it cannot write |
| OutboxPosts.SentIff | runtime/experience/share_chat.go:777-797 | what is on record as handed over is what the hand-overs of the run did |
| OutboxPosts.FailedPost | runtime/experience/share_chat.go:531-550 | a post that fails leaves no row and is not kept; it goes out all the same, before the failure or on some run after it, if and only if a flush handed it over before it failed or had loaded it by then and is not past it |
| OutboxPosts.FailedPostGoesOut | runtime/experience/share_chat.go:531-550 | a run on which it goes out before it fails |
| OutboxPosts.FailedPostGoesLate | runtime/experience/share_chat.go:777-797 | a run on which it goes out after it failed, both tables empty |
| OutboxKeys.QueuedOpensIff | runtime/experience/share_keys_exchange.go:194-249 | over every interleaving, whatever the keys: a queued item opens under the current key of its circle, then to the post as stored, if and only if that is the key its last sealing used |
| OutboxTurns.RunInTurn | runtime/experience/share_keys_exchange.go:194-249 | over every interleaving with keys that never come back, each rewrite moves a row on by exactly one key, and a reseal only ever rewrites rows still under its old key |
| OutboxTurns.StartInTurn | runtime/experience/share_chat.go:534-797 | the empty chat is where such runs start |
| OutboxKeys.FollowedIff | runtime/experience/share_keys_exchange.go:194-249 | then the row of a post opens under the current key if and only if every key the circle got since the post was sealed was followed by a rewrite of the row, counted along the events |
| OutboxKeys.GraceOpensIff | runtime/experience/share_rekey.go:231-263 | a receiver inside the grace window also opens what is behind by the latest key alone, and nothing further behind |
| KeyGrace.StoredCircleOpensIff | runtime/experience/share_rekey.go:120-263 | over every run of the key protocol together with the chat of one core: what is queued opens under the open keys of the circle as stored if and only if it is not behind, or, inside the grace window and with a previous key kept, behind by one key |
| OutboxKeys.RunCounts | runtime/experience/share_keys_exchange.go:194-249 | the recorded keys and rewrites are what the events of the run did |
| OutboxKeys.PassHandsIff | runtime/experience/share_chat.go:777-797 | the item a flush hands over is the envelope composed; it opens under the current key if and only if it did when the queue was loaded and the circle got no key since |
| OutboxKeys.PostHandsIff | runtime/experience/share_chat.go:552-593 | the wire a post hands over itself opens under the current key if and only if the circle got no key since it was sealed |
| OutboxRows.RowsStay | runtime/experience/share_chat.go:684-714 | no run loses or replaces a row, but that of a post discarded for its own failure; a row turns read exactly when its conversation is marked read |
| OutboxRows.RedeliveryIgnored | runtime/experience/share_chat.go:684-714 | delivering a stored id again, at any later time, changes nothing |
| OutboxRows.RowsAreBrought | runtime/experience/share_chat.go:552-714 | over every run each new row was composed here, or came in a wire that opened under the keys of its circle and was signed by a member active there |
| OutboxRows.RemovedIsSilent | runtime/experience/share_chat.go:662-680 | from the moment a core stores the revocation of a device, no delivery of an envelope of that device is taken, at any later point of any run of the circle |
| Outbox.ChatDb.ResealOutbox | runtime/experience/share_keys_exchange.go:223-249 | row by row in queue order, what the old key opens is sealed under the new one, up to the first row that cannot be written |
| OutboxLaws.ResealedItemIff | runtime/experience/share_keys_exchange.go:223-249 | ids, topics and times stay, and a wire that opened under the old key opens to the same envelope under the new one if and only if that key is usable |
| OutboxEffects.ResealLeaves | runtime/experience/share_keys_exchange.go:223-249 | row by row: a row of the circle that opened and that the reseal got to reopens to the same envelope under a key of 32 bytes; every other row is as before |
| OutboxLaws.QueueResealed | runtime/experience/share_keys_exchange.go:223-249 | the order of the queue stays, however far the reseal gets |
| OutboxKeys.MissedStrands | runtime/experience/share_keys_exchange.go:194-249 | a queued item that is behind, with no reseal left to move it on, never opens under the current key of its circle again, on any later run |
| Pairing.WelcomeOpensIff | runtime/experience/pairing.go:98-175 | a welcome opens if and only if session, joiner, member and circle are the ones it was made for |
| Pairing.PairingTable.ExpirePairings | runtime/experience/pairing_session.go:102-111 | closes what is past its deadline and drops what has been closed for long |
| Pairing.PairingTable.MemberHandlePair | runtime/experience/pairing_session.go:252-305 | the member's answer to hello, reveal, poll and cancel, and the new table |
| PairingEffects.HelloGives | runtime/experience/pairing_session.go:262-274 | a hello with a usable new id opens a connecting session while fewer than eight are open, answered with the nonce; any other is refused and changes nothing |
| PairingEffects.RevealGives | runtime/experience/pairing_session.go:275-287 | a reveal moves a connecting session to comparing, with the code of its parts, if and only if the nonce is the committed one, and fails it with any other |
| PairingEffects.PollGives | runtime/experience/pairing_session.go:288-297 | a poll is answered with exactly the welcome the session holds, and the session is then joined exactly if it holds one |
| PairingEffects.CancelGives | runtime/experience/pairing_session.go:298-302 | a cancel rejects exactly an open session |
| PairingJoins.PairingCompletes | runtime/experience/pairing_session.go:252-560 | from the start there is a run on which both people confirm one code, the joiner gets exactly the member's welcome, and both sessions end joined |
| Pairing.HelloOpensIff | runtime/experience/pairing_session.go:263-275 | a hello opens a session if and only if its id is usable and unknown and fewer than eight are open; nothing else adds one |
| PairingRuns.NoNinthSession | runtime/experience/pairing_session.go:263-275 | no step of the network adds a session to the member while eight are open |
| PairingRuns.HelloOnce | runtime/experience/pairing_session.go:179-195 | a repeated or delayed hello never opens its session again, for it is stale before the old one is dropped, unless the member restarted |
| PairingRuns.RunSound | runtime/experience/pairing_session.go:252-560 | every step of both sides and the network, restarts included, keeps the sessions consistent, over whole runs |
| PairingRuns.NonceIssuedOnce | runtime/experience/pairing_session.go:252-275 | no nonce is issued twice for one session unless the member restarted after the attempt began |
| PairingRuns.CodesAgree | runtime/experience/pairing_session.go:276-288 | whenever both sides of a session hold a code, it is the same if and only if they hold the same nonce, and always unless the member restarted after the attempt began |
| PairingRestarts.CodesAgreeIff | runtime/experience/pairing_session.go:252-288 | over every run the nonce a joiner holds is one the member issued when it opened the session, and the codes are the same if and only if it is that of the last opening |
| PairingRestarts.NotReopenedIff | runtime/experience/pairing_session.go:252-288 | with nonces that never repeat: if and only if the session was not opened again after the opening whose nonce the joiner took |
| PairingRestarts.RestartSplitsCodes | runtime/experience/pairing_session.go:252-288 | a run with such a restart on which the two codes differ |
| PairingRuns.JoinedNeedsBoth | runtime/experience/pairing_session.go:466-560 | a joiner that joined did so after both people confirmed, the same code unless the member restarted after the attempt began |
| PairingRestarts.JoinedSameIff | runtime/experience/pairing_session.go:252-560 | the codes they confirmed last are the same if and only if the nonce the joiner took is that of the last opening before the member's last confirmation |
| WordPiece.Tokenizer.WordPiece | runtime/experience/tokenizer.go:115-143 | the greedy loop ends with the ids of the greedy cut, or the unknown id |
| WordPiece.GreedyIff | runtime/experience/tokenizer.go:115-143 | the result is the one cut whose every piece is the longest match at its place |
| WordPiece.PiecesMakeTheWord | runtime/experience/tokenizer.go:115-143 | unless it gives up, the pieces without "##" make up the word |
| WordPiece.ShortcutAgrees | runtime/experience/tokenizer.go:115-118 | the whole-word shortcut gives what the loop would |
| WordPiece.GivesUpIff | runtime/experience/tokenizer.go:115-143 | the loop gives up if and only if the word has no cut whose every piece is known and the longest at its place |
| TextEffects.TokensAre | runtime/experience/tokenizer.go:115-143 | the ids themselves: the word's own, or those of the pieces of its cut in order, or the unknown id alone when it has none |
| WordPiece.GreedyCanMissACut | runtime/experience/tokenizer.go:115-143 | an instance: a word it gives up on has a cut all the same |
| WordPiece.Tokenizer.Encode | runtime/experience/tokenizer.go:62-90 | fills the three arrays |
| WordPiece.EncodingShape | runtime/experience/tokenizer.go:62-90 | maxLen ids, at least 4: CLS first, SEP last among the covered, the words' ids between as far as they fit, padding after |
| WordPiece.MaskIs | runtime/experience/tokenizer.go:62-90 | ones, then zeros |
| Pooling.Sqrt64 | runtime/experience/tokenizer.go:179-188 | twelve steps from the value itself |
| Pooling.NewtonError | runtime/experience/tokenizer.go:179-188 | after the first step never below the root, and every step at least halves the error |
| Pooling.RootError | runtime/experience/tokenizer.go:179-188 | the result is within (s - 1)^2 / 2 / 2^11 of the root s |
| Pooling.MeanPoolL2 | runtime/experience/tokenizer.go:145-177 | nothing when rows are missing or none is kept, otherwise the scaled mean |
| TextEffects.MeansAre | runtime/experience/tokenizer.go:145-168 | each entry of the mean is the sum of its column over the kept rows, divided by their number |
| TextEffects.PooledIs | runtime/experience/tokenizer.go:163-177 | the pooled vector is the mean divided by the computed root of its squared length, entry by entry, or a zero mean |
| Pooling.PooledLength | runtime/experience/tokenizer.go:145-177 | a vector is returned exactly when no row is missing and some row is kept, and its squared length is at most 1 |
| Pooling.NormalizedLength | runtime/experience/tokenizer.go:165-177 | normalizing gives squared length at most 1, and 0 only for a zero mean |
| Pooling.NormalizedNearUnit | runtime/experience/tokenizer.go:165-177 | and no further below 1 than the error of the root allows |

## Left out

- Cryptography itself: Ed25519, HPKE (RFC 9180), AES-GCM, SHA-256 and TLS are symbolic; nonces and collisions are not modelled, and a pairing code stands for the parts its six digits are computed from.
- Sockets, mDNS, MQTT, WebSocket, HTTP handlers, PTY and process supervision, the dashboard and the tray.
- SQLite, JSON and files: a transaction, or a statement under the chat lock, is one atomic step, as is the update of a stored circle and the sealing of a post with the circle just loaded; a database statement does not fail on its own, except the row writes of a reseal; a failing discard after a failed post is therefore not modelled.
- Interleavings of several store instances or processes on one database.
- Joins of the first invite version, invites redeemed by token, and correcting a recorded creator: they change the roster outside the steps modelled here.
- RosterSteps.MergePeerRoster: leaves out the endpoint list that the code refreshes after the merge; folder permissions are left out as well.
- Colours and weight of screen cells, which nothing sets, and the JSON text of a snapshot.
- Terminal events, recordings, stored snapshots, participants and shares; deleting a session.
- The viewers' side of the terminal stream: tokens, queues and authentication codes.
- Chat groups, visibility by expiry and topics.
- Outbox.ChatDb.AcceptChatWire: the rules of direct and group conversations (share_chat_groups.go:400-414) are one parameter of a delivery.
- WordPiece.Tokenizer.Encode: starts from words already split and lowered; the split by Unicode classes and the reading of the vocabulary file are left out.
- Rounding: pooling is over exact reals, where the code uses 32-bit and 64-bit floats.
- Scoring, recall, embeddings and the foreign libraries behind them.
- Clock arithmetic of the grace window of a previous key and of the skew of roster requests: whether a delivery falls inside is a parameter.
- KeyMoves.MoveAgreed: the creator's own loss of its stored circle is not a step, since no rotation can follow it; of the conditions for deleting an idle circle only the one on active members is modelled; a welcome may be stored at any later time, where the code gives a session two minutes, and the joiner's check and store of it are one step.
- OutboxKeys.FollowedIff: keys that come back, as when a core stores a welcome of an earlier epoch, are covered by OutboxKeys.QueuedOpensIff only.
- ScreenChunks.SettledIff: asks that a screen two columns wider than p is long has a width that fits the code's int.
- McpFraming.Reader.FinishMcpFrame: a length too large to allocate stops the program; here it is a stream that is too short.
- AnsiScreens.AnsiScreen.Restore: asks for a snapshot whose sizes are not negative, on which the code would stop.
- Recovery.RecoveryBounded: a mark made by the call that discovery takes off, or that expires, before a later attempt is excluded by its hypothesis; the exact condition is Recovery.TriesTwiceIff.
- PairingRuns.JoinedNeedsBoth: covers one member core and any number of joiners; that every message was signed by its sender is part of the network, not proved of forgeries.
- LeaseRuns.EpochCountsGrants: epochs are unbounded numbers; the 64-bit column would need 2^63 grants to wrap.
- ScreenScrolls.UnscrolledQualifies: covers cells written by 7-bit bytes; a rune that takes more bytes is restored at its byte offset, one column further right for each extra byte before it.
