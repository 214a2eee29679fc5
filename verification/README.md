# A verified model of the wallet's credential ceremonies

The wallet links one application device at a time. A ceremony lives in a session, leaves one durable
pending record, and becomes an installed link. This project models the code that must hold when a
write fails, a process dies, a person cancels, or two commands interleave, and proves what it keeps.

* `Records`, `Links`: the pending record with its five stages, the installed link, the slot list of one
  application and its three stored forms.
* `LinkSpec`, `LinkStore`, `StoreRuns`: the secure store without compare-and-swap. `LinkSpec` says of
  each operation how the store before, the store after and the reported result may relate when a write
  succeeds, fails before it commits, or commits and then reports failure. `LinkStore` is the code in its
  own imperative form, proved against it. `StoreRuns` proves what every run keeps.
* `Transaction`, `Executor`, `Attempts`, `Clock`: the compensating transaction, the write-ahead executor
  of fifteen boundaries, the terminal fence of an attempt and its clock bound.
* `Recovery`, `Reload`, `Unlink`: what happens to a durable payload afterwards, re-establishing a
  capability, and removing a link together with its trusted pairs.
* `Policy`, `TrustRuns`, `Claimant`: the sorted table of trusted pairs, which nothing locks; what its
  interleaved loads and saves make of it; and how a pair comes to be in it.
* `Consent`, `Enrolment`, `Ledger`: the session as a state machine under arbitrary schedules, the two
  pending ceremonies of first-contact enrolment, and the pruned ledger of consumed request ids.
* `Base64`: the bounded reader of unpadded base64url (section 5 of RFC 4648).

Signatures, digests, DIDs, sealed checkpoints and protocol objects are values with equality. Every
await, network answer, custody prompt, clock reading and store failure is a parameter or a
nondeterministic choice. So are the other commands: the link store is locked for one operation at a
time, and between two sections of a command any number of others may run (`LinkStore.Elsewhere`); the
trust table is not locked at all, and others may save it between a call's own load and save
(`TrustStore.Elsewhere`). Where a guarantee has a premise about them, or about compensating writes, the
premise is read off a record the store itself keeps: `LinkStore.others` and `compensated`, and
`TrustStore.calls` with what each call loaded and found. The executor keeps, beside each event, the store
as it stood at that moment, and the trail of writes that led there.

## What the code does not promise

* `replace_pending` compares nine fields, not flow, relay, profile digest or offer expiry. A replacement that
  changes flow or expiry and whose write commits but reports failure is not undone. The transition
  methods never build one (`Transaction.FailedReplacementUndoneExactlyWhen`).
* A transaction begun while the store already holds a pre-payload value of the same attempt loses that
  value (`Transaction.RestoresExactlyWhen`).
* `install` is idempotent, but both commands around it load the pending record first. After an install
  that committed and reported failure, the repeated command is refused although the link is installed
  (`Recovery.CommandProceedsExactlyWhen`).
* The comment on `record` says a refused call leaves the map as it was; it has already pruned it. The
  stored entry is unchanged (`Ledger.RefusalKeepsMapExactlyWhen`).
* The comment in `cbcl_enrol_confirm` says a decline leaves nothing; it leaves the enrolment context,
  which is only taken after a release (`Enrolment.Session.Decide`). A confirmation with a wrong
  ceremony id discards the pending grant (`Enrolment.Session.TakeIssuance`).
* An unlink whose policy write commits but reports failure leaves that pair withdrawn although the slots
  stand; with a working rollback and no interference that is the only way (`Unlink.UnlinkLocal`).
* The comment on the policy's `insert` calls it atomic. It loads and saves the whole table with no lock in
  between, so a save that crosses another one undoes it: a removed pair can be trusted again although both
  calls answered Ok (`TrustRuns.RemovalIsLost`). A save does exactly its operation if and only if what it
  loaded agrees with what it finds outside its own pair (`Policy.SaveIsExactlyWhen`). Even so nothing
  enters the table that a person did not approve (`Claimant.TrustIsApproved`).
* The ledger accepts an id again exactly when another consume was written at a reading past its expiry
  and the reading then falls behind it again (`Ledger.AcceptedAgainExactlyWhen`). No clock need be set
  back: `prepare_issuance` reads the clock before it takes the ledger's lock, so a call stalled in between
  can sign a second grant for one request (`Enrolment.SecondGrantExactlyWhen`). By then the clock has shown
  the request's expiry, so the second grant is released only if the clock is afterwards set back below it
  (`Enrolment.Session.Run`).
* The wall clock may be set back. Then an unexpired ceremony can be displaced by a command that kept a
  later reading (`Enrolment.LiveDisplacedExactlyWhen`).

## Model

| member | source | states |
|---|---|---|
| `Records.ChainAdvances` | src-tauri/src/cbcl_v2_completion.rs:668-765 | Along every chain of stage transitions and checkpoint updates nothing fixed is revised, the stage rises by exactly one per transition, the generation by at least one per checkpoint, and from the issuer stage on issuer and closure are the previewed DID's. |
| `Records.ChainOrdered` | src-tauri/src/cbcl_v2_completion.rs:668-765 | Any later value of a chain is the same attempt with every earlier fact kept, and is valid. |
| `Records.ReplacementGap` | src-tauri/src/cbcl_v2_completion.rs:1849-1878 | Between two valid records that `replace_pending` accepts, being the same attempt is exactly keeping flow and offer expiry, the two fields it does not compare. |
| `Records.ComparedFields` | src-tauri/src/cbcl_v2_completion.rs:1794-1878 | What the compensation compares is everything but the version, the sealed checkpoint and the stage; what a replacement is compared on leaves out flow, relay, profile digest and offer expiry as well. |
| `Records.TamperedPendingIsRefused` | src-tauri/src/cbcl_v2_completion.rs:767-806 | Of a valid pending record no tied value can be altered alone: not the application, relay, profile or carrier, the kind or intent digest of any of the four objects, the version, expiry or checkpoint, nor a stage's time, issuer, closure or grant. |
| `Records.AgreeingPendingIsValid` | src-tauri/src/cbcl_v2_completion.rs:767-806 | A record whose values agree is valid at its first stage, in either flow and after either kind of comparison. |
| `Records.TransitionsExactlyWhen` | src-tauri/src/cbcl_v2_completion.rs:668-765 | From a valid record each transition is granted exactly at its own stage, under the previewed issuer, its complete closure and the planned grant id, and moves the stage alone; a checkpoint is taken exactly if newer. |
| `Links.InstalledCarriesChain` | src-tauri/src/cbcl_v2_completion.rs:997-1104 | The installed record built at the end of a chain carries the grant id, issuer, closure, grant and payload hash each stage fixed, and the hub's signed status names the same ones. |
| `Links.ReceiptInstallsExactlyWhen` | src-tauri/src/cbcl_v2_completion.rs:997-1104 | A receipt installs exactly when everything it and the grant name is the pending record's, and each of the installed record's values, its relay and flow among them, is then the pending's, its carrier's, its offer's or the signed status's. |
| `Links.InstalledAgrees` | src-tauri/src/cbcl_v2_completion.rs:1251-1344 | Value by value: an installed record is valid exactly when its profiles, grant, account, closure and signed status all name the same application, issuer, authority, device, grant and digests, and its profile keeps the offer key. |
| `Links.ValidateSlots` | src-tauri/src/cbcl_v2_completion.rs:1998-2036 | The one-pass scan accepts exactly the lists of at most 16 valid slots of the application with one root, at most one pending, and distinct installed ceremonies and devices. |
| `Links.ValidSlotsMeans` | src-tauri/src/cbcl_v2_completion.rs:1998-2036 | The admitted lists spelled out over the records: at most sixteen valid ones of the application and one root, at most one pending, each ceremony and device once. |
| `Links.ClashMeansNoSibling` | src-tauri/src/cbcl_v2_completion.rs:1998-2036 | What the scan remembers clashes with a slot exactly when some slot behind it is not its sibling. |
| `Links.TextRoundTrip` | src-tauri/src/cbcl_v2_completion.rs:1972-2060 | Stored text and slot list determine each other: every admitted list reads back from its text, and every recognised text is the one its list is written as. |
| `LinkStore.LinkStore.PersistPending` | src-tauri/src/cbcl_v2_completion.rs:1486-1503 | Persisting: idempotent on the same value, refused beside another pending, index row before entry, every write failing before or after it commits. |
| `LinkStore.LinkStore.ReplacePending` | src-tauri/src/cbcl_v2_completion.rs:1849-1878 | Replacing exactly the expected pending in its position, after the nine-field comparison, under any write failure. |
| `LinkStore.LinkStore.RemoveExactPending` | src-tauri/src/cbcl_v2_completion.rs:1777-1787 | Removing exactly the expected pending; a changed, installed or absent slot refuses. |
| `LinkStore.LinkStore.RemovePrePayloadAttempt` | src-tauri/src/cbcl_v2_completion.rs:1794-1832 | The compensation: only a pending of the same thirteen identity fields that is not payload-prepared is removed. |
| `LinkStore.LinkStore.InstallLink` | src-tauri/src/cbcl_v2_completion.rs:1894-1931 | Installing replaces the expected pending in place; an already installed equal link succeeds without a write. |
| `LinkStore.LinkStore.RepinInstalled` | src-tauri/src/cbcl_v2_completion.rs:1683-1711 | Re-pinning replaces exactly the expected installed record, and only when nothing but its current profile differs. |
| `LinkSpec.SameButProfileMeans` | src-tauri/src/cbcl_v2_completion.rs:1683-1711 | A re-pin may change the current profile and its digest, and no other of the record's values. |
| `LinkStore.LinkStore.PurgeAllLinks` | src-tauri/src/cbcl_v2_completion.rs:1835-1845 | Entries go one by one in index order, the index after them; a failure leaves a prefix deleted. |
| `LinkStore.LinkStore.PruneListing` | src-tauri/src/cbcl_v2_completion.rs:1510-1606 | A listing drops exactly the index rows whose entry is gone and touches no entry. |
| `LinkStore.LinkStore.WriteSlotList` | src-tauri/src/cbcl_v2_completion.rs:2038-2060 | One replacement of the entry, or deletion of it and then of its index row; an inadmissible list writes nothing. |
| `LinkStore.LinkStore.Search` | src-tauri/src/cbcl_v2_completion.rs:2078-2094 | Binary search over the sorted index is membership, and an absent identifier's place is the one the specification inserts at. |
| `LinkStore.LinkStore.StoreIndex` | src-tauri/src/cbcl_v2_completion.rs:2096-2144 | An index is written exactly when it is strictly ascending and within 256 rows, and removed when empty. |
| `LinkSpec.IndexMeans` | src-tauri/src/cbcl_v2_completion.rs:2078-2144 | The stored index read back: none, or version one with at most 256 identifiers in strict order, and what is written of a list is what is read of it. |
| `Prelude.LessMeans` | src-tauri/src/cbcl_v2_completion.rs:2078-2094 | The order of identifiers: the first differing character decides, and a proper prefix comes first. |
| `LinkStore.LinkStore.LoadInstalled` | src-tauri/src/cbcl_v2_completion.rs:1668-1678 | The search from the end returns the last installed slot of the list. |
| `LinkStore.LinkStore.LoadPending` | src-tauri/src/cbcl_v2_completion.rs:1881-1890 | The pending slot of the list, or refusal. |
| `StoreRuns.StepKeepsSound` | src-tauri/src/cbcl_v2_completion.rs:1486-2104 | Every operation, whichever writes fail and however, keeps: each entry recognises with its pending last, the index recognises, and every entry is indexed. |
| `StoreRuns.ReachableSound` | src-tauri/src/cbcl_v2_completion.rs:1486-2104 | Every store reachable by any run of operations is sound. |
| `StoreRuns.SoundMeans` | src-tauri/src/cbcl_v2_completion.rs:1998-2104 | Soundness spelled out: at most 16 slots, one root, a pending only last, distinct installed ceremonies and devices, a strictly sorted index of at most 256 that names every non-empty entry. |
| `StoreRuns.SuccessMeans` | src-tauri/src/cbcl_v2_completion.rs:1486-1931 | Whatever failures it survived inside, an operation that reports success has made of its application's slots exactly its own change, appended, replaced, removed, settled or re-pinned one record, and touched no other application. |
| `StoreRuns.PurgeLeavesNothing` | src-tauri/src/cbcl_v2_completion.rs:1835-1845 | In every run a purge that reports success leaves no entry of any application and no index. |
| `StoreRuns.LoadsNewest` | src-tauri/src/cbcl_v2_completion.rs:1668-1678 | In every run the loader returns the last device whose install committed, as since re-pinned, unless it was unlinked. |
| `StoreRuns.DeviceStep` | src-tauri/src/cbcl_v2_completion.rs:1668-1711 | One step moves the newest device exactly as the history of committed operations says. |
| `Transaction.TransactionRestores` | src-tauri/src/cbcl_v2_completion.rs:894-959 | For every script of replacements that keep the attempt, every ending and every way its writes fail, with compensation's own accesses succeeding: all entries end as they began, or with exactly the durable payload record appended. |
| `Transaction.RestoresExactlyWhen` | src-tauri/src/cbcl_v2_completion.rs:894-959 | Restoration of every run holds if and only if the store held no pre-payload value of the attempt at the start. |
| `Transaction.OwnValueIsLost` | src-tauri/src/cbcl_v2_completion.rs:894-959 | A concrete run that loses a pre-payload value already stored, for every such store. |
| `Transaction.FailedReplacementUndoneExactlyWhen` | src-tauri/src/cbcl_v2_completion.rs:1794-1878 | A replacement whose write fails is always undone if and only if it keeps flow and offer expiry, which `replace_pending` does not compare. |
| `Transaction.TransitionsAreSteady` | src-tauri/src/cbcl_v2_completion.rs:668-765 | Every replacement a transition method builds keeps the attempt and stays before the payload, except the payload itself. |
| `Transaction.CompensationIsExact` | src-tauri/src/cbcl_v2_completion.rs:953-959 | Whatever any writer left, sound or not, dropping the guard changes nothing or removes exactly one pending of the guard's identity that is not payload-prepared. |
| `Executor.ScriptIsGuarded` | src-tauri/src/cbcl_v2_commands.rs:614-964 | The one order of events is write-ahead: each irrevocable effect follows its own entry and the durable record it needs. |
| `Executor.HistoryIsWriteAhead` | src-tauri/src/cbcl_v2_commands.rs:614-964 | In every history of the executor, cut anywhere, each irrevocable effect comes directly after its entry and after the record it needs was stored, and so does whatever may still follow. |
| `Executor.HistoryHeeds` | src-tauri/src/cbcl_v2_commands.rs:645-964 | In every history of the executor, cut anywhere: anything stored or sent means the offer had not expired when it was opened and the derived issuer is the one previewed; a signature of the issuer, that it had not expired at the effect time; a resolved issuer, that its publication was acknowledged; a signed grant, that the resolved closure matched; the payload, that it had not expired then. |
| `Executor.DeliveredWhole` | src-tauri/src/cbcl_v2_commands.rs:614-964 | Where the payload frame is out, all fifteen boundaries were passed and FinalApprove sent, the issuer signed, published and resolved, and the grant signed. |
| `Executor.Executor.Advance` | src-tauri/src/cbcl_v2_commands.rs:614-964 | An entry or effect goes on record beside the store of its moment, which, unless another command touched it, holds the pending record the effect needs. |
| `Executor.EffectFollowsCommit` | src-tauri/src/cbcl_v2_commands.rs:614-964 | Whatever other commands do to the store, every irrevocable effect comes after a write of the run itself that left the store holding the record this effect needs. |
| `Executor.Executor.NoteStored` | src-tauri/src/cbcl_v2_completion.rs:894-951 | A record is noted as stored only once a write of the run itself left the store holding it; with no other writer it stands on top of everything the run began with. |
| `Executor.PersistTouches` | src-tauri/src/cbcl_v2_completion.rs:1486-1503 | The first write, from any store and however it fails, touches no slot but a pending of the attempt; its success leaves that record pending. |
| `Executor.ReplaceTouches` | src-tauri/src/cbcl_v2_completion.rs:1849-1878 | A replacement, from any store and however it fails, touches no slot but a pending of the attempt; if it took place its record is the pending one. |
| `Executor.CompensateTouches` | src-tauri/src/cbcl_v2_completion.rs:1794-1832 | A compensation, from any store and however it fails, touches no slot but a pending of the attempt. |
| `Executor.CompensationKeepsPayload` | src-tauri/src/cbcl_v2_completion.rs:1794-1832 | A durable payload is left alone by whatever compensation follows, refused or not. |
| `Executor.CompensatedDrops` | src-tauri/src/cbcl_v2_completion.rs:953-959 | A recorded compensation either ran with its accesses answered or is on record as refused. |
| `Executor.VisitedInOrder` | src-tauri/src/cbcl_v2_completion.rs:815-831 | The boundaries passed in any run are a prefix of the fifteen, in their order. |
| `Executor.EffectsStopAtFence` | src-tauri/src/cbcl_v2_commands.rs:530-547 | An effect after revocation or expiry is the single one already entered: a frame or, in the earlier flow alone, a signature; nothing is published or resolved behind the fence, and a Payload frame leaves only if its own send was entered with the payload record durable. |
| `Executor.Executor.CompleteApproved` | src-tauri/src/cbcl_v2_commands.rs:614-964 | With cancellation, expiry and faults at any point, and other commands free to act on the store before each of its sections: an offer expired at opening or another derived issuer leaves no event and no write; the history is a prefix of the one script, write-ahead and heedful of every expiry and answer; every record was noted beside a store the run itself left holding it, the store came about by others' operations and own writes that touch only pendings of the attempt, and success means every effect happened, in order, with the payload frame last. With no other writer the store held the record each effect needs at the moment of the effect, and a failure leaves the entries as they were, or exactly the payload added, or its one compensation on record as refused. |
| `Executor.Executor.ReplaceAt` | src-tauri/src/cbcl_v2_completion.rs:927-938 | A boundary replacement keeps the guard tied to the last record of the history, and the store too unless another command touched it; a failure leaves something the guard undoes. |
| `Executor.Executor.Enter` | src-tauri/src/session.rs:133-152 | Entering checks and counts under one lock: it succeeds only while the attempt is live. |
| `Executor.Executor.Sign` | src-tauri/src/session.rs:260-276 | A signing step that succeeds made exactly its signature and leaves the attempt live, in the single-link flow with the retained root still held. |
| `Executor.PrePayloadTransaction.Begin` | src-tauri/src/cbcl_v2_completion.rs:894-901 | The guard is armed before the store call; a failed begin is compensated, whatever others did in between, with the answer on record. |
| `Executor.PrePayloadTransaction.CommitPayload` | src-tauri/src/cbcl_v2_completion.rs:940-951 | Disarmed exactly when the payload replacement succeeded; every failure compensates, whatever others did in between, with the answer on record. |
| `Executor.PrePayloadTransaction.Drop` | src-tauri/src/cbcl_v2_completion.rs:953-959 | The destructor compensates exactly once if still armed, and what the store answered is on the store's record. |
| `Attempts.FenceIsFinal` | src-tauri/src/session.rs:81-276 | Over any run of checks (the watchdog's included), entries and their ends, cancellations, clearings, bindings and retentions: the fence is never lifted, an unlocked root never outlives it, and nothing is entered after it. |
| `Attempts.FenceFallsExactlyWhen` | src-tauri/src/session.rs:96-130 | A check lets the fence fall exactly for another root, and in the single-link flow for a clock that cannot be read, has gone back, or reached the cutoff or an expiry; it drops the root with it, and whatever fell it every later check answers. |
| `Attempts.GrantedExactlyWhen` | src-tauri/src/session.rs:133-240 | An entry, a bound and a retained root are each granted exactly behind a check that passes: the entry below the counter's width, the bound once and in the single-link flow, the root once and under a bound. |
| `Clock.WindowHolds` | src-tauri/src/cbcl_v2_clock.rs:105-134 | For every sequence of checks with arbitrary wall readings: accepted continuous readings never fall, and lie less than 120 seconds and less than either remaining time after the start, before both expiries. |
| `Clock.InsideIsAccepted` | src-tauri/src/cbcl_v2_clock.rs:124-134 | Conversely, of readings that never fall and stay before the cutoff and both expiries every one is accepted. |
| `Clock.NewDeadlineMeans` | src-tauri/src/cbcl_v2_clock.rs:106-123 | The cutoff lies the least of 120 seconds and both remaining times ahead; nothing left refuses as expired, a cutoff past 64 bits as no clock. |
| `Clock.ExpiryIsFinal` | src-tauri/src/cbcl_v2_clock.rs:124-134 | Once the continuous clock reached the cutoff no later reading is accepted, whatever the wall clock says. |
| `Clock.ScaleIsFloor` | src-tauri/src/cbcl_v2_clock.rs:28-33 | The scaled reading is the exact floor of the product, refused only for an empty timebase or a floor past 64 bits. |
| `Clock.ScaleMonotone` | src-tauri/src/cbcl_v2_clock.rs:28-33 | More ticks never read earlier, and fewer are never refused where more are accepted. |
| `Clock.Bound.New` | src-tauri/src/cbcl_v2_clock.rs:106-123 | The window is the least of 120 seconds and both remaining times, refused if none is left or the cutoff would overflow. |
| `Clock.Bound.Check` | src-tauri/src/cbcl_v2_clock.rs:124-134 | One check of the kept bound is one step of the specification, and a refusal moves nothing. |
| `Recovery.RecoverySettles` | src-tauri/src/cbcl_v2_commands.rs:1494-1680 | Over any run of acknowledgements, installs and withdrawals with failing writes and stale copies: the slots are the original up to the checkpoint, the original with the installed record in the pending's place, or the original without it, and the last only by a withdrawal. |
| `Recovery.ExtendedStands` | src-tauri/src/cbcl_v2_commands.rs:945-964 | A store in which the executor left the payload appended is where recovery starts: the record waits in last place. |
| `Recovery.OutcomeIsFinal` | src-tauri/src/cbcl_v2_completion.rs:1894-1931 | What is settled or withdrawn stays so under any further attempts. |
| `Recovery.InstallAgain` | src-tauri/src/cbcl_v2_completion.rs:1894-1931 | Repeating a committed install succeeds, or is refused a read, and changes nothing. |
| `Recovery.CommandProceedsExactlyWhen` | src-tauri/src/cbcl_v2_commands.rs:1494-1499 | A command gets past its first load exactly while the record still waits; after a committed install it is refused. |
| `Recovery.ReceiptIgnoresCheckpoint` | src-tauri/src/cbcl_v2_completion.rs:997-1104 | The installed record is the same whichever sealed checkpoint it was built under. |
| `Recovery.Recover` | src-tauri/src/cbcl_v2_commands.rs:1499-1680 | Behind the first load and whatever others did since: an attempt is made exactly when it is justified, on the record loaded, after the relay window, and by a verified verdict of the hub; without the person's approval only if the current profile still lists the key, kid and jwk, that the historical one retains for the offer's kid, or, for a negative status, if the key that signed it is that key. The person is asked for approval exactly when nothing else is missing. |
| `Recovery.RotationMeans` | src-tauri/src/cbcl_v2_commands.rs:1696-1735 | The two tests of the commands are, over the first keys listed under a kid, exactly that the retained key is no longer listed unchanged, and that the key that signed now is another. |
| `Recovery.Finish` | src-tauri/src/cbcl_v2_commands.rs:989-1051 | With other commands free to do anything to the store between its sections: success means the link of exactly this record and receipt is installed; and if the others only made attempts on the record too, its outcome has only moved forward. |
| `Recovery.FinishPending` | src-tauri/src/cbcl_v2_commands.rs:1917-1960 | With its load: what it installs is the link of the record that was pending when it began, and where none waits it is refused and changes nothing. |
| `Recovery.RecoverPending` | src-tauri/src/cbcl_v2_commands.rs:1494-1680 | With its load: it attempts what is justified of the record that was pending when it began, under the same conditions on the keys, on whatever store the others have made of it since; no attempt means that none was justified or the record could not be loaded. |
| `Recovery.OthersStand` | src-tauri/src/cbcl_v2_completion.rs:1777-1931 | Any number of attempts by others leaves the outcome standing or moves it forward. |
| `Unlink.LoadLocal` | src-tauri/src/cbcl_v2_completion.rs:1611-1650 | The pending slot or the newest, the whole snapshot, and the relays sampled: of a pending ceremony its own if it is of the earlier flow, of a link those of every link of the earlier flow, each once with what its own lookup answered; with no other writer they are of one table. |
| `Unlink.UnlinkLocal` | src-tauri/src/cbcl_v2_completion.rs:1716-1770 | With other commands saving the trust table at any point: the slot list is written only from an unchanged snapshot, and only pairs looked up as trusted and taken out are ever put back. If the others left the doomed pairs alone and every save of the run agreed with the table it found, success means that the table is theirs less exactly the doomed pairs, and after an error whose inserts were all answered Ok it lacks none of them if and only if no removal hid its commit. With no other writer this holds of the record to the letter, and the pairs that leave are exactly those sampled as trusted, but that abandoning a pending ceremony keeps the pair of every relay an installed link of the application uses. |
| `Unlink.UnlinkAlone` | src-tauri/src/cbcl_v2_completion.rs:1716-1770 | With no other writer: a success leaves the record less exactly the doomed pairs, and after an error whose inserts were all answered Ok the record is the one found if and only if no removal hid its commit. |
| `Unlink.QuietIsApart` | src-tauri/src/cbcl_v2_policy.rs:153-171 | If no other save is committed during a run, each of its saves agrees with the table it finds and no pair of its own is disturbed. |
| `Unlink.WithdrawPair` | src-tauri/src/cbcl_v2_completion.rs:1749-1757 | One withdrawal after whatever others did and, on its failure, the rollback of those before it, with the same exact condition. |
| `Unlink.RollBack` | src-tauri/src/cbcl_v2_completion.rs:1751-1768 | If every insert was answered Ok, and others kept apart, every pair withdrawn is back, up to the one whose removal hid its commit. |
| `Unlink.UnlinkLeaves` | src-tauri/src/cbcl_v2_completion.rs:1716-1770 | A successful unlink leaves the list without exactly its pending last slot, or nothing, and no other entry moved. |
| `TrustRuns.TableStaysWell` | src-tauri/src/cbcl_v2_policy.rs:44-176 | Over every interleaving of the loads and saves of any number of calls, whatever saves fail: the record stays readable, strictly sorted and within 256 rows. |
| `TrustRuns.RefinesSetExactlyWhen` | src-tauri/src/cbcl_v2_policy.rs:153-176 | Over every interleaving the table means the set of the committed operations all along if and only if every committed save agreed with the table it found outside its own pair. |
| `TrustRuns.AloneRefinesSet` | src-tauri/src/cbcl_v2_policy.rs:153-176 | If no write of another call is committed between any save and its load, the table means the set of the committed operations throughout. |
| `TrustRuns.RemovalIsLost` | src-tauri/src/cbcl_v2_policy.rs:153-171 | A witness for any two pairs: a removal and an insert both load the table and both answer Ok, and the removed pair is trusted again. |
| `TrustRuns.CallIsSections` | src-tauri/src/cbcl_v2_policy.rs:153-171 | Every answer of an insert or removal is a load section and, unless it ended there, a save section. |
| `Policy.SaveIsExactlyWhen` | src-tauri/src/cbcl_v2_policy.rs:153-171 | A committed save does exactly its operation to the table it finds if and only if what it loaded agrees with that outside its own pair. |
| `Policy.SortedUnique` | src-tauri/src/cbcl_v2_policy.rs:52-73 | A set of pairs has one sorted vector. |
| `Policy.AdmitsMeans` | src-tauri/src/cbcl_v2_policy.rs:52-73 | The record spelled out: version one, at most 256 pairs of the grammar, strictly by application and then by relay; its pairs are the trusted ones, and no record trusts none. |
| `Policy.RemoveThenInsert` | src-tauri/src/cbcl_v2_policy.rs:90-123 | With nobody in between, removing a pair and inserting it again restores the same record. |
| `Policy.ExactPairPolicy.Recognise` | src-tauri/src/cbcl_v2_policy.rs:52-73 | One pass with the row before accepts exactly the records of the right version, size, grammar and strict order. |
| `Policy.ExactPairPolicy.Search` | src-tauri/src/cbcl_v2_policy.rs:75-88 | Binary search is membership, and an absent row's place splits the vector. |
| `Policy.ExactPairPolicy.State` | src-tauri/src/cbcl_v2_policy.rs:75-88 | Trusted exactly when the pair is in the set. |
| `Policy.ExactPairPolicy.Insert` | src-tauri/src/cbcl_v2_policy.rs:90-109 | Adds exactly the pair, keeps order and bound, and refuses only an unrecognised pair or a full table without the pair. |
| `Policy.ExactPairPolicy.Remove` | src-tauri/src/cbcl_v2_policy.rs:111-123 | Removes exactly the pair and keeps order. |
| `Policy.TrustStore.Insert` | src-tauri/src/cbcl_v2_policy.rs:153-161 | Load, insert, and a save that does not look again, with others acting in between: the table is left as found, or becomes the one loaded with exactly that pair added; the record says what was loaded and found. |
| `Policy.TrustStore.Remove` | src-tauri/src/cbcl_v2_policy.rs:164-171 | Load, remove, and a save that does not look again, with others acting in between: the table is left as found, or becomes the one loaded less exactly that pair; the record says what was loaded and found. |
| `Claimant.TrustIsApproved` | src-tauri/src/cbcl_v2_claimant.rs:288-458 | Over every history, with loads and saves of bindings, unlinks and their rollbacks interleaved anyhow: a pair trusted now, or in a table some call may yet save, was approved as new for exactly that application and relay, and a capability of that approval then began to bind it. A lost update brings back only such a pair, and the ceremony gesture never adds one. |
| `Claimant.FirstEntryIsBound` | src-tauri/src/cbcl_v2_claimant.rs:401-440 | The first time a pair is in the table it is by the save of a binding newly approved for it, never by a rollback or a stale save. |
| `Claimant.AuthoriseMeans` | src-tauri/src/cbcl_v2_claimant.rs:288-308 | A pair not yet trusted goes on only by approval, and then as newly approved; a trusted one only as trusted before; either may be declined, and every other decision is refused. |
| `Claimant.CandidateMeans` | src-tauri/src/cbcl_v2_claimant.rs:268-284 | Only a carrier whose application the profile is of, and whose relay it declares exactly once, goes on. |
| `Claimant.PreparedClaimant.BindFinishedProfile` | src-tauri/src/cbcl_v2_claimant.rs:401-458 | Binding makes one insert of exactly its pair, and only for a new-pair approval, demands trust of an existing pair, and fixes the account selection once. |
| `Ledger.PrunedRefinesHistory` | src-tauri/src/replay.rs:72-111 | At any time not before the last call an id is held exactly when some committed consume of it has not expired, and at most 256 are held. |
| `Ledger.AnswersMean` | src-tauri/src/replay.rs:92-111 | A replay names a live committed use, an acceptance means none, a full ledger is 256 live ids, and a refusal leaves the stored entry unchanged. |
| `Ledger.AcceptedOnce` | src-tauri/src/replay.rs:72-111 | With a clock that does not fall, calls before their expiry and a fixed expiry per id, an id is accepted at most once. |
| `Ledger.AcceptedAgainExactlyWhen` | src-tauri/src/replay.rs:72-111 | Under any clock, an id last written with an expiry still ahead of the call can be accepted again if and only if since then some other write was read at or past that expiry, and there is room. |
| `Ledger.StoredExactlyWhile` | src-tauri/src/replay.rs:72-111 | Under any clock, a written id stays stored exactly while no later write was read at or past its expiry. |
| `Ledger.AcceptedTwiceOnlyAcross` | src-tauri/src/replay.rs:72-111 | With a fixed expiry per id, two acceptances of one id before its expiry have between them a write read at or past it; if no reading before the second presentation reaches the expiry there is no second acceptance. |
| `Ledger.ClockMustNotFall` | src-tauri/src/replay.rs:72-111 | A witness: a run with the clock set back in which the same id is accepted twice, each call before its expiry. |
| `Ledger.RefusalKeepsMapExactlyWhen` | src-tauri/src/replay.rs:88-107 | The in-memory map survives a refusal unchanged exactly when nothing in it had expired. |
| `Ledger.Book.Record` | src-tauri/src/replay.rs:92-111 | Prune, then refuse a live id or a full map, else record: which answer, and the whole new map. |
| `Ledger.RequestLedger.ConsumeId` | src-tauri/src/replay.rs:72-79 | The stored entry after each answer, with a store failure that may hide a committed write. |
| `Enrolment.Session.Run` | src-tauri/src/app_grant.rs:365-855 | Over every interleaving of the commands' sections, with clock readings that may fall and any expiries: one release per preparation, at a reading before its expiry, and only on the yes a person gave to that ceremony in a confirmation of this run, each confirmation used once; each bundle sealed under a context of its own confirmed ceremony and sent once; only a ceremony expired at the reading the command kept, or its own, displaced; trust only after a successful PUT; a request signed or released for twice only past an expiry of it that the clock had shown. With a clock never set back and one expiry per request, one release per request id and no live ceremony displaced. |
| `Enrolment.ReleaseHonest` | src-tauri/src/app_grant.rs:579-595 | A release before its expiry is the only one of its preparation, under any clock. |
| `Enrolment.ReleaseRanOut` | src-tauri/src/app_grant.rs:579-595 | A second release of a request comes only once the clock has shown an expiry of it. |
| `Enrolment.SteadyOnce` | src-tauri/src/app_grant.rs:365-595 | With everything done at the latest reading so far and one expiry per request, no request is released for twice; nor is a live ceremony displaced. |
| `Enrolment.LiveDisplacedExactlyWhen` | src-tauri/src/app_grant.rs:467-492 | Another ceremony is displaced before the clock reaches its expiry exactly when the clock has fallen below the reading kept, across that expiry. |
| `Enrolment.SignedTwiceOnlyAcross` | src-tauri/src/app_grant.rs:376-395 | Two signatures for one request, under any clock and any expiries: some consume since the first was written at or past an expiry of that id; with one expiry it lies between the two that granted them. |
| `Enrolment.SecondGrantExactlyWhen` | src-tauri/src/app_grant.rs:376-395 | A call that kept an earlier reading is granted a request already signed for exactly when the last write of it has run out by that reading, or some call since was written at a reading past its expiry, and there is room. |
| `Enrolment.Session.Authorise` | crates/selfsame-app-identity/src/authorise.rs:170-172 | An unexpired offer goes on with the clock reading it was judged by. |
| `Enrolment.Session.LandContext` | src-tauri/src/app_grant.rs:709-737 | A context lands exactly over nothing, over one expired at the reading kept, or over its own ceremony's. |
| `Enrolment.Session.Issue` | src-tauri/src/app_grant.rs:383-437 | With the reading kept from authorise, whatever happened since: a signature is made only behind a consume this very call was granted at that reading. |
| `Enrolment.Session.LandIssuance` | src-tauri/src/app_grant.rs:467-492 | A signed grant lands only over nothing, over one expired at the reading kept, or over its own ceremony's. |
| `Enrolment.Session.TakeIssuance` | src-tauri/src/app_grant.rs:556-577 | The pending grant is taken before its ceremony is compared, so a wrong id discards it; on its own ceremony the next task carries exactly this command's ceremony and the person's answer, and the answer goes on record. |
| `Enrolment.Session.Decide` | src-tauri/src/app_grant.rs:579-595 | A release needs the person's yes before the expiry; a refusal does not touch the enrolment context. |
| `Enrolment.Session.TakeContext` | src-tauri/src/app_grant.rs:819-838 | Whatever context is pending is taken; only the confirmed ceremony's own goes on to delivery. |
| `Enrolment.Session.Commit` | src-tauri/src/app_grant.rs:849-852 | Enrolment trust is the last step, by a task whose PUT succeeded. |
| `Enrolment.CoverKept` | src-tauri/src/app_grant.rs:383-395 | A request signed for, with one expiry that no reading has reached, is still in the ledger, and no call at any reading taken so far is granted it again. |
| `Consent.Session.Run` | src-tauri/src/cbcl_v2_single_link.rs:101-440 | Over every interleaving of commands, worker steps, cancellation, backgrounding and root changes every attempt has sent a prefix of IntentApprove, Preparation, FinalApprove, Payload, behind the decisions that authorise it; and an attempt that was dead at any point has since sent nothing but the one object whose send it had entered. |
| `Consent.ProperMeans` | src-tauri/src/cbcl_v2_single_link.rs:101-440 | Each object at most once and in order; none of a single-link attempt before its preview was rendered and its link pressed; FinalApprove only after a comparison was received. |
| `Consent.SendFits` | src-tauri/src/cbcl_v2_single_link.rs:305-331 | The object a step sends is the next of the path, with its consent on record. |
| `Consent.Session.Do` | src-tauri/src/cbcl_v2_single_link.rs:101-440 | One table says of every command when it is admitted and all it then does: the phase its claimant must rest in, the one job it starts and the decision it records. A cancellation, a root change or going to the background takes the live attempt down, and all but the last leave nothing at rest. |
| `Consent.Session.EffectMeans` | src-tauri/src/cbcl_v2_single_link.rs:101-440 | Whatever the table of commands and steps allows: a command sends nothing and records no decision but its own, a step records none, and behind a fallen fence only the entered send still happens. |
| `Consent.Session.CancelLink` | src-tauri/src/cbcl_v2_single_link.rs:431-440 | With the current tag and flow, expired or not, the attempt is dead and nothing of it is left at rest; with another nothing changes. |
| `Consent.Session.Proceed` | src-tauri/src/cbcl_v2_commands.rs:2091-2183 | A step checks the fence before it enters anything, delivers what it had entered regardless, goes on to the one next job of its flow, or drops the operation with its attempt. |
| `Consent.Session.Begin` | src-tauri/src/session.rs:334-387 | One live attempt at a time and none while a worker of the last one runs; what the session held is dropped only once the new attempt passed its first check. |
| `Consent.Session.TakePending` | src-tauri/src/cbcl_v2_single_link.rs:166-188 | Only the current attempt's own claimant, in the exact phase, leaves under the only lease. |
| `Consent.Session.Emit` | src-tauri/src/cbcl_v2_commands.rs:2091-2116 | One object, the next of the path, leaves after its entry even if revocation falls in between. |
| `Consent.Session.ReceiveComparison` | src-tauri/src/cbcl_v2_commands.rs:2156-2183 | A comparison is noted only by the worker that awaits it for this attempt. |
| `Consent.Session.Settle` | src-tauri/src/cbcl_v2_commands.rs:1867-1886 | What a finished job holds goes back to an empty place of its own attempt. |
| `Reload.RefreshSettles` | src-tauri/src/cbcl_v2_completion.rs:1188-1236 | After a refresh the same observation is usable with no replacement, and only the current profile changed. |
| `Reload.ReloadVerify` | src-tauri/src/cbcl_v2_commands.rs:1150-1335 | Behind its load and whatever others did since: the verdict, capable or not, is the one the observation determines; the capability is exactly agreement of everything observed with the record loaded; it fails only on a disagreeing quorum or the re-pin's own write, and the store is untouched or re-pinned to the profile observed. |
| `Reload.OneVerdict` | src-tauri/src/cbcl_v2_commands.rs:1150-1335 | No two verdicts say the same of one link and observation. |
| `Reload.ReloadNewest` | src-tauri/src/cbcl_v2_commands.rs:1123-1335 | With its load: the verdict and the capability are what was observed says of the device that was newest when it began, and only that device is re-pinned, on whatever store the others have made of it since. |
| `Reload.RepinsKeepLinks` | src-tauri/src/cbcl_v2_completion.rs:1683-1711 | Over any run of re-pins, whatever records their callers hold, every slot is the same up to the current profile of an installed record. |
| `Base64.DecodeBounded` | src-tauri/src/cbcl_v2_completion.rs:2164-2175 | Inverts the encoding of every byte string within the bound and refuses every other text. |
| `Base64.ExactlyEncodings` | crates/selfsame-app-identity/src/codec.rs:63-85 | Accepts exactly the canonical encodings of that many octets. |
| `Base64.DecodeInverts` | crates/selfsame-app-identity/src/codec.rs:48-51 | Decoding inverts encoding for every byte string (section 5 of RFC 4648). |
| `Base64.OneCandidate` | src-tauri/src/cbcl_v2_completion.rs:2164-2175 | At most one candidate length succeeds, and it is three quarters of the text's, rounded down. |
| `Base64.LengthNamesOctets` | crates/selfsame-app-identity/src/codec.rs:54-57 | The encoded length determines the octet length. |
| `Base64.GroupsAreNumbers` | crates/selfsame-app-identity/src/codec.rs:48-51 | Most significant bits first: each group of characters is the number its octets are, filled up with zero bits (section 4 of RFC 4648). |
| `Base64.AlphabetIs` | crates/selfsame-app-identity/src/codec.rs:48-51 | Three runs of consecutive characters, then the hyphen and the underscore (section 5 of RFC 4648). |

## Left out

- Octet limits of encoded records, entry names, and the JSON text itself: the stored text is a datatype, so canonical encoding is injective by construction and an over-long record is not refused for its length.
- Grammars of application identifiers, relay origins, DIDs and account handles: equality of strings or opaque values, or a predicate parameter in the policy table.
- Cryptography, the pairing reducer, profile and offer recognition, resolver closures: opaque values and nondeterministic answers.
- The announcement of the issuer in enrolment, the issuer's fingerprint and the account authority's answer beyond fail-closed: one more await with no effect on the two pending fields.
- Enrolment.Session.Issue: takes a granted consume and the signature behind it as one section, since nothing between the two reads shared state.
- Policy.TrustStore.Insert: what others do between its load and its save is some well-formed table or none; their own sections are followed in `TrustRuns` and `Claimant`.
- Recovery.Finish: leaves the relay acknowledgement and the archive exchange after an install out, because neither touches the record.
- Executor.Executor.CompleteApproved: its restoring clauses have the premise that no other command touched the store; what compensation does to whatever others left is `Transaction.CompensationIsExact`.
- Consent.Session.Run: the approved completion is two sends here, its durable stages and boundaries being those of the executor module; each worker step is one choice of outcome.
- Attempts.FenceIsFinal: the attempt's state is a value that its holder replaces; the watchdog is further checks, and the counter is as wide as on a 64-bit machine.
- Clock.Bound.Check: native clock calls are readings passed in.
- Sockets, TLS, HTTP, presence prompts, custody sealing, the first-version pairing pump, device lists and the publication queue, user interface and test seams.
