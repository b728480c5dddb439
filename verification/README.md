# LARRI: what keeps a rented GPU accounted for

LARRI rents machines that bill by the second. This project models its
cost-safety protocol and the data-handling code that protocol leans on, and
proves properties of the model in Dafny. `dafny verify dfyconfig.toml` checks
all of it.

| module | models |
|---|---|
| `Lifecycle`, `Journal`, `Store` | rig states; the append-only journal and its file; snapshots, the destroyed-rig guard, stale copies and writes cut short |
| `Accounting` | the protocol as a transition system over journal, snapshots and provider, in any interleaving |
| `Provider`, `Daemon` | a misbehaving marketplace, and the operations that rent, tear down, adopt and sweep, each a run of that system |
| `BringUp` | the fallback loop over offers, and who holds a rig meanwhile |
| `Supervise` | the polling loop of a serving rig |
| `Cost` | costing a rig by replaying its journal entries |
| `RigId`, `Label`, `Decimal`, `Gguf`, `Keys` | the ULID rig ID, the provider-side label, the GGUF header parser, the terminal key decoder |
| `Sizing`, `Rank` | memory planning and shard choice; choosing an offer |
| `Holder`, `Detach`, `ClientKeys` | the holder record, a detached launch following a log, the cached client-key file |
| `Wrappers`, `Order`, `Arith` | a missing value, byte-wise string order, facts about division |

## How the protocol is modelled

`Accounting.World` is everything that matters at one moment: the journal, the
snapshots, the instances the provider holds, and, for each rig, what has become
of its one create (still to be sent, in doubt, or settled with the instance it
made if it made one). No process can read that last part; it is what the world
is. `May` says which steps processes and the provider may take and `Do` what
each does. `RunsAreAccounted` is about every sequence of such steps, so a
process may die between any two of its own and any number of others may act in
between.

`Daemon` holds the real operations. Each step it takes on the store or the
provider is shown to be one that `May` allows, and the worlds it passes through
are kept in `history`; since every initial run of `history` is a run, every
point at which the process could die is covered. Between its steps it calls
`Interfere`, whose contract allows any run of steps by anyone; its body does
nothing, and callers know only the contract. Whether the provider answers,
whether a destroy does more than stop, whether hosts do as they are asked,
whether anyone still waits and what is wrong with the disk are part of the world
too (`Weather`), and anyone may change them at any moment. An operation that
falls short has to show the moment that excuses it (`Seen`): a teardown left
unconfirmed, a provider that was silent, or one that only stopped an instance it
still held. So each operation does its work wherever nothing stands in its way.
What is left to chance (`:|`) is how often it asks.

What the provider is assumed to do:

- each rig has one create, and an instance ID or a rig ID is never used twice;
- when `Get` or `List` answers, the answer is true, stopped instances included;
- a create that failed with anything but an unknown outcome has settled;
- a journal append is there whole or not at all, and its line is shorter than
  1 MiB. `Journal` gives the exact condition under which the file keeps that
  promise.

Nothing is assumed of the operator. A teardown of a rig with no instance on
record closes it on one empty listing, whether or not its create has settled
(internal/daemon/up.go:1605-1631). The model lets it, and keeps the rigs ended
so in `World.early`: they are the one exception to what `Accounted` says, a rig
becomes one only by such a teardown (`EarlyOnlyByEndingTooSoon`), and
`EndedWhileInDoubt` is how one is lost.

## What the proofs turned up

- `Journal.Append` does not start on a new line. After a crash in the middle of
  one entry, the next entry is glued to what was left and both are lost when the
  journal is read, the intent of a create included. It is read back exactly when
  the file ended in a newline (`AppendIsReadIffTerminated`).
- `RecordIntent` needs no leave, so a stale teardown can journal DRAINING after
  another's DESTROYED (`StaleIntentRebillsTheJournal`). Over any interleaving, a
  rig stored as destroyed is put back among the billable ones exactly when an
  intent to a billable state was written for it and nothing was journalled for
  it after (`RebilledIffUnansweredIntent`). The snapshot and the cost do not
  change.
- `excludedOffers` is not emptied when a bring-up starts
  (internal/daemon/up.go:901), although the comment above says exclusions belong
  to one bring-up. A bring-up that has tried nothing refuses an offer exactly
  when its listing failed in an earlier one without naming a machine
  (`BarredAtTheStartIff`); a market of one such listing is empty to it
  (`FailedListingStaysBarred`).
- A chunk ending in a lone ESC is not held back
  (internal/term/key.go:88-90), so an arrow key cut there arrives as three keys
  (`EscapeCutIsVisible`). A stream may be cut after some bytes, whatever
  follows, exactly when they do not decode to an end on ESC alone
  (`CutIsHarmlessIff`).
- The launcher shows log written after the report exactly when a read times out
  on a size taken after the log had outgrown a report already sent, or when a
  report without an offset is read after that (`ShowsTooMuchIff`). With timeouts
  that look at the pipe only the second remains (`HonestlyTooMuchIff`), and it
  needs no misbehaviour: a log still empty, or whose position cannot be read,
  gives such a report (`OffsetlessReportShowsTooMuch`).
- `Adopt` does not ask whether the snapshot it loads was there
  (internal/daemon/adopt.go:50-54). Its callers pass IDs that a listing of the
  store showed; `Load` finds neither a rig nor an error exactly for a
  well-formed ID the store lacks, and the `requires` of `ToAdopt` shuts out just
  those.

## Model

| member | source | states |
|---|---|---|
| `Accounting.RunsAreAccounted` | internal/daemon/up.go:822-862 | in every world of every run, wherever a process died, every instance labelled for a rig of this store and every create still in doubt belongs to a rig whose last journal state bills; DESTROYED, in journal or snapshot, is said only of rigs the provider holds nothing for; no rig has two instances; the only exception to the first two are rigs ended on an empty listing before their create had settled |
| `Accounting.EarlyOnlyByEndingTooSoon` | internal/daemon/up.go:1605-1631 | in every run, a rig becomes such an exception only by a teardown that journals its end while its create has not settled |
| `Accounting.OverIsGone` | internal/daemon/up.go:1605-1657 | a rig whose create had settled before anyone ended it early is truly gone whenever it is said to be over |
| `Accounting.StepKeepsInv` | internal/daemon/up.go:1580-1657 | every step any process or the provider may take keeps the protocol's invariant, and undoes no settled create, no given-out instance ID and no journal entry |
| `Accounting.GoneForGood` | internal/daemon/up.go:1773-1795 | a rig once gone (create settled, instance absent) is gone for ever, whatever happens after |
| `Accounting.StillTruthful` | internal/state/store.go:122-142 | a process's copy of a rig that was true stays true, however long it is held |
| `Accounting.EndIsSoundIffGone` | internal/daemon/up.go:1605-1657 | for a rig not already ended early, recording DESTROYED keeps the money accounted for if and only if the provider holds nothing for the rig and nothing is to come |
| `Accounting.EndedWhileInDoubt` | internal/daemon/up.go:1092-1101 | ended on an empty listing while its create is in doubt, a rig leaves the billable listing and the instance that then lands bills unseen |
| `Accounting.UnsentStillCosts` | internal/daemon/up.go:827-837 | from the journalled intent until the create is sent, whatever others do, the rig stays on the billable listing unless one of them ended it early |
| `Accounting.NotListedIsGone` | internal/daemon/up.go:1129-1140 | an answered listing without the rig's label proves a rig with a settled create gone |
| `Accounting.ListedIsMade` | internal/daemon/up.go:1080-1092 | an instance listed under a rig's label is the one its create made |
| `Daemon.Daemon.EveryWorldIsAccounted` | internal/state/store.go:333-353 | every point the operations below pass through accounts for every instance and every create in doubt |
| `Daemon.Daemon.LostOnlyIfEndedTooSoon` | internal/daemon/up.go:1605-1631 | of all the operations' steps, only a teardown that ended a rig before its create had settled can have lost it |
| `Daemon.Daemon.Up` | internal/daemon/up.go:791-889 | a create is sent only after the rig was stored as SELECTED and journalled as CREATING; what is reported is what that create was answered; success leaves the copy PROVISIONED, and stored so, with the instance it made; a create is left in doubt only on an unknown outcome; without one sent, the store would not write the rig, and nothing was made |
| `Daemon.Daemon.Prepare` | internal/daemon/up.go:791-834 | success means snapshot and intent are on disk and the create is still to be sent; failure, which the store alone causes, means it never will be |
| `Daemon.Daemon.Spend` | internal/daemon/up.go:834-866 | exactly one create is sent, while the journal bills the rig; its failure is resolved on the evidence, its instance recorded unless the store would not |
| `Daemon.Daemon.ResolveFailedCreate` | internal/daemon/up.go:1068-1104 | a failed create is journalled as FAILED and closed only on evidence: one never sent always and at once, one in doubt never on an empty listing; what carries the label is destroyed; it is left unchecked only with the provider silent, and ended with the evidence that nothing was created |
| `Daemon.Daemon.CloseNeverCreated` | internal/daemon/up.go:1108-1122 | ends a rig that is gone, with the nothing-created evidence |
| `Daemon.Daemon.InstanceForRig` | internal/daemon/up.go:1129-1140 | finds what carries the label or, when the listing was answered without it, establishes that nothing does; a failed listing establishes nothing |
| `Daemon.Daemon.Down` | internal/daemon/up.go:1580-1657 | reports success only of a rig stored as DESTROYED and over; one whose create had settled when it began, and was not ended early, is gone. Unless the rig had ended or the journal could not be written, the copy's instance is destroyed or, where it has none, the one the provider lists under the label; no destroy is sent only where nothing was listed, which ends the rig as never created, or the provider was silent. It is left unconfirmed or cancelled only with a provider that fell silent or that only stops and still held the instance; a rig already over is left as it is |
| `Daemon.Daemon.Dismantle` | internal/daemon/up.go:1605-1656 | exactly one destroy, of the copy's instance or else of what carries the label; none only for an empty listing or a silent provider; the end it records is the one it was told, with the nothing-created evidence exactly when no destroy was sent, unless another process recorded one first |
| `Daemon.Daemon.DestroyAndConfirm` | internal/daemon/up.go:1635-1656 | destroys the copy's instance and no other, and records the end only after that instance is proven absent; where the provider destroys when asked, the rig is gone whatever is reported |
| `Daemon.Daemon.ConfirmAbsent` | internal/daemon/up.go:1773-1795 | confirms only what the provider, answering, does not hold, and always what it says so of when first asked; failed queries and time running out confirm nothing |
| `Daemon.Daemon.AdoptEnding` | internal/daemon/up.go:1661-1668 | takes on the stored record exactly when it says DESTROYED |
| `Daemon.Daemon.RecordEnd` | internal/daemon/up.go:1672-1678 | succeeds only with DESTROYED stored, written by this teardown or by another whose record it adopts; fails only when the disk does or the ID is malformed |
| `Daemon.Daemon.End` | internal/daemon/up.go:1672-1678 | success means the end was journalled and stored; a rig already over is not thereby counted as ended early; it is refused only by another's end, a failing disk or a malformed ID |
| `Daemon.Daemon.WaitForEndpoint` | internal/daemon/live.go:180-186 | readiness means the copy holds the instance as the provider has it; it gives up only on an instance that vanished, or where the provider was silent or the host not ready when first asked, and leaves the copy as it was |
| `Daemon.Daemon.Boot` | internal/daemon/live.go:180-320 | success means the rig was stored as BOOTSTRAPPING and then READY, with the same instance throughout; it stops short only where a host, the provider or the store did |
| `Daemon.Daemon.ToAdopt` | internal/daemon/adopt.go:50-63 | yields the stored copy, true and with an instance, exactly when it is readable, not destroyed and has one; each refusal is of just its cause |
| `Daemon.Daemon.Adopt` | internal/daemon/adopt.go:86-203 | the provider is asked first: gone exactly when it answers without the instance, and then ended; stopped exactly when it answers so, and then stored as STOPPED; past that only a host or the store stops it, and success means stored as READY |
| `Daemon.Daemon.Orphans` | internal/daemon/orphans.go:52-109 | with every snapshot readable, no instance of a rig stored as CREATING, PROVISIONED, BOOTSTRAPPING, READY, DEGRADED, STOPPED or DRAINING is reported and every other labelled instance listed is; with one unreadable, all are; nothing else is reported, nothing twice |
| `Daemon.Daemon.KnownRigs` | internal/daemon/orphans.go:57-62 | every snapshot under a well-formed ID, or none at all when one of them cannot be read |
| `Daemon.Classify` | internal/daemon/orphans.go:63-107 | reports exactly the labelled instances whose rig is unknown or in a state with no resource behind it |
| `Daemon.Daemon.DestroyOrphan` | internal/daemon/orphans.go:116-141 | asks for a destroy exactly when the provider, answering, holds the resource; success means it did and, proven, no longer does, and is certain where the provider destroys when asked |
| `Daemon.ReapedIsGone` | internal/daemon/orphans.go:171-188 | a known rig whose reported resource was still there and is now proven absent is gone, so ending it is sound |
| `Daemon.Daemon.SweepOrphans` | internal/daemon/orphans.go:146-167 | reports as `Orphans` does and sends destroys only for what was reported; each reported resource is asked to go unless the provider was silent or no longer had it, is proven absent unless it would not go, and is then recorded; the count is exactly of those proven absent, and a failure is reported exactly when some is not |
| `Daemon.Daemon.RecordReaped` | internal/daemon/orphans.go:171-188 | ends the rig of a swept resource with the sweep's reason, unless it has no snapshot or the store would not write it |
| `Daemon.Daemon.RecordNothingCreated` | internal/daemon/absence.go:34-91 | rewrites, on disk, the end of a destroyed rig only; refused exactly for one not over, one corrected before, and one whose copy, journal entries or, where the provider answers, labels show an instance; otherwise only a failing disk stops it |
| `Provider.Provider.List` | internal/provider/fake/fake.go:266-281 | every instance held, running or not, and nothing else; a failed call says nothing |
| `Provider.Provider.Create` | internal/provider/fake/fake.go:206-247 | settles the rig's one create, save when the outcome is unknown; may error with the instance there; an ID is always new |
| `Provider.Provider.Destroy` | internal/provider/fake/fake.go:284-304 | an accepted destroy removes the instance or only stops it; an unreachable provider changes nothing |
| `Store.DestroyedStaysDestroyed` | internal/state/store.go:122-142 | under any interleaving of operations with any stale copies, cut short anywhere, a DESTROYED snapshot stays DESTROYED and is replaced only by a caller whose own copy was DESTROYED |
| `Store.CrashLeavesWholeSnapshots` | internal/state/store.go:222-258 | an operation cut short anywhere leaves each snapshot whole, old or new, touches one rig, and leaves the journal at most one entry ahead and never behind |
| `Store.CrashedMoveCanBeRepeated` | internal/state/store.go:122-142 | a move cut short before its snapshot can be made again and ends as it would have |
| `Store.FinishedMovesAgree` | internal/state/store.go:122-142 | a finished move leaves its rig's journal and snapshot agreeing, and upsets no other rig's |
| `Store.StaleIntentRebillsTheJournal` | internal/state/store.go:84-117 | an unguarded DRAINING from a stale copy re-bills a destroyed rig in the journal, where the guarded move changes nothing |
| `Store.RebilledIffIntent` | internal/state/store.go:84-142 | any one operation, cut short anywhere, re-bills a rig stored as destroyed if and only if it is an intent to a billable state whose entry was written |
| `Store.JournalAfterTheEnd` | internal/state/store.go:84-142 | over any interleaving, the journal's last word on such a rig is that of the last operation able to speak of it |
| `Store.RebilledIffUnansweredIntent` | internal/state/store.go:84-142 | over any interleaving, such a rig ends up billed if and only if a billable intent was written for it and nothing that journals for it came after |
| `Store.Store.Transition` | internal/state/store.go:122-142 | the whole new disk, error and copy for every fault: refused moves change nothing, a lost snapshot still moves the copy |
| `Store.Store.Save` | internal/state/store.go:206-219 | replaces one snapshot under the guard, and nothing else |
| `Store.Store.RecordIntent` | internal/state/store.go:84-117 | appends one entry carrying the billed rate and, for an end, its reason; success means it is there |
| `Store.Store.Load` | internal/state/store.go:273-289 | tells an absent snapshot from one that cannot be read and from a malformed ID; neither a rig nor an error comes back if and only if a well-formed ID has no snapshot |
| `Store.Store.Billable` | internal/state/store.go:333-353 | exactly the rigs whose last journal state may cost money, each once, in order of first appearance |
| `Store.Store.List` | internal/state/store.go:292-323 | exactly the readable snapshots under well-formed IDs, greatest ID first; an error if and only if one of them cannot be read |
| `Store.ListedNewestFirst` | internal/state/store.go:301-301 | greatest ID first is newest first |
| `Journal.CrashLosesOnlyTheLastEntry` | internal/state/journal.go:130-158 | a crash while appending to a whole file loses that entry at most, and keeps it once its bytes are there |
| `Journal.AppendIsReadIffTerminated` | internal/state/journal.go:92-111 | whatever any number of crashes left after the last newline, the entry appended next is read back if and only if the file ended in a newline and could be read to there; otherwise what was left is lost with it |
| `Journal.OverlongLineHidesTheRest` | internal/state/journal.go:139-158 | a line of 1 MiB or more ends the reading: nothing from it on is read |
| `Journal.ReadAfterWholeLines` | internal/state/journal.go:130-158 | whole lines read the same whatever follows them |
| `Journal.ReadJournal` | internal/state/journal.go:130-158 | the line loop returns every readable line's entry in order, skipping empty and unreadable lines, and stops with an error exactly at an over-long one |
| `Journal.FilterEntries` | internal/state/journal.go:161-169 | one rig's entries, oldest first |
| `Cost.CostOf` | internal/state/cost.go:41-166 | the replay loop equals the integral of a piecewise constant rate over the intervals between entries, up to the first DESTROYED; zero when nothing was created; `StateCosts` says what each interval is |
| `Cost.CostForRig` | internal/state/cost.go:209-215 | one rig's cost is that integral over its own entries in the whole journal |
| `Cost.StateCosts` | internal/state/cost.go:60-87 | at current rates an interval in CREATING, PROVISIONED, BOOTSTRAPPING, READY, DEGRADED, DRAINING, FAILED or ORPHANED adds hours times the price to compute, one in STOPPED hours times the storage rate to storage, any other nothing |
| `Cost.OldStateCosts` | internal/state/cost.go:63-78 | under the old rules, with no billed rate known, a running rig pays storage on top of its price |
| `Cost.PriceInForce` | internal/state/cost.go:104-111 | the price in force is the last positive one in an entry that counts; the billed rate, where known, stands in for a quote under the old rules |
| `Cost.StorageInForce` | internal/state/cost.go:112-117 | the storage rate in force is the last positive one; under the old rules 60/720 of it |
| `Cost.RulesInForce` | internal/state/cost.go:97-105 | which rules apply is decided by the last entry that counts |
| `Cost.ReachedReadyIff` | internal/state/cost.go:123-130 | a rig reached READY exactly when an entry before any end says so, and the first such is the one that counts |
| `Cost.BootIsSpentByReady` | internal/state/cost.go:123-130 | what booting cost is what had been spent when the rig was first READY |
| `Cost.RanToTheEnd` | internal/state/cost.go:131-142 | a rig ran from its first entry until its first end, or until now while it bills |
| `Cost.StoppedIsCheaper` | internal/state/cost.go:81-86 | an hour ready at 1.39 and ten stopped at 0.02 cost 1.39 of compute and 0.20 of storage |
| `Cost.EntryCostsTheRate` | internal/state/store.go:84-117 | the entry a ready rig leaves charges the rate its instance is billed at, or the quote where none is known |
| `Cost.EntryCostsStorage` | internal/state/store.go:84-117 | the entry a stopped rig leaves charges its instance's storage rate |
| `Cost.NeverCreatedCostsNothing` | internal/state/cost.go:92-95 | an end recorded with the nothing-created evidence takes back everything the rig was said to cost |
| `Cost.EndCostsWhatWasSpent` | internal/state/cost.go:60-121 | any other end leaves, for ever, what had been spent by then |
| `Cost.CostGrowsWithNow` | internal/state/cost.go:123-166 | neither compute nor storage cost ever falls as time passes |
| `Cost.CostIsLinearInNow` | internal/state/cost.go:41-166 | a rig still accruing grows by elapsed time times its last state's rate; any other does not grow |
| `Cost.EndFixesCost` | internal/state/cost.go:60-121 | after the first DESTROYED entry, later entries change the cost only by saying nothing was created |
| `Cost.RepeatedEntryCostsNothing` | internal/state/cost.go:41-166 | inserting an entry that repeats the state and rates of the interval it falls in changes no cost |
| `Cost.OmittedRigsCostNothingMore` | internal/state/store.go:333-353 | a rig the billable listing leaves out has a cost that no longer depends on the time |
| `BringUp.Orchestrator.UpAndServe` | internal/daemon/up.go:896-980 | on success exactly one more hold is outstanding and the returned Live owns it, on failure none is; attempts go to pairwise different machines, or listings where no machine is named, and number at most the limit; a bring-up that fails did so on a failure that was no host's, at the limit, on the operator's word, or on an attempt that rented nothing, for one of five named reasons; each attempt takes what the ranking chooses with just the machines of this bring-up's earlier attempts and the listings that ever failed barred; what every failed attempt rented was told to be destroyed unless the store would not write the rig; the hosts remembered as failed are exactly those of its attempts |
| `BringUp.Orchestrator.TryOne` | internal/daemon/up.go:917-978 | one attempt of the loop: what it rented serves or is put down, and another is worth it exactly after a host's failure with nobody stopping |
| `BringUp.Orchestrator.AfterFailure` | internal/daemon/up.go:936-977 | with nobody stopping, another attempt follows exactly after a host's failure, an expired deadline included; none follows once the operator asked to stop; what failed is barred, what was rented put down, the hold given up |
| `BringUp.Orchestrator.Attempt` | internal/daemon/up.go:990-1015 | rents what the ranking chooses of the offers not barred, or nothing and says why; a failure is no host's where the store refused or the create is in doubt; a failed attempt leaves its hold with the caller to release after teardown, a successful one with the Live |
| `BringUp.Orchestrator.GiveUp` | internal/daemon/up.go:947-968 | a failed host is barred from then on and counts against its model; an instance is told to be destroyed unless the store would not write the rig, which is over, and gone unless it had been ended early, or reported unconfirmed; the hold is given up once, after that |
| `BringUp.Orchestrator.Up` | internal/daemon/up.go:741-889 | only a rig with an instance keeps the hold for Serve; with no rig the market had nothing eligible, the offer was declined, the ID was in use, another process held the rig, or the store would not write it |
| `BringUp.Orchestrator.Serve` | internal/daemon/live.go:161-322 | the Live owns the hold Up took on this rig, or a new one, whether or not it reached READY; with no Live, no hold changes, and the rig had no instance or another process held it |
| `BringUp.Orchestrator.Adopt` | internal/daemon/adopt.go:49-84 | on success the Live owns the one hold taken; on every failure, with or without a Live to close, it is given back once; it comes to what the stored record, the hold and the provider's answer say |
| `BringUp.Orchestrator.TakeHold` | internal/daemon/up.go:1688-1694 | hands over Up's hold on this rig or takes a new one, refused exactly when another process has it; other holds stay |
| `BringUp.Orchestrator.DropUpHold` | internal/daemon/up.go:1697-1702 | releases the hold no Serve claimed, once |
| `BringUp.Holds.Release` | internal/state/holder.go:72-111 | a hold is released only while outstanding, so never twice |
| `BringUp.Live.Close` | internal/daemon/live.go:104-113 | gives up the hold the Live still owns; a second call, or one after EndServing, gives up nothing |
| `BringUp.Live.EndServing` | internal/daemon/live.go:122-131 | closes and hands the hold to the caller, at most once |
| `BringUp.Orchestrator.Survey` | internal/daemon/up.go:502-561 | barred machines and listings are left out, retired models too unless nothing else is open; what is chosen is what the ranking chooses from the rest, and none only when none there is eligible; the chosen offer comes with a plan that fits it as asked, within the memory it advertises |
| `BringUp.Choose` | internal/daemon/up.go:546-579 | the ranking's choice under the sizing filter always gets a launch plan that fits |
| `BringUp.Orchestrator.WithoutRetired` | internal/daemon/up.go:517-531 | the offers not on a retired model, as listed, or all of them when every one is, so retiring never empties a market |
| `BringUp.Orchestrator.RetiredModels` | internal/daemon/up.go:1471-1483 | a model is retired exactly when two of this bring-up's host failures on it were of one kind |
| `BringUp.Orchestrator.NoteModelFailure` | internal/daemon/up.go:1417-1431 | one strike for the trimmed model and kind of failure, none for an unnamed model |
| `BringUp.Orchestrator.ExcludeFailed` | internal/daemon/up.go:1401-1409 | what failed is covered by the exclusions: its machine if named, else its listing; the failure is remembered |
| `BringUp.Orchestrator.Begin` | internal/daemon/up.go:896-901 | a new bring-up forgets machines and strikes; the listings still barred are those of every earlier failure that named no machine |
| `BringUp.BarredAtTheStartIff` | internal/daemon/up.go:502-516 | a bring-up that has tried nothing refuses an offer if and only if its listing failed in an earlier one without naming a machine |
| `BringUp.MarketIsOpenAtTheStartIff` | internal/daemon/up.go:896-901 | a whole market is open to a new bring-up if and only if none of it shares a listing with such a failure, so always to the first |
| `BringUp.FailedListingStaysBarred` | internal/daemon/up.go:896-901 | a concrete listing that failed once leaves a market of itself empty to every later bring-up |
| `BringUp.CoveredIsNotRepeated` | internal/daemon/up.go:502-516 | an offer the exclusions let through goes nowhere a covered one went |
| `BringUp.SameTargetIff` | internal/daemon/up.go:1401-1447 | at one provider, two attempts go the same way exactly when they name one machine, or one listing where the first names no machine |
| `BringUp.TrimCutsBlanks` | internal/daemon/up.go:1417-1431 | a model's name is compared without the blanks around it, and only without those |
| `BringUp.WithoutMachines` | internal/daemon/up.go:1515-1531 | the offers not on named, barred machines, all of them, as listed |
| `BringUp.WithoutOffers` | internal/daemon/up.go:1486-1498 | the offers whose listings are not barred, all of them, as listed |
| `BringUp.WithoutModels` | internal/daemon/up.go:1501-1513 | the offers of models not retired, all of them, as listed |
| `Supervise.Supervise` | internal/daemon/supervise.go:73-209 | turn by turn the verdict is the first that holds of the world that turn saw: ended elsewhere, over budget, idle too long, gone; the watch goes on exactly while none does, and so to the last turn; the rig in memory is DEGRADED exactly while three or more probes in a row have failed, unless the store refused a move; every idle time and every cost was looked at, the ceiling warned of once, when it first comes near, and each idle stretch once, when it is first seen; nothing is destroyed |
| `Supervise.Turn` | internal/daemon/supervise.go:83-209 | one turn: what it calls for, in the world it was taken in, and the failures, warnings and state carried to the next |
| `Supervise.CheckDeadlines` | internal/daemon/supervise.go:110-174 | over budget is decided before idle, each exactly on its condition; each count is of the cost the journal says, and warnings are neither missed nor repeated |
| `Supervise.CheckIdle` | internal/daemon/supervise.go:143-174 | the rig should die exactly when idle past the window where idling destroys; a warning is given exactly at the first look of a stretch |
| `Supervise.CheckBudget` | internal/daemon/supervise.go:110-138 | over exactly at the ceiling; a warning is given exactly when what is left first falls within the lead |
| `Supervise.AfterProbe` | internal/daemon/supervise.go:180-207 | the count of failures in a row; the third is stored as DEGRADED and the first success after as READY unless the store refuses; gone is decided exactly when three have failed and the provider answers without the instance |
| `Supervise.IsEndedElsewhere` | internal/daemon/supervise.go:214-225 | says so exactly of a rig stored as DESTROYED, and takes on that record, with a reason if it lacks one; otherwise changes nothing |
| `Supervise.IsInstanceGone` | internal/daemon/supervise.go:231-246 | says so exactly when the provider answers and does not have the instance, and then the rig is gone |
| `Supervise.AccruedCost` | internal/daemon/supervise.go:266-272 | the budget is compared with the rig's integral over the journal, storage while stopped included |
| `RigId.EncodeULID` | internal/state/id.go:51-71 | 26 digits of the alphabet that denote, in base 32, the number the 16 bytes denote in base 256 |
| `RigId.NewID` | internal/state/id.go:34-50 | a valid ID whose value is the 48-bit time above 80 bits of entropy |
| `RigId.IDTime` | internal/state/id.go:86-96 | accepts exactly the valid IDs and returns the time in their top bits |
| `RigId.MintedTimeComesBack` | internal/state/id.go:34-50 | the time read from a minted ID is the time it was minted with, for every 48-bit time and entropy |
| `RigId.EncodingIsInjective` | internal/state/id.go:51-71 | one ID comes from one byte value only |
| `RigId.StringOrderIsNumericOrder` | internal/state/id.go:51-71 | valid IDs compare as strings exactly as their values compare |
| `RigId.LaterIdsAreNewer` | internal/state/store.go:301-301 | an ID that sorts after another was not minted before it |
| `RigId.AlphabetIs` | internal/state/id.go:14-16 | the digits are 0 to 9 and the capital letters without I, L, O and U, in code order |
| `RigId.ValidIff` | internal/state/id.go:73-83 | an ID is 26 of those digits |
| `Label.PlainRoundTrip` | internal/core/label.go:88-126 | an encoded label decodes to itself with its names sanitised, cut to the initial run of fields that fit, so no name can alter another field |
| `Label.TruncationKeepsWhatCameBefore` | internal/core/label.go:166-225 | cut anywhere past its head, a label keeps the rig ID and every field before the one cut, and gains none after it |
| `Label.SealedRoundTrip` | internal/core/label.go:66-87 | with the sealing key all fields come back, without it the rig ID and the fact of a seal; a seal that does not fit leaves the rig ID alone |
| `Label.AttributionSurvives` | internal/core/label.go:166-225 | whatever follows the head, the label still names its rig |
| `Label.StampedInFull` | internal/core/label.go:88-126 | a label that fits in the limit, or in 255 where none is set, is stamped with all its fields, in order, under their letters |
| `Label.SealedInFull` | internal/core/label.go:129-156 | the sealed form seals those same fields |
| `Label.SanitiseIs` | internal/core/label.go:254-260 | a name keeps its length up to 64, and each character but the four that would break a label up |
| `Label.EncodePlain` | internal/core/label.go:88-126 | the head and the longest initial run of non-empty fields within the limit |
| `Label.EncodeLabel` | internal/core/label.go:66-87 | the result starts with the head and keeps within the limit, or is the head alone; which of the two forms it takes |
| `Label.DecodeLabelWith` | internal/core/label.go:166-225 | the first seal that opens decides; otherwise parts are read left to right |
| `Decimal.PriceReadsBack` | internal/core/label.go:108-118 | a price in ten-thousandths, printed with four decimals, reads back exactly |
| `Decimal.IntReadsBack` | internal/core/label.go:190-214 | every 64-bit integer reads back from its decimal text |
| `Decimal.PrintIs` | internal/core/label.go:88-126 | numbers print in base ten, most significant digit first, with a sign only when negative |
| `Decimal.DigitsAre` | internal/core/label.go:88-126 | the ten digits and what each is worth |
| `Gguf.Parse` | internal/gguf/gguf.go:102-139 | the cursor-based parser computes the header and pairs the format's grammar defines, for every buffer |
| `Gguf.PrefixesAgree` | internal/gguf/gguf.go:102-139 | the pairs read from a buffer are an initial run of those read from any extension of it, and the version and tensor count agree |
| `Gguf.PairsStable` | internal/gguf/gguf.go:170-278 | extending a buffer only adds pairs at the end |
| `Gguf.WrittenHeaderReadsBack` | internal/gguf/gguf.go:102-139 | a written header reads back with every key and value, whatever follows it |
| `Gguf.PrefixOfWrittenFile` | internal/gguf/gguf.go:102-139 | any prefix of a written file past the fixed header yields an initial run of what was written |
| `Gguf.ValueReadsBack` | internal/gguf/gguf.go:186-278 | every value type, strings and arrays included, reads back and uses exactly its own bytes |
| `Gguf.TypesAre` | internal/gguf/gguf.go:186-248 | which of the format's type numbers is of which width and kind, and that no other number is read |
| `Gguf.TwosComplementIs` | internal/gguf/gguf.go:186-248 | a signed number is the one of its low bytes within its width's range |
| `Gguf.BytesMakeNumbers` | internal/gguf/gguf.go:186-248 | numbers are little-endian |
| `Gguf.StringIs` | internal/gguf/gguf.go:170-184 | a string is read exactly when its length's eight bytes and as many more are there |
| `Gguf.ArrayIs` | internal/gguf/gguf.go:250-278 | an array is read exactly when its elements are of a known width, or strings, and all there; arrays of arrays never |
| `Gguf.HeaderIs` | internal/gguf/gguf.go:102-139 | what is no GGUF file, what is beyond belief and what is read, in bytes and numbers |
| `Gguf.Parser.ReadValue` | internal/gguf/gguf.go:186-248 | moves the cursor past exactly one value, never past the buffer, or fails |
| `Gguf.Parser.SkipArray` | internal/gguf/gguf.go:250-278 | moves past exactly one array, refusing one whose size the buffer cannot hold |
| `Keys.ChunksDoNotMatter` | internal/term/program.go:231-254 | however a stream is cut into reads, none ending where an escape byte stands alone, the same keys are sent and the same bytes kept |
| `Keys.CutIsHarmlessIff` | internal/term/program.go:231-254 | some bytes may be decoded apart from whatever follows if and only if they do not decode to an end on ESC alone |
| `Keys.NextReadIsHarmlessIff` | internal/term/program.go:231-254 | after some reads, every next one gives what the whole stream gives if and only if they gave what they give as one piece and did not end on ESC alone |
| `Keys.NoEscAtTheEnds` | internal/term/program.go:231-254 | reads none of which but the last ends in the byte ESC are all cut harmlessly |
| `Keys.SplitAnywhere` | internal/term/program.go:231-254 | decoding in two pieces is decoding whole, unless the cut leaves an escape byte alone before its continuation |
| `Keys.EscapeCutIsVisible` | internal/term/key.go:84-92 | a concrete arrow key, cut after ESC, arrives as three keys |
| `Keys.DecodedKeyIsStable` | internal/term/key.go:71-126 | a key decoded from a buffer is the key decoded from any extension of it, but for a lone ESC |
| `Keys.Decode` | internal/term/key.go:71-126 | the scanning loop finds the key the grammar of escape sequences and UTF-8 defines |
| `Keys.ReadKeys` | internal/term/program.go:231-254 | the buffering loop sends the known keys in order and keeps what is incomplete |
| `Keys.RuneReadsBack` | internal/term/key.go:110-126 | every printable Unicode scalar value sent as UTF-8 is read as itself whatever follows, and every part of one is kept for the rest |
| `Keys.OnlyRunesRead` | internal/term/key.go:110-126 | what is read as a character is the UTF-8 encoding of a scalar value, and uses just those bytes |
| `Keys.KeysAre` | internal/term/key.go:71-108 | which bytes are which key, and that a lone escape byte before anything but '[' or 'O' is Esc |
| `Keys.SequencesArePassed` | internal/term/key.go:92-108 | any other control sequence is passed over whole once its final byte is there, and kept back until then |
| `Sizing.Shards` | internal/sizing/shards.go:23-50 | the greatest degree within the cards that divides the heads and fits the key-value heads, or the greatest power of two when heads are unknown |
| `Sizing.HeadsDecide` | internal/sizing/shards.go:23-50 | 28 heads with 4 key-value heads on eight cards split four ways, 64 with 8 on sixteen cards sixteen ways, unknown heads on six cards four ways; six cards stay six for an engine that does not split heads |
| `Sizing.ShardsAreMonotone` | internal/sizing/shards.go:23-50 | more cards never mean fewer shards, and sharding what was chosen chooses it again |
| `Sizing.LargestPowerOfTwo` | internal/sizing/shards.go:62-70 | the greatest power of two not above its argument |
| `Sizing.ReduceContext` | internal/sizing/sizing.go:248-258 | the longest halving, not below the least context, that fits; failure means none does |
| `Sizing.MakePlan` | internal/sizing/sizing.go:116-215 | every field of the plan and when each warning is given |
| `Sizing.ReducedPlanFits` | internal/sizing/sizing.go:183-191 | a plan whose context was reduced fits, is shorter than asked, and asks for a usable fraction |
| `Sizing.NeedIs` | internal/sizing/sizing.go:165-246 | the need is weights, a key and a value vector for each layer, key-value head, position and sequence, four bytes of activations for each hidden unit, position and sequence, and a GiB a card or 8% of what is resident, times the safety factor |
| `Sizing.EachPositionCaches` | internal/sizing/sizing.go:216-226 | each position more caches two vectors of the head dimension for every layer, key-value head and sequence |
| `Sizing.EveryFactorCounts` | internal/sizing/sizing.go:216-226 | twice the layers, heads, head dimension, sequences or element size cache as much as twice the context |
| `Sizing.EightBillionNeeds` | internal/sizing/sizing.go:116-215 | a concrete 8-billion model of 16 GB at the default context needs 19,719,622,392 bytes, 536,870,912 of cache among them |
| `Sizing.WeightsEstimated` | internal/sizing/sizing.go:159-163 | 8 billion parameters at 4.5 bits are 4,500,000,000 bytes |
| `Sizing.UsableIs` | internal/sizing/sizing.go:296-301 | 95% of a card is usable, rounded down; a host advertises whole GiB on each card the engine uses |
| `Sizing.SelectionAndLaunchAgree` | internal/daemon/up.go:479-489 | for every safety factor, an offer that fits at selection gets, at launch, a plan that fits, keeps the requested context and asks for a share of the advertised memory that covers it |
| `Sizing.Place` | internal/daemon/up.go:565-579 | the launch is sized on the shards of the host chosen, and fits whenever the filter accepted the host |
| `Sizing.Fits` | internal/daemon/up.go:479-489 | accepts a host exactly when the usable memory of the cards the engine uses covers the need |
| `Rank.Select` | internal/rank/rank.go:177-232 | the candidates are the market, ties as listed, each costing no more over the session than the next, then priced no higher, then no less reliable, then not later by ID; the choice is eligible and so stands to every eligible offer; none is chosen only when none is eligible |
| `Rank.EligibleIff` | internal/rank/rank.go:234-301 | an offer is eligible exactly when it passes every filter: interruptibility, price, cards, memory, fit, verification, reliability, and the outlier rule |
| `Rank.ReasonHolds` | internal/rank/rank.go:234-301 | the reason given for one left out does hold of it |
| `Rank.SessionWithoutDownload` | internal/rank/rank.go:82-90 | with nothing to fetch, the session costs its hours times the price, one hour where no length is set |
| `Rank.SessionWithDownload` | internal/rank/rank.go:68-90 | 450,000,000 bytes over one Mbit/s take an hour, and the download's hours cost what the session's do |
| `Rank.UnknownLinkIsTheMedian` | internal/rank/rank.go:63-80 | an offer that publishes no link is ranked with the market's median, or with no download where there is none |
| `Rank.SessionGrows` | internal/rank/rank.go:68-90 | a dearer offer, a slower link, more to fetch or a longer session never costs less |
| `Rank.ChoiceIsUnique` | internal/rank/rank.go:177-232 | with distinct IDs, every listing order of a market yields the same choice |
| `Rank.VerdictsPermute` | internal/rank/rank.go:234-301 | an offer's verdict does not depend on the order of the market |
| `Rank.MediansPermute` | internal/rank/rank.go:315-346 | nor do the class medians and the median link speed |
| `Rank.ClassMedians` | internal/rank/rank.go:315-334 | each class with enough samples gets the median of its positive prices, the others none |
| `Rank.ClassMedianIs` | internal/rank/rank.go:315-346 | a class's prices are the positive ones its offers name; it has a median exactly when there are enough |
| `Rank.MedianSplits` | internal/rank/rank.go:336-346 | half of the prices lie on either side of their median, which is one of them or midway between two |
| `Rank.MedianMbpsIs` | internal/rank/rank.go:92-106 | the market's link is the upper median of those published, and 0 where none is |
| `Rank.SomeOfEachClassSurvives` | internal/rank/rank.go:293-299 | the outlier rule never leaves out a whole GPU class |
| `Holder.LogsAreTheTail` | internal/state/holder.go:40-46 | after any sequence of holders, the record's logs are the tail of the whole history with repeats merged, at least the last 32 of it |
| `Holder.Hold.Take` | internal/state/holder.go:72-114 | taken exactly when not held, some try finds no reader in the way and the record could be written; the record then succeeds the one before it, when that could be read |
| `Holder.Hold.LockExclusive` | internal/state/holder.go:116-126 | a reader's probe is waited out, a holder never |
| `Detach.LauncherShowsTheLogUpToTheReport` | cmd/larri/detach.go:241-303 | in every interleaving, for a report of any length, the launcher shows each log byte once, in order, and with a positive offset everything up to it and nothing written after the report was sent |
| `Detach.ShowsTooMuchIff` | cmd/larri/detach.go:241-303 | in every run, whether or not timeouts look at the pipe, the launcher shows log written after the report if and only if a read timed out on a size taken after the log outgrew a sent report, or a report without an offset was read after that |
| `Detach.HonestlyTooMuchIff` | cmd/larri/detach.go:271-279 | when timeouts find the pipe empty, if and only if a report without an offset was read after the log outgrew it |
| `Detach.OffsetlessReportShowsTooMuch` | cmd/larri/detach.go:271-279 | a concrete run with such a report |
| `Detach.EarlyTimeoutShowsTooMuch` | cmd/larri/detach.go:241-275 | with a timeout that fires on an unread report, a concrete run shows more |
| `Detach.LogOnlyGrows` | cmd/larri/detach.go:131-143 | what was shown is never taken back |
| `Detach.LauncherGoesOn` | cmd/larri/detach.go:241-303 | the launcher is never stuck: it reads any part of what the pipe holds, ends on the report's last byte or the holder's end, and otherwise waits and shows what it sized |
| `Detach.HolderGoesOn` | cmd/larri/detach.go:131-143 | nor is the holder, which may write, take its position, send and end |
| `ClientKeys.AnswersAreNeverStale` | internal/clientkeys/clientkeys.go:161-197 | with distinct times and sizes, every answer is the contents of a version at least as new as the one in place when the call began, or admits no one |
| `ClientKeys.RevokedKeyIsRefused` | internal/clientkeys/clientkeys.go:161-197 | a key no version since the call began holds is refused, under any interleaving of calls and renames |
| `ClientKeys.CallsGoOn` | internal/clientkeys/clientkeys.go:161-197 | no call is stuck but while another reads: it looks, and is answered from the cache exactly when the times are the cache's, from a reading that may fail otherwise |
| `ClientKeys.File.Create` | internal/clientkeys/clientkeys.go:80-107 | adds one key under a valid new name and keeps names unique, or changes nothing and says why |
| `ClientKeys.NamesAllowed` | internal/clientkeys/clientkeys.go:52-52 | a name is 1 to 32 lower-case letters, digits, '_' and '-', and begins with a letter or digit |
| `ClientKeys.File.Revoke` | internal/clientkeys/clientkeys.go:129-152 | removes the named key and keeps the rest, or changes nothing |
| `ClientKeys.RevokeUndoesCreate` | internal/clientkeys/clientkeys.go:129-152 | revoking a name just created gives back the keys there were |
| `ClientKeys.Match` | internal/clientkeys/clientkeys.go:161-176 | the name the last key with the presented hash is stored under; none exactly when nothing is presented or no key has it |

## Left out

- Daemon.Daemon.Up: takes a rig ID that is not in use, because a collision of 80 random bits is taken not to happen; a failed draw is an error in `BringUp`.
- Daemon.Daemon.Adopt: SSH, the runtime and the tunnel succeed exactly while hosts do as they are asked, because they are I/O.
- Daemon.Daemon.Boot: what the host does between its saves succeeds exactly while hosts do as they are asked; key pinning, the watchdog and the runtime are I/O.
- Daemon.Daemon.Move: nothing else happens between its journal entry and its snapshot; each is a step of its own in `Accounting`, where anything may happen between them.
- Daemon.Daemon.ConfirmAbsent: the 90-second deadline and backoff are some number of polls, one at least.
- BringUp.Orchestrator.Attempt: how a failure is described, its class and whether a deadline expired, is given with what else an attempt meets outside; that the store's refusals and an unknown outcome are no host's failure is not.
- BringUp.Orchestrator.Survey: the market is given; what the engine and the link refuse is a given function, the sizing filter is not; hints after a failed search are left out.
- Supervise.Supervise: clocks, idle times and whether a probe is due and succeeds are given turn by turn; `budget.action: warn` is not honoured because the code does not.
- Provider.Provider.List: a listing that omits stopped instances is not modelled; a listing that answers is honest.
- Gguf.Parse: floats are their bits; an unsigned 64-bit overflow of an offset cannot arise and integers are unbounded.
- Label.DecodeLabelWith: a price read back is a plain decimal, not the other spellings a float parser accepts; the sealer is a pair of functions with `open` undoing `seal`.
- Rank.Select: the library sort is an insertion sort of the same order; explanations are not text.
- Sizing.MakePlan: floats are reals with floors where the code truncates; rounding is not modelled.
- Keys.ReadKeys: the channel that ends the reader.
- Detach.LauncherShowsTheLogUpToTheReport: `--json` output and interrupts; the report's text is its length.
- ClientKeys.Match: SHA-256 is taken as injective, so a key is its hash; writers are serialised by the file lock.
- Store.Store.List: the directory is the set of snapshots; temporary and lock files are never listed.
- Several providers at once and the refusal to act through the wrong one (internal/daemon/up.go:1764-1771).
- The HTTP adapters, the proxy, terminal drawing, Hugging Face search, quantisation tables, notices, configuration and command-line flags.
- Boot waiting and host-key pinning (internal/daemon/live.go:341-700, 1514-1675): wall clocks and free-text statuses.
