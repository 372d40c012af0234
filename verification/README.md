# The paros client, modelled in Dafny

paros is a set of replicated journals. A journal is an append-only log with one
leader at a time, named by a uuid; a write names its uuid and its position and is
fenced by both. This project models what the client library builds on top of a
journal, and proves what that is for:

- **Journal** (`Journal.dfy`): one journal as an atomic log: writes, appends,
  leader changes, truncation.
- **Settling a lost write** (`Settle.dfy`, `Writer.dfy`): the read-back and the
  re-send that decide whether a write whose answer was lost is in the journal.
- **Claims** (`Claims.dfy`): when a uuid leads at most one term, over every
  interleaving of claims.
- **The write pipeline** (`Lanes.dfy`, `Pipeline.dfy`): many writes in flight under
  one uuid, merged, taken apart, early, dropped. `Lanes.dfy` is the specification on
  values; `Pipeline.dfy` is the class over a vector, proved against it.
- **Runs of the pipeline** (`Runs.dfy`, `RunsInvariant.dfy`, `RunsLanes.dfy`,
  `RunsFold.dfy`, `RunsTheorems.dfy`, `RunsSends.dfy`): a state machine of callers, a
  network that loses answers and then decides their requests late, repeatedly or never,
  other writers, truncation and claims.
- **Checkpoints** (`Checkpoint.dfy`, `CheckpointOwner.dfy`, `CheckpointRuns.dfy`):
  the fold, the run of chunk records, the owner that writes it in batches, and every
  interleaving of owners and truncations over one log.
- **The fleet** (`Fleet.dfy`, `FleetRuns.dfy`): a tenant's life across the directory
  journal and its cell's journal, with sessions that claim, fold, write, checkpoint,
  crash and race, and coordinators that read late.
- **Elections** (`ElectionFold.dfy`, `Election.dfy`, `ElectionCandidate.dfy`,
  `ElectionRuns.dfy`, `ElectionLeads.dfy`, `ElectionTwice.dfy`): the fold of an election
  log from a floor that moves, the candidate, every run of candidates, restarts and
  truncations, and when two incarnations lead one term.
- **Bootstrap** and **Reader** (`Bootstrap.dfy`, `Reader.dfy`): the majority cell of
  an address list, and the cursor of a reader.

Records are decoded values, positions are natural numbers, and a new uuid is a
parameter that no one used before. A class follows each source object that updates
itself in place; its methods are proved equal to functions on values, and the
properties are lemmas about those functions.

## What the code does not promise

Five properties a reader might expect are false of the code as it is. Each has a
concrete run that shows it and the exact condition under which the property holds.

- A uuid can lead twice, so `NotWritten` is not final on the client's word alone
  (`LostClaimLeadsTwice`, with the write of a client that uses the uuid without the
  library's writer). It does not when no client asks under a uuid that led, or that has
  an ask under way over the leader in force (`CarefulIsFresh`); from any state in which
  one does, some continuation makes the uuid lead twice (`DangerLeadsTwice`). A client
  is safe when its uuid is new and every ask of it was answered lost (`LostIsCareful`).
  A fenced write lands only in a run that makes its uuid the leader again
  (`LandsOnlyReinstated`), and one such claim is enough (`ReinstatedLands`). The runs of
  the pipeline take careful claims as their premise: a uuid that leads, leads for the
  first time.
- A page that matches does not prove that the request is held when two writes of the
  uuid share its positions (`SharedMatters`). The writer's `led_from` is known only
  when none do (`LedFromIsAlone`), and then the proof holds (`ReadBackWritten`).
- Two incarnations of one candidate can lead one term (`TwoIncarnationsLead`, a run from
  the start): an incarnation that the floor overtakes twice is caught up while its fold
  knows nothing, then goes back to the floor and takes an old hand-off for one it
  watched. `OldHandOffNotedIff` says exactly when a candidate does that. Among
  incarnations whose fold knew the term when they caught up, at most one leads a term
  (`OneIncarnationATerm`); and from every state of every run a blind incarnation leads
  the term in force if that was handed to its id past the floor (`BlindLeads`).
- A cell that a majority serves can go unelected when a broken server answers first
  with other journals for the same cell id (`BrokenFirstHides`). `MajorityCell`
  returns a cell exactly when its journals have the majority and the first answer.
- A reader delivers a page that starts past its cursor without reporting the gap
  (`SkippedSilently`); nothing is lost if and only if every page starts where asked
  (`NothingLostIff`).

## Model

| member | source | states |
|---|---|---|
| `RunsTheorems.WrittenIsThere` | crates/lib/paros-client/src/pipeline.rs:210-314 | After any run of callers, drops, losses, delays, other writers, truncations and claims, a ticket answered `Written` has exactly its own records at exactly its own range, and keeps both the verdict and the records in every later state |
| `RunsTheorems.NegativeNeverLands` | crates/lib/paros-client/src/pipeline.rs:692-765 | After any run, a ticket answered that its write is not in the journal (refused, early and refused, not written, too large, never proposed) is carried by no batch the journal ever holds, in any continuation; and every batch under a uuid of the pipeline came from one of its requests |
| `RunsTheorems.LandsOnce` | crates/lib/paros-client/src/pipeline.rs:799-849 | A ticket's records land at most once: the landed requests that carry it are one request, the ticket is a slice of it, and the journal holds it |
| `RunsTheorems.NoHoleEver` | crates/lib/paros-client/src/pipeline.rs:595-669 | After any run the known tail never passes the real tail, and while the pipeline leads unbroken every position from the real tail to `ahead` is covered by a write in flight under its uuid |
| `RunsTheorems.OneVerdict` | crates/lib/paros-client/src/pipeline.rs:874-891 | No step takes back or changes a verdict, a ticket, or a record the journal held: every ticket gets at most one verdict |
| `RunsTheorems.ThreeAsks` | crates/lib/paros-client/src/pipeline.rs:262-313 | A send goes early at most once and comes apart at most once, hence calls `write_entry` at most three times |
| `RunsSends.SendIsAllowed` | crates/lib/paros-client/src/pipeline.rs:210-314 | In every run of callers that send each ticket once: a ticket not sent yet is in flight and opened; a started send that does not lead finds its verdict, or its write ready or carried; one that leads folds only an awaited answer, resumes only an early write, and sends it again unchanged. So no assertion, `expect` or `panic` of the lanes is reached |
| `RunsSends.StartedMoves` | crates/lib/paros-client/src/pipeline.rs:809-849 | A started send whose write is ready can always lead |
| `RunsSends.StepLeaves` | crates/lib/paros-client/src/pipeline.rs:536-573 | No step of one send, of a claim or of the network moves the send of another ticket from where it stands |
| `RunsSends.DriveKeeps` | crates/lib/paros-client/src/pipeline.rs:210-314 | Each step of the callers keeps every unsent ticket opened and every started send live |
| `RunsTheorems.SomeWriteMoves` | crates/lib/paros-client/src/pipeline.rs:740-797 | No state with a write in flight is stuck: some write has an enabled step that moves it on |
| `RunsTheorems.Reachable` | crates/lib/paros-client/src/pipeline.rs:210-314 | Every state of every run, from a pipeline built around any writer, leading or not, that opened nothing under its uuid, over any journal, keeps the invariant |
| `RunsTheorems.NextKeeps` | crates/lib/paros-client/src/pipeline.rs:210-371 | Each of the eighteen steps of callers, network, journal and claims keeps the invariant |
| `RunsTheorems.GreedyFrom` | crates/lib/paros-client/src/pipeline.rs:809-849 | From any load within both limits a maximal load exists, so a ready write can always lead |
| `RunsTheorems.FoldEnabled` | crates/lib/paros-client/src/pipeline.rs:262-313 | An answered call can always be folded |
| `RunsTheorems.ResumeAdvances` | crates/lib/paros-client/src/pipeline.rs:740-765 | An early write that waits for no other is sent again or settled, never told to wait |
| `RunsTheorems.TurnWrites` | crates/lib/paros-client/src/pipeline.rs:262-313 | In any run, a waiting send whose uuid leads the journal, with nothing in flight below it and the tail at its write, is written with all it carries at its own range by resuming it and one slot |
| `RunsTheorems.JudgeTells` | crates/lib/paros-client/src/writer.rs:599-635 | The answer to a request says what its slot decided: written exactly when the journal then holds it above the floor, a duplicate exactly when it did before, truncated exactly below the floor, superseded exactly when another leads, refused otherwise |
| `RunsTheorems.ResendTells` | crates/lib/paros-client/src/writer.rs:637-669 | A re-send always settles its call and says what its slot decided; only an early write stays ambiguous |
| `RunsTheorems.ReadBackTells` | crates/lib/paros-client/src/writer.rs:637-669 | A read-back that settles its call says truncated exactly below the floor, superseded exactly when another leader's journal did not reach it, and written otherwise |
| `RunsInvariant.JudgedAnswer` | crates/lib/paros-client/src/writer.rs:601-637 | What the slot that judged a request answers is true of the journal after that slot |
| `RunsInvariant.OnlyRequestHeld` | crates/lib/paros-client/src/lib.rs:1081-1110 | While a call with a known `led_from` is being settled, any write of its uuid held at its positions is the call's own request |
| `RunsInvariant.ReadBackAnswer` | crates/lib/paros-client/src/writer.rs:641-668 | The outcome a read-back settles in a run is true of the journal and stays true of the requests under way |
| `RunsInvariant.ResendAnswer` | crates/lib/paros-client/src/lib.rs:1028-1073 | The outcome a re-send's slot settles is true of the journal after that slot |
| `RunsInvariant.LeftBehind` | crates/lib/paros-client/src/pipeline.rs:373-389 | A request whose send was dropped or whose answer was lost may land at any later time without making any verdict given or pending false |
| `RunsLanes.LedFromAlone` | crates/lib/paros-client/src/writer.rs:256-277 | A known `led_from` means that no ticket outside the request shares any of its positions |
| `RunsLanes.DropKeeps` | crates/lib/paros-client/src/pipeline.rs:768-784 | Dropping a send in any stage keeps the invariant of the whole system |
| `RunsFold.EarlyOnce` | crates/lib/paros-client/src/pipeline.rs:692-733 | A send that is told it is early was never early before |
| `RunsFold.ApartOnce` | crates/lib/paros-client/src/pipeline.rs:897-914 | A send whose merged write comes apart never came apart before |
| `RunsFold.FoldKeeps` | crates/lib/paros-client/src/pipeline.rs:692-733 | Folding any answer (written, early, over the limits, failed) keeps the invariant of the whole system |
| `Settle.SettleIsRight` | crates/lib/paros-client/src/lib.rs:998-1073 | Whatever is decided meanwhile and whichever attempt settles a lost write, the settlement is true of the journal: `Written` is held as one batch, `NotWritten` is fenced for good |
| `Settle.Resolve` | crates/lib/paros-client/src/lib.rs:998-1073 | The retry loop settles the write as the first attempt that answers does, its read-back before its re-send, if every pause before it ran its course; it says a read-back gave it exactly then, and is unresolved when no attempt answers |
| `Settle.MatchingPage` | crates/lib/paros-client/src/lib.rs:1111-1156 | A page that matches on position, length, bytes, leader and tail shows the request's records as the end of the journal, each written under the request's uuid |
| `Settle.ReadBackWritten` | crates/lib/paros-client/src/lib.rs:1081-1156 | A read-back that says `Written` is right: when no other write of the uuid shares the positions, the journal holds the request as one batch |
| `Settle.SharedMatters` | crates/lib/paros-client/src/writer.rs:279-307 | Without that condition the proof fails: two one-record writes make a page that matches their concatenation, which the journal refuses; the writer gives that write no `led_from` |
| `Settle.ReadBackNotWritten` | crates/lib/paros-client/src/lib.rs:1138-1140 | A read-back that says `NotWritten` leaves the request fenced: not held, and its uuid no longer the leader |
| `Settle.FullPageSettles` | crates/lib/paros-client/src/lib.rs:1111-1156 | A full page says `Written` exactly when the uuid still leads and the journal ends with the request's records at its position, and `NotWritten` exactly when another leader's journal did not reach it |
| `Settle.ResentNotWritten` | crates/lib/paros-client/src/lib.rs:1028-1042 | A refused re-send that settles a write leaves it fenced |
| `Settle.ResentWritten` | crates/lib/paros-client/src/lib.rs:1028-1030 | A re-send answered as landed is held, at the request's own position and length |
| `Settle.ResentWhen` | crates/lib/paros-client/src/lib.rs:1028-1062 | Any answer to a re-send but silence ends the settlement; it stays unresolved exactly when the call was turned away or the journal its uuid leads has not come to it |
| `Settle.WrittenStays` | crates/lib/paros-client/src/lib.rs:215-244 | A write settled `Written` is held in every continuation, and a copy of it is answered from the log or as truncated |
| `Settle.NotWrittenIsFinal` | crates/lib/paros-client/src/lib.rs:215-244 | A write settled `NotWritten` is held by no continuation in which no uuid leads twice |
| `Settle.LandsOnlyReinstated` | crates/lib/paros-client/src/lib.rs:1028-1042 | A fenced write lands only in a run that makes its uuid the leader again |
| `Settle.ReinstatedLands` | crates/lib/paros-client/src/lib.rs:1322-1356 | And that is enough: from any journal whose tail has not passed the write, one such claim followed by a delayed copy holds it |
| `Claims.CarefulIsFresh` | crates/lib/paros-client/src/lib.rs:1322-1418 | Over every interleaving of claims in which no client asks under a uuid that led or has an ask under way over the leader in force, the journal decides a run in which no uuid leads twice |
| `Claims.LostIsCareful` | crates/lib/paros-client/src/lib.rs:1268-1320 | What a client can tell is enough: a uuid new to the journal, every ask of which was answered lost, is out of that danger |
| `Claims.DangerLeadsTwice` | crates/lib/paros-client/src/lib.rs:1322-1418 | From any valid journal in which a uuid led, or an ask of it is under way over the leader in force, one more claim of it makes it lead a second term in some continuation |
| `Claims.NotWrittenIsFinal` | crates/lib/paros-client/src/lib.rs:215-244 | Among careful clients a write settled `NotWritten` is in the journal in no continuation |
| `Claims.DecideFresh` | crates/lib/paros-core/src/journal/state.rs:455-481 | Among careful clients an ask wins exactly when the leader it was made over is in force, and its uuid never led |
| `Settle.LedExactly` | crates/lib/paros-core/src/journal/state.rs:455-481 | A uuid is among those that led after a run if and only if it was before or the run made it the leader |
| `Settle.LostClaimLeadsTwice` | crates/lib/paros-client/src/lib.rs:1322-1418 | That a uuid never leads twice is false of the client: a claim whose answer was lost, asked again after another leader, wins a second term, and a write settled `NotWritten` in between lands |
| `Settle.ClaimAsMeans` | crates/lib/paros-client/src/lib.rs:1322-1418 | A claim adopts the leadership its uuid has, asks exactly when it may and over the leader it read alone, which it wins if nothing moved, and loses otherwise |
| `Journal.ApplyKeepsValid` | crates/lib/paros-core/src/journal/state.rs:535-552 | Every command in either writer mode keeps the log tiled from 0 to the tail, the floor at or below it and the leader among the uuids that led |
| `Journal.ApplyMoves` | crates/lib/paros-core/src/journal/state.rs:195-301 | Nothing moves back, the log grows only at its end, and each outcome moves its own scalars and no other: the leader changes exactly on `Leader`, the log exactly on `Accepted` |
| `Journal.JudgedWhen` | crates/lib/paros-core/src/journal/state.rs:195-301 | What each call is answered, exactly, in both writer modes: accepted at the tail from whoever is entitled, a duplicate when held, truncated below the floor, a claim won over the leader in force, the floor moved as far as there are records |
| `Journal.TiledCovers` | crates/lib/paros-core/src/journal/state.rs:431-449 | Every position below the tail lies in a held batch |
| `Journal.AcceptedAtIsHeld` | crates/lib/paros-core/src/journal/state.rs:363-400 | The lookup by position is membership: it finds a batch exactly when that batch is held |
| `Journal.ContentOfBatch` | crates/lib/paros-core/src/journal/state.rs:431-449 | A held batch's records are the journal's records at its positions |
| `Journal.RunKeeps` | crates/lib/paros-core/src/journal/state.rs:195-301 | Every run keeps validity, the batches held, the uuids that led, the tail and the floor |
| `Journal.HeldIsDuplicate` | crates/lib/paros-core/src/journal/state.rs:363-400 | A held write is answered `Duplicate` with its own range for ever, or `Truncated` once the floor passed it, and changes nothing |
| `Journal.DeadForever` | crates/lib/paros-core/src/journal/state.rs:363-400 | A write whose uuid led and no longer leads, and that is not held, is never held again while no uuid leads twice |
| `Journal.LedSinceRun` | crates/lib/paros-client/src/writer.rs:256-277 | That all batches from a position on are one uuid's while it leads survives every run in which no uuid leads twice |
| `Journal.DeposedIsFenced` | crates/lib/paros-core/src/journal/state.rs:309-354 | Once another leader followed a uuid, no write or truncation under it, however late it lands, changes anything, while no uuid leads twice |
| `Journal.OneClaimWins` | crates/lib/paros-core/src/journal/state.rs:455-481 | Of all the claims made over one leader, one wins: once it has, no rival claim over that leader ever does |
| `Journal.TruncateTakes` | crates/lib/paros-core/src/journal/state.rs:487-508 | A fenced truncation is taken exactly from the leader in force, and takes away exactly the positions below it that exist |
| `Journal.WritesApart` | crates/lib/paros-core/src/journal/state.rs:309-354 | Consecutive writes of the leader, the first at the tail, are accepted one by one |
| `Journal.MergeRefines` | crates/lib/paros-client/src/pipeline.rs:799-869 | A merged write is accepted exactly when its first part is, and then reaches the same state, with the same record at every position, as its parts accepted in order |
| `Writer.OpenTracks` | crates/lib/paros-client/src/writer.rs:279-307 | Opening a write under the owned uuid keeps the record of which positions two writes share, however the positions go back |
| `Writer.LedFromIsAlone` | crates/lib/paros-client/src/writer.rs:256-277 | A write with a known `led_from` shares no position with any other write opened under its uuid |
| `Writer.OpenedAloneKnows` | crates/lib/paros-client/src/writer.rs:256-307 | A write opened at or past all opened before it knows where its uuid leads from, whatever is opened past it later |
| `Writer.TermBegins` | crates/lib/paros-client/src/writer.rs:321-345 | A writer that led begins a term under a new uuid of which nothing is known; one that did not keeps its own to claim |
| `Lanes.OpenKeeps` | crates/lib/paros-client/src/pipeline.rs:610-639 | Opening a write keeps the invariant, pairwise disjoint ranges of the leading uuid included, and gives it an unused id |
| `Lanes.FoldKeeps` | crates/lib/paros-client/src/pipeline.rs:692-733 | Folding any awaited answer keeps the invariant |
| `Lanes.FoldGives` | crates/lib/paros-client/src/pipeline.rs:692-733 | A written answer settles every write the send carries as written at its own range, leaves every other write as it was and the known tail past them; a failure is the verdict itself |
| `Lanes.FoldTells` | crates/lib/paros-client/src/pipeline.rs:692-733 | A merged write too large is taken apart and only that; a write is early exactly when its own term's journal refused it with a tail short of it; any other answer ends it |
| `Lanes.FoldLearns` | crates/lib/paros-client/src/pipeline.rs:692-733 | While a write's uuid leads, the leader and tail its answer names are learnt, whatever the answer |
| `Lanes.FoldBreaks` | crates/lib/paros-client/src/pipeline.rs:692-733 | An answer that ends its write unwritten breaks the lanes exactly when its uuid leads and writes are left; nothing else does but a carried write dropped before its leader came apart |
| `Lanes.ApartTells` | crates/lib/paros-client/src/pipeline.rs:897-914 | Taken apart, each write still wanted goes out alone, the dropped ones are gone and alone break the lanes |
| `Lanes.ResumeKeeps` | crates/lib/paros-client/src/pipeline.rs:740-765 | Resuming an early write keeps the invariant |
| `Lanes.ResumeGives` | crates/lib/paros-client/src/pipeline.rs:740-765 | An early write waits exactly while a write under its uuid is in flight below it; it is refused only once its uuid no longer leads or the known tail stops short of it, and otherwise sent unchanged |
| `Lanes.AbandonKeeps` | crates/lib/paros-client/src/pipeline.rs:768-784 | Abandoning any ticket, in flight or not, keeps the invariant |
| `Lanes.AbandonTells` | crates/lib/paros-client/src/pipeline.rs:768-784 | A carried write that is dropped stays, marked; any other leaves with all it carries and breaks the lanes exactly when its uuid leads and writes are left |
| `Lanes.SettleKeeps` | crates/lib/paros-client/src/pipeline.rs:874-891 | Settling a write with all it carries keeps every other merge whole |
| `Lanes.TakeApartKeeps` | crates/lib/paros-client/src/pipeline.rs:897-914 | Taking a merged write apart keeps the invariant, the dropped members settled |
| `Lanes.LeadKeeps` | crates/lib/paros-client/src/pipeline.rs:809-849 | Leading any joinable load keeps the invariant, and the load never holds its leader |
| `Lanes.BeginClaimKeeps` | crates/lib/paros-client/src/pipeline.rs:919-929 | Starting a claim, anew or not, keeps the invariant |
| `Lanes.ClaimedKeeps` | crates/lib/paros-client/src/pipeline.rs:935-962 | Folding any outcome of a claim keeps the invariant |
| `Lanes.ClaimMeans` | crates/lib/paros-client/src/pipeline.rs:935-962 | A claim's uuid leads after exactly when the journal names it, or nothing was told and it led; one that comes to lead starts unbroken at the tail told, one not named stays to be claimed again |
| `Lanes.BeginClaimMeans` | crates/lib/paros-client/src/pipeline.rs:919-929 | A claim anew asks under a uuid that leads nothing and has no write in flight if the old one led; another changes nothing |
| `Lanes.AdmitMeans` | crates/lib/paros-client/src/pipeline.rs:595-605 | Nothing is admitted without leading or while broken; otherwise a write is admitted past the known tail and every write in flight under its uuid, and an empty flight holds none up |
| `Lanes.ObserveKeeps` | crates/lib/paros-client/src/pipeline.rs:675-689 | Folding any view of the journal keeps the invariant |
| `Lanes.ObserveMeans` | crates/lib/paros-client/src/pipeline.rs:675-689 | A view leaves the writer leading exactly when it names its uuid, its tail known from then on |
| `Lanes.WaitsGoDown` | crates/lib/paros-client/src/pipeline.rs:740-765 | Every wait, early or carried, is for a strictly lower position under the same uuid: no cycle of waits exists |
| `Lanes.SomeoneMoves` | crates/lib/paros-client/src/pipeline.rs:740-797 | A flight that is not empty holds a write that waits for no other |
| `Lanes.GatherTiles` | crates/lib/paros-client/src/pipeline.rs:860-869 | The records of a chain of writes tile its range: each write is a slice of the whole, and every position belongs to one of them |
| `Lanes.SentTiles` | crates/lib/paros-client/src/pipeline.rs:860-891 | What a send carries is its own write and those it carries in order: each one's range, which its verdict names, is a slice, and together they cover it |
| `Lanes.JoinGrows` | crates/lib/paros-client/src/pipeline.rs:809-849 | A write that follows a load extends it: the longer load ends where that write ends and is the concatenation, its size the sum |
| `Lanes.GrownOut` | crates/lib/paros-client/src/pipeline.rs:809-849 | A load that nothing ready can follow within both limits is maximal in the flight as it was before |
| `Lanes.LeadSends` | crates/lib/paros-client/src/pipeline.rs:860-869 | The write sent is the leader's, carrying exactly its load |
| `Pipeline.InvAsserted` | crates/lib/paros-client/src/pipeline.rs:536-573 | The invariant implies every assertion the code states of its lanes |
| `Pipeline.SettlingAsserted` | crates/lib/paros-client/src/pipeline.rs:643-657 | Those assertions hold at every removal inside a settlement, not only at its end |
| `Pipeline.Lanes.constructor` | crates/lib/paros-client/src/pipeline.rs:523-534 | New lanes are valid, empty, and open at the tail their writer knows |
| `Pipeline.Lanes.Admit` | crates/lib/paros-client/src/pipeline.rs:595-605 | Whether a write may open, and where, as the specification says; `Lanes.AdmitMeans` says when |
| `Pipeline.Lanes.Open` | crates/lib/paros-client/src/pipeline.rs:610-639 | In place over the vector, opening keeps `Valid` and reaches the specified state, returning its id and entry |
| `Pipeline.Lanes.Remove` | crates/lib/paros-client/src/pipeline.rs:643-657 | A swap-remove of one write is removal by id; the last one out resets `ahead` and `broken` |
| `Pipeline.Lanes.Forward` | crates/lib/paros-client/src/pipeline.rs:662-669 | The known tail moves forward, `ahead` with it |
| `Pipeline.Lanes.Observe` | crates/lib/paros-client/src/pipeline.rs:675-689 | In place, a view is folded as specified and `Valid` is kept |
| `Pipeline.Lanes.Fold` | crates/lib/paros-client/src/pipeline.rs:692-733 | In place, every outcome is folded as specified, and what happened to the write is reported |
| `Pipeline.Lanes.Resume` | crates/lib/paros-client/src/pipeline.rs:740-765 | In place, an early write is sent, kept waiting or settled as specified; `Lanes.ResumeGives` says when |
| `Pipeline.Lanes.AnyAhead` | crates/lib/paros-client/src/pipeline.rs:740-765 | The scan finds a write at a lower position of the same uuid exactly when there is one |
| `Pipeline.Lanes.Abandon` | crates/lib/paros-client/src/pipeline.rs:768-784 | In place, a dropped send is abandoned as specified |
| `Pipeline.Lanes.Ready` | crates/lib/paros-client/src/pipeline.rs:792-797 | In place, an opened write becomes ready |
| `Pipeline.Lanes.Lead` | crates/lib/paros-client/src/pipeline.rs:809-849 | The loop over ready writes ends with a maximal load and the specified state, and sends exactly that load; a settled ticket collects its verdict, a carried one waits |
| `Pipeline.Lanes.Next` | crates/lib/paros-client/src/pipeline.rs:809-849 | The search returns a write that may follow, and none only when none may |
| `Pipeline.Lanes.SentEntry` | crates/lib/paros-client/src/pipeline.rs:860-869 | The loop concatenates the records of the write and those it carries |
| `Pipeline.Lanes.Settle` | crates/lib/paros-client/src/pipeline.rs:874-891 | The loop settles the write and each one it carries with its own part of the outcome |
| `Pipeline.Lanes.TakeApart` | crates/lib/paros-client/src/pipeline.rs:897-914 | The loop returns each carried write to ready and alone, and settles the dropped ones |
| `Pipeline.Lanes.BeginClaim` | crates/lib/paros-client/src/pipeline.rs:919-929 | In place, the uuid to claim, which leads only when not anew |
| `Pipeline.Lanes.Claimed` | crates/lib/paros-client/src/pipeline.rs:935-962 | In place, a claim's outcome is folded as specified; `Lanes.ClaimMeans` says what it leaves |
| `CheckpointRuns.MeaningSurvives` | crates/lib/paros-client/src/checkpoint.rs:438-492 | After any run of appends by anyone, rival owners, batches landing late or never, runs cut anywhere and truncations to written runs, a new fold from the floor is whole at the tail with the state of every entry ever appended; and every owner's fold that says it is whole has the state of the entries below it |
| `CheckpointRuns.RunKeepsInv` | crates/lib/paros-client/src/checkpoint.rs:264-348 | Every step keeps the log sound: each checkpoint in it holds the meaning of the log below its `Begin` |
| `CheckpointRuns.AcceptSound` | crates/lib/paros-client/src/checkpoint.rs:353-418 | A batch of a genuine run that lands leaves the log sound, whichever record it ends at |
| `CheckpointRuns.WrittenComplete` | crates/lib/paros-client/src/checkpoint.rs:294-320 | A run the log holds to its `End` is a checkpoint a truncation may go to |
| `Checkpoint.LoadFromFloor` | crates/lib/paros-client/src/checkpoint.rs:438-492 | On a sound log whose floor is 0 or a checkpoint's `Begin`, a fold from the floor ends whole, at the tail, with the meaning of the whole log |
| `Checkpoint.StepFollows` | crates/lib/paros-model/src/checkpoint.rs:328-402 | The next record of a sound log keeps the fold on the log, and never finds a checkpoint that differs from its state |
| `Checkpoint.EndFollows` | crates/lib/paros-model/src/checkpoint.rs:413-437 | A committing `End` restores or verifies: the fold is whole after it and agrees with the log |
| `Checkpoint.TakenTells` | crates/lib/paros-model/src/checkpoint.rs:328-437 | What the fold says of a record, exactly: past, applied by a whole fold, skipped by another, within a run, or a checkpoint when the `End` names the chunks and checksum collected and its state equals or reads back |
| `Checkpoint.TakenState` | crates/lib/paros-model/src/checkpoint.rs:328-437 | An applied entry and a checkpoint alone change the state; a checkpoint of another state replaces it and makes the fold whole, and is told as verified exactly when the fold was whole |
| `Checkpoint.SinceCounts` | crates/lib/paros-model/src/checkpoint.rs:328-411 | Between two checkpoints a whole fold counts exactly the entries it took and their bytes |
| `Checkpoint.PageFollows` | crates/lib/paros-client/src/checkpoint.rs:438-492 | Any page of a sound log keeps the fold on the log |
| `Checkpoint.JumpFollows` | crates/lib/paros-model/src/checkpoint.rs:312-322 | A jump to a checkpoint's `Begin` keeps the fold on the log |
| `Checkpoint.WholeAtTail` | crates/lib/paros-model/src/checkpoint.rs:297-300 | A fold on the log that reached the tail is whole |
| `Checkpoint.RunHasNoEntry` | crates/lib/paros-model/src/checkpoint.rs:328-411 | An open run's records lie right behind its `Begin`, are all chunks, and change no meaning |
| `Checkpoint.PiecesJoin` | crates/lib/paros-model/src/checkpoint.rs:173-196 | The chunks of a run join to the state they were cut from |
| `Checkpoint.PieceSizes` | crates/lib/paros-model/src/checkpoint.rs:173-196 | No chunk is empty or larger than asked |
| `Checkpoint.RunCollects` | crates/lib/paros-model/src/checkpoint.rs:173-196 | A log that holds the first records of a run has collected exactly those chunks, their count and checksum |
| `Checkpoint.RunCommits` | crates/lib/paros-model/src/checkpoint.rs:173-196 | A run's `End` commits what its chunks collect, and that is the state it was cut from |
| `Checkpoint.Folder.constructor` | crates/lib/paros-model/src/checkpoint.rs:264-275 | A new fold is whole, at 0, with no open run |
| `Checkpoint.Folder.Jump` | crates/lib/paros-model/src/checkpoint.rs:312-322 | In place, a jump past the fold drops its wholeness and open run; a jump back does nothing |
| `Checkpoint.Folder.Take` | crates/lib/paros-model/src/checkpoint.rs:328-411 | In place, any record at any position is folded as specified, and an open run's records stay consecutive |
| `Checkpoint.Folder.Restore` | crates/lib/paros-model/src/checkpoint.rs:413-437 | In place, a committed run verifies a whole fold, restores another, or changes nothing when unusable |
| `CheckpointOwner.BatchLen` | crates/lib/paros-tunables/src/client.rs:126-139 | The batch fits both limits, takes one record at least, and one more record would not fit |
| `CheckpointOwner.BatchIsLongest` | crates/lib/paros-tunables/src/client.rs:126-139 | No number of records that fits is larger than the batch's |
| `CheckpointOwner.BatchWithin` | crates/lib/paros-client/src/checkpoint.rs:353-418 | A batch that lower limits do not shorten is no longer than those limits allow |
| `CheckpointOwner.NextBatch` | crates/lib/paros-tunables/src/client.rs:126-139 | The loop takes exactly the longest batch |
| `CheckpointOwner.OwnRunStep` | crates/lib/paros-client/src/checkpoint.rs:353-418 | Folding the owner's own run record by record collects it, and its `End` verifies equal to the state |
| `CheckpointOwner.OwnRunFolds` | crates/lib/paros-client/src/checkpoint.rs:353-418 | After any prefix of its own run the owner's fold is the state it started from, with that prefix collected |
| `CheckpointOwner.Checkpointer.constructor` | crates/lib/paros-client/src/checkpoint.rs:115-141 | A new owner has a new fold, its writer and its policy |
| `CheckpointOwner.Checkpointer.RunStart` | crates/lib/paros-client/src/checkpoint.rs:342-350 | A position is given exactly when the owner stands at record 0 of its own run, which is what writing the run asks for, and the run begins there |
| `CheckpointOwner.Checkpointer.Open` | crates/lib/paros-client/src/checkpoint.rs:162-205 | Open is an owner only that won or already led, and whose fold has the meaning of the whole journal at a moment, at or past the position its writer goes on at; one that won or led and is not open met a read not served, a journal that outgrew its reads, or one that ends below its writer |
| `CheckpointOwner.Checkpointer.Catch` | crates/lib/paros-client/src/checkpoint.rs:184-205 | Success is a whole fold at the tail of a moment, at or past the writer; failure is a read not served, a journal that outgrew the reads, or one that ends below the writer |
| `CheckpointOwner.Checkpointer.AppendFolded` | crates/lib/paros-client/src/fleet.rs:2021-2052 | On success the entry is written and the fold, which stays on the journal, has gone past it and past all the writer knows of; a written entry fails only by a load that fell short, for one of the three reasons a load may |
| `CheckpointOwner.Checkpointer.Turn` | crates/lib/paros-client/src/checkpoint.rs:353-418 | One turn goes on exactly when the batch was written whole at its position; it lowers both limits to the smaller of its own and the node's exactly when that makes the next batch strictly shorter; otherwise it stops with the fold as it was and the answer as its outcome |
| `CheckpointOwner.Checkpointer.WriteBatch` | crates/lib/paros-client/src/checkpoint.rs:353-418 | A batch is folded exactly when it was written whole at the fold's position, and then fold and writer stand at one position again |
| `CheckpointOwner.Checkpointer.WriteRun` | crates/lib/paros-client/src/checkpoint.rs:353-418 | The loop ends, by records left and then batch length; the batches written lie one after the other from the start and concatenate to a prefix of the run, to all of it on success; a failure is an answer that did not write its batch whole at its position, and one that says too large refused a batch its own limits allow |
| `CheckpointOwner.Checkpointer.WriteCheckpoint` | crates/lib/paros-client/src/checkpoint.rs:294-320 | On success exactly the owner's run was written at the position reported, `End` included; on any failure the state is unchanged; it starts only when fold and writer agree |
| `CheckpointOwner.Checkpointer.Append` | crates/lib/paros-client/src/checkpoint.rs:223-249 | An entry is folded exactly when it was written at the fold's position, and a checkpoint record is never sent |
| `CheckpointOwner.Load` | crates/lib/paros-client/src/checkpoint.rs:438-492 | Against a log that grows and is truncated between answers, the loop keeps the fold on the log, never ends unhealed, finds no divergence, and when it says it loaded the fold has the meaning of the whole log, restarted exactly if a read met a gap; it says unavailable only on an unread answer, or when the journal outgrew its answers, each of which took the fold on |
| `CheckpointOwner.FoldPage` | crates/lib/paros-client/src/checkpoint.rs:438-492 | The loop over a page folds every record of it and finds no divergence |
| `CheckpointOwner.TakeAnswer` | crates/lib/paros-client/src/checkpoint.rs:438-492 | A gap is jumped and a page folded, both keeping the fold on the log; the load ends with a page that is empty or reaches both tails, the fold then whole there; any other answer takes the fold on |
| `FleetRuns.TenantLives` | crates/lib/paros-client/src/fleet.rs:777-938 | Over every interleaving of operators, rivals and crashes, stale coordinators and late commands, a `READY` tenant is hosted and not dropped by its cell, and a tenant the directory forgot was tombstoned by its cell and is not hosted |
| `FleetRuns.TombstoneHolds` | crates/lib/paros-coordinator/src/universe.rs:146-181 | A tenant a cell dropped is never hosted by it again, whatever lands later |
| `FleetRuns.DecidedFromBelow` | crates/lib/paros-client/src/fleet.rs:1883-1908 | Over every interleaving of sessions, an entry of the directory at position p was decided from the fold of exactly the records below p and from a prefix of the cell's log, and changed the directory |
| `FleetRuns.OpenIsFolded` | crates/lib/paros-client/src/checkpoint.rs:184-205 | Over every interleaving of claims, loads, lost answers, checkpoints, closings and crashes, every session holds the directory's own fold, never past the journal; one that counts as open, and is not reading on after a write, holds it at or past the position its writer goes on at |
| `FleetRuns.DecideKeeps` | crates/lib/paros-client/src/fleet.rs:1703-1714 | A request is decided from a fold that reaches the position it asks for, because its session counts as open |
| `FleetRuns.WroteKeeps` | crates/lib/paros-client/src/fleet.rs:2021-2052 | An entry written where the fold stands is folded there; written elsewhere, it leaves the session reading on, and undecided, until it caught up |
| `FleetRuns.SavedKeeps` | crates/lib/paros-client/src/fleet.rs:1896-1906 | A checkpoint written where both stand takes fold and writer on together |
| `FleetRuns.StepsOnce` | crates/lib/paros-client/src/fleet.rs:777-938 | Two entries about one tenant take it strictly up: crashed, resumed and rival runs write each step of its life at most once |
| `FleetRuns.RankGrows` | crates/lib/paros-model/src/fleet.rs:422-434 | No entry ever takes a tenant back along its life |
| `FleetRuns.LandReady` | crates/lib/paros-client/src/fleet.rs:777-880 | An entry that marks a tenant `READY` lands only while its cell hosts it and never dropped it |
| `FleetRuns.LandRemove` | crates/lib/paros-client/src/fleet.rs:886-938 | An entry that forgets a tenant lands only once its cell tombstoned it |
| `FleetRuns.CellLandLives` | crates/lib/paros-coordinator/src/universe.rs:112-181 | A cell command decided from any older directory lands without dropping a tenant the directory serves |
| `FleetRuns.DroppedNotHosted` | crates/lib/paros-model/src/registry.rs:693-752 | No cell hosts a tenant it dropped |
| `FleetRuns.HostedIsGranted` | crates/lib/paros-model/src/registry.rs:693-752 | A cell hosts a tenant only with a footprint it granted |
| `FleetRuns.FootprintStays` | crates/lib/paros-model/src/registry.rs:693-752 | The first answer to a footprint stands, whatever lands later |
| `FleetRuns.RunKeepsInv` | crates/lib/paros-client/src/fleet.rs:1703-1908 | Every step of sessions, coordinators and the two journals keeps the invariant and only grows the logs |
| `Fleet.ApplyDirectoryKeeps` | crates/lib/paros-model/src/fleet.rs:1759-1982 | Every directory entry keeps the directory valid, leaves every other tenant where it was, never takes its own back, and says it changed the directory exactly when it did |
| `Fleet.MarkMoves` | crates/lib/paros-model/src/fleet.rs:422-434 | A mark moves its tenant along one of the ten moves of a life, says what already is, or is refused |
| `Fleet.RepeatIsUnchanged` | crates/lib/paros-model/src/fleet.rs:1759-1982 | An entry that changed the directory, applied again, changes nothing and is told so; a registration told so is the very one held, one taken found name, id and cell free to take, and a removal taken found its tenant leaving |
| `Fleet.RegistersWhenTaken` | crates/lib/paros-client/src/fleet.rs:777-880 | Where its name is free and its cell known, a creation registers exactly when the directory takes the registration, and refuses exactly when the directory would |
| `Fleet.CreateRefusedWhy` | crates/lib/paros-client/src/fleet.rs:777-880 | A creation of a held name is refused as taken exactly for another draw or a tenant being updated, as removed for its own that is leaving or was dropped, for its footprint when its own failed |
| `Fleet.DecidedStepMoves` | crates/lib/paros-client/src/fleet.rs:777-938 | A step decided from the directory it is applied to is never refused or repeated: it changes the directory and takes its tenant strictly up |
| `Fleet.StaleStepRepeats` | crates/lib/paros-client/src/fleet.rs:1703-1714 | From an older directory the same step is written again and changes nothing: the fence of the directory's owner is what makes steps single |
| `Fleet.AwaitMoves` | crates/lib/paros-client/src/fleet.rs:777-938 | An operation that waits waits for its cell, and the coordinator then has a step that takes the tenant strictly on |
| `Fleet.CellRankGrows` | crates/lib/paros-model/src/registry.rs:693-752 | No command takes a tenant back along its life in a cell |
| `Fleet.EndMeans` | crates/lib/paros-client/src/fleet.rs:777-938 | A creation that ends well leaves its own draw's tenant `READY` under its name, hosted if this step made it so; a removal leaves the name free and the tenant it forgot dropped |
| `Fleet.CellMattersWhen` | crates/lib/paros-client/src/fleet.rs:777-938 | The tenant's cell makes a difference exactly to a creation waiting to be hosted and a removal waiting to be dropped |
| `Fleet.CreationEnds` | crates/lib/paros-client/src/fleet.rs:777-880 | With nobody else moving, a creation under an unused draw ends hosted and `READY` under its name when the footprint fits, and refused for it when not |
| `Fleet.RemovalEnds` | crates/lib/paros-client/src/fleet.rs:886-938 | With nobody else moving, a removal ends with the name free, the tenant tombstoned and dropped by its cell, whatever state it was in |
| `Fleet.ReopensWhen` | crates/lib/paros-client/src/fleet.rs:1703-1714 | A session opens exactly when its claim is answered and its load reaches the tail claimed, on the directory loaded |
| `Fleet.AppendedOpenWhen` | crates/lib/paros-client/src/fleet.rs:1883-1908 | After a write a session stays open exactly when its fold, or the load behind it, reaches every position it saw; an entry written where the fold stands is folded, and no tail seen is forgotten |
| `Fleet.CheckpointedWhen` | crates/lib/paros-client/src/fleet.rs:1896-1906 | A due checkpoint that is saved moves fold and writer on together; one that is not closes the session |
| `Fleet.FleetSession.OpenDirectory` | crates/lib/paros-client/src/fleet.rs:1703-1714 | An open session stays; another opens exactly when its claim and its load succeed and the fold reached its writer, and a session that counts as open always has |
| `Fleet.FleetSession.AppendDirectory` | crates/lib/paros-client/src/fleet.rs:1883-1908 | A write is folded where the fold stands, read up to otherwise, and a due checkpoint saved; a write not known, a load that falls short and a checkpoint that failed each close the session, so one still open has folded up to its writer |
| `Fleet.FleetSession.ReadCell` | crates/lib/paros-client/src/fleet.rs:1729-1756 | A cell read replaces what is known of that cell; a failed read changes nothing |
| `Fleet.FleetSession.Take` | crates/lib/paros-client/src/fleet.rs:777-938 | One step is decided from the fold of a session that counts as open and, exactly when some registry would change the decision, from the registry it just read: a removal waiting to be dropped ends with its removal once the cell dropped the tenant, a creation waiting to be hosted ends `READY` once it is hosted, fails its footprint once that is refused, and is turned away, the session closed, once it was dropped; every other decision is told as it is and moves nothing |
| `Fleet.Switch` | crates/lib/paros-client/src/fleet.rs:1610-1656 | A creation moves to another of its own draws exactly when one of them answers the refusal |
| `Fleet.CreateTenant` | crates/lib/paros-client/src/fleet.rs:1610-1656 | The loop ends under any answers, reports exactly the steps its looks wrote, at most eight, and goes round only with all eight; each look is made under the draw the one before moved to; a look that waits or was interrupted ends the run exactly when patience since the last entry ran out or the pause was cut short, a refusal exactly when no other draw of its own answers it or it moved too often |
| `ElectionRuns.FoldsAgree` | crates/lib/paros-client/src/election.rs:817-838 | In every run, late truncation by a deposed leader included, a fold that knows, however it got where it is, names the term and leader that the rule from position 0 names there; a fold waiting at a floor knows after one record |
| `ElectionRuns.OneIncarnationATerm` | crates/lib/paros-client/src/election.rs:725-787 | In every run at most one incarnation ever leads a given term, among those whose fold knew the term when they first caught up |
| `ElectionTwice.TwoIncarnationsLead` | crates/lib/paros-client/src/election.rs:563-658 | At most one incarnation a term is false in general: a run from the start in which two incarnations of one candidate lead term 2 under one uuid |
| `ElectionTwice.BlindLeads` | crates/lib/paros-client/src/election.rs:725-787 | From any state of any run: a live incarnation that leads nothing and caught up blind leads the term in force once it goes back and reads on, if that term was handed to its id past the floor, whoever watched it |
| `ElectionTwice.PageHandsLast` | crates/lib/paros-client/src/election.rs:639-658 | Of the hand-offs to it that a page holds, a caught-up candidate holds the last one in the end |
| `ElectionTwice.InForceIsLast` | crates/lib/paros-client/src/election/fold.rs:589-655 | No later hand-off to a candidate follows the one that began the term it has in force |
| `ElectionTwice.HandOffRules` | crates/lib/paros-client/src/election/fold.rs:589-655 | The log of that run: one leader, two floors it may truncate to, and a hand-off to candidate 2 |
| `ElectionLeads.RenewsItsOwn` | crates/lib/paros-client/src/election.rs:795-838 | In every run the leadership a candidate holds is its own incarnation's and above any term it gave up: no renewal or truncation is for another's term |
| `ElectionLeads.LeadsItsOwn` | crates/lib/paros-client/src/election.rs:438-457 | While its fold stands in the term it leads, the leader there is the one it took the term as |
| `ElectionRuns.GivenUpForGood` | crates/lib/paros-client/src/election.rs:878-910 | In every run no incarnation leads a term at or below one it gave up, whatever became of the resignation |
| `ElectionRuns.GivenUpStaysSo` | crates/lib/paros-client/src/election.rs:878-910 | In every run that goes on after a leader resigned or stepped down, that incarnation leads nothing at or below the term it led then, has begun no such term since, and would begin or renew none; the resignation sent names that term |
| `ElectionRuns.InterfacesAreTheTerms` | crates/lib/paros-client/src/election.rs:390-422 | In every run a campaign carries no interface `publish` set, and a renewal carries only one given at construction, cleared, or published since its term began |
| `ElectionRuns.SameLeadership` | crates/lib/paros-client/src/election/fold.rs:589-655 | Two leaderships of one term are of one candidate under one uuid |
| `ElectionRuns.MintedAndHanded` | crates/lib/paros-client/src/election.rs:438-457 | Of two leaderships of one term, both were campaigned for or both were handed |
| `ElectionRuns.BothHanded` | crates/lib/paros-client/src/election.rs:639-658 | Two handed leaderships of one term came from one hand-off, which one incarnation alone was there to watch |
| `ElectionRuns.MaySettle` | crates/lib/paros-client/src/election.rs:725-787 | Any live candidate may end its turn: the hand-off it holds is one the log holds |
| `ElectionRuns.CandidateIsAllowed` | crates/lib/paros-client/src/election.rs:563-601 | In every run a candidate's fold is sane, the term it leads lies above any it gave up, and neither going back to the floor nor any page the journal may serve leaves a fold with nowhere to go back to: no assertion of the candidate or its fold is reached |
| `ElectionRuns.RunKeepsInv` | crates/lib/paros-client/src/election.rs:675-910 | Every step of candidates, deaths, restarts, truncations and late records keeps the invariant |
| `Election.OldHandOffNotedIff` | crates/lib/paros-client/src/election.rs:563-658 | A caught-up candidate takes an old hand-off for one it watched if and only if its fold knew nothing, held nothing as low as the floor, and a hand-off to its id lies past the floor |
| `Election.PageCatchesUp` | crates/lib/paros-client/src/election.rs:563-601 | A candidate that knows the term has caught up after a page exactly when the page ends at the tail; one that does not waits there for two records, then goes back to the floor and has caught up only if that tells it the term |
| `Election.PagedReadsTo` | crates/lib/paros-client/src/election.rs:563-601 | A page keeps the fold on the log, moves it forward, and notes only a hand-off to this candidate that the page holds |
| `Election.ChasedReads` | crates/lib/paros-client/src/election.rs:608-637 | Resuming at the floor, or the second time at the tail, keeps the fold on the log and changes nothing else |
| `Election.PageNotes` | crates/lib/paros-client/src/election.rs:639-658 | What a candidate notes over a page is a hand-off of that page |
| `Election.CampaignLeads` | crates/lib/paros-client/src/election.rs:675-715 | A campaign that lands right after what its candidate read wins it the next term, under its new uuid, by the rule from position 0 |
| `Election.HandOffLeads` | crates/lib/paros-client/src/election.rs:639-658 | A hand-off of the term in force, watched by a caught-up candidate, makes it lead the next term with no campaign |
| `Election.RenewalKeeps` | crates/lib/paros-client/src/election.rs:795-838 | A renewal that lands keeps its leader in its term and becomes the record it may truncate to |
| `ElectionFold.OneLeaderATerm` | crates/lib/paros-client/src/election/fold.rs:589-655 | While a term stands, its leader is one candidate under one uuid, since one position |
| `ElectionFold.RuleMeans` | crates/lib/paros-client/src/election/fold.rs:589-655 | What a record does, exactly: a campaign wins if and only if it asks for the next term, and deposes who led; a renewal renews the very leadership it names or is adopted when ahead; a resignation counts if and only if who resigns leads that term, and vacates it or hands the next one on; nothing else changes anything |
| `ElectionFold.UnknownAbsorbs` | crates/lib/paros-client/src/election/fold.rs:658-718 | A fold that does not know comes to know exactly by the record at its floor, when that describes a leadership no older than the terms it saw; any other record only raises the term it saw |
| `ElectionFold.AtTailMeans` | crates/lib/paros-client/src/election/fold.rs:411-433 | Overtaken again, a fold stands at the tail holding nothing, the term it knew remembered, or at the floor when nothing lies past it |
| `ElectionFold.TermGrows` | crates/lib/paros-client/src/election/fold.rs:589-655 | No record lowers the term |
| `ElectionFold.AnchorIsLegit` | crates/lib/paros-client/src/election.rs:817-838 | The record a leader may truncate to is one at which the rule names that leader |
| `ElectionFold.LegitDescribes` | crates/lib/paros-client/src/election/fold.rs:658-698 | The record at such a floor describes the leadership the rule has there |
| `ElectionFold.RuleAgrees` | crates/lib/paros-client/src/election/fold.rs:589-655 | Two folds with the same term and leader rule every record alike and report the same change |
| `ElectionFold.AbsorbAgrees` | crates/lib/paros-client/src/election/fold.rs:561-587 | Absorbing the next record keeps the fold in agreement with the rule from 0; only a fold that knows reports a hand-off, and then the rule's |
| `ElectionFold.PageAgrees` | crates/lib/paros-client/src/election/fold.rs:561-587 | A page keeps the fold in agreement; at a floor one record is enough to know; at the tail every record is held |
| `ElectionFold.ReplayAgrees` | crates/lib/paros-client/src/election/fold.rs:488-517 | Folding held records again from a floor keeps the agreement, and the fold knows or waits there |
| `ElectionFold.HeldReplays` | crates/lib/paros-client/src/election/fold.rs:488-517 | A replay onto a floor whose record is held ends knowing |
| `ElectionFold.FloorSeenAgrees` | crates/lib/paros-client/src/election/fold.rs:454-486 | A floor reported moves the fold onto it or leaves it as it was, in agreement either way |
| `ElectionFold.FloorSeenPast` | crates/lib/paros-client/src/election/fold.rs:454-486 | A fold that knows after it saw a floor at or below its position stands at or past that floor |
| `ElectionFold.ElectionFold.Gap` | crates/lib/paros-client/src/election/fold.rs:384-393 | In place, a gap forgets the leader and waits at the floor |
| `ElectionFold.ElectionFold.ResumeAtTail` | crates/lib/paros-client/src/election/fold.rs:411-433 | In place, the fold starts at the tail knowing nothing |
| `ElectionFold.ElectionFold.Absorb` | crates/lib/paros-client/src/election/fold.rs:561-718 | In place, every record is ruled, anchored on or held as specified |
| `ElectionFold.ElectionFold.Replay` | crates/lib/paros-client/src/election/fold.rs:488-517 | The loop over held records folds exactly those from the floor on |
| `ElectionFold.ElectionFold.SeeFloor` | crates/lib/paros-client/src/election/fold.rs:454-486 | In place, a floor is judged as specified, and whether it anchored is reported |
| `ElectionFold.ElectionFold.Rewind` | crates/lib/paros-client/src/election/fold.rs:524-556 | In place, the fold goes back to the floor, or anchors from memory; it then knows or waits there |
| `ElectionCandidate.Election.FoldPage` | crates/lib/paros-client/src/election.rs:563-601 | In place, a page is folded and noted as specified; it says it reached the tail exactly when the watcher caught up with it, and that it fell short exactly on an empty page below the tail |
| `ElectionCandidate.Election.ChaseFloor` | crates/lib/paros-client/src/election.rs:608-637 | In place, a truncated position is chased as specified; it says anchored exactly when a record held anchors the fold, which then knows the term |
| `ElectionCandidate.Election.Publish` | crates/lib/paros-client/src/election.rs:390-414 | The next renewal names the interface, and no campaign does |
| `ElectionCandidate.Election.Unpublish` | crates/lib/paros-client/src/election.rs:416-422 | In place, a published interface is cleared, one given at construction kept |
| `ElectionCandidate.Election.Led` | crates/lib/paros-client/src/election.rs:320-327 | The leadership held is the fold's for the term it leads, its own incarnation's, and above any term it gave up |
| `ElectionCandidate.Election.Campaign` | crates/lib/paros-client/src/election.rs:675-715 | In place, a campaign for the next term under a new uuid, its publication cleared |
| `ElectionCandidate.Election.Settle` | crates/lib/paros-client/src/election.rs:776-787 | In place, the end of a turn; a term new to it clears the publication |
| `ElectionCandidate.Election.Renew` | crates/lib/paros-client/src/election.rs:795-838 | A renewal is of a term of its own, so the source's assertion holds, and it truncates only to a record the rule counted |
| `ElectionCandidate.Election.GiveUp` | crates/lib/paros-client/src/election.rs:904-910 | In place, the term is given up and this candidate leads nothing at or below it |
| `ElectionCandidate.Election.Resign` | crates/lib/paros-client/src/election.rs:878-895 | A record is given exactly when it led, naming that term, itself and, under the new uuid, a successor that is another candidate; after it this candidate leads nothing and has given up that term |
| `ElectionCandidate.Election.StepDown` | crates/lib/paros-client/src/election.rs:897-902 | The term led, exactly when one is, is given up without a record |
| `Bootstrap.CountsMeet` | crates/lib/paros-client/src/bootstrap.rs:298-329 | For any answers, the servers of two cells together are at most the list |
| `Bootstrap.OneElected` | crates/lib/paros-client/src/bootstrap.rs:298-329 | At most one cell is elected |
| `Bootstrap.Collect` | crates/lib/paros-client/src/bootstrap.rs:298-318 | The loop holds, for each cell, the first journals named and exactly the servers that named those, in list order |
| `Bootstrap.MajorityCell` | crates/lib/paros-client/src/bootstrap.rs:298-329 | The answer is the one elected cell with exactly its servers, and none only when none is elected; the loop meets no second majority, so the closing assertion holds |
| `Bootstrap.BrokenFirstHides` | crates/lib/paros-client/src/bootstrap.rs:298-329 | A majority for a cell is not enough: one broken first answer for its id hides it; election is exactly a majority that agrees with the first answer |
| `Reader.Reader.Absorb` | crates/lib/paros-client/src/reader.rs:98-131 | In place, the cursor moves as specified and never back, and each answer is told as what it is, with its records, its gap and its view |
| `Reader.NothingLostIff` | crates/lib/paros-client/src/reader.rs:98-146 | At every moment of any run the records delivered and gaps reported partition the positions from start to cursor, if and only if every page starts where the reader asked |
| `Reader.StepPartitions` | crates/lib/paros-client/src/reader.rs:98-131 | One answer keeps the partition exactly when it is in step |
| `Reader.PartitionCovers` | crates/lib/paros-client/src/reader.rs:98-146 | In a partition every position below the cursor is delivered or reported exactly once, and no other |
| `Reader.SkippedSilently` | crates/lib/paros-client/src/reader.rs:98-131 | A page past the cursor is delivered as it is, and the positions before it are never reported |

## Left out

- RPC, TLS, DNS, timers, the executor and the watch channel: their effects are free choices of the state machines.
- The replication kernel below a journal (acceptors, quorums, matchmakers): a journal is an atomic log, and a read is of some moment between its call and its answer.
- The client's server choice, retry and redirect loops around `write`, `read_any` and `set_leader`: a call is answered, lost, or told that nothing was proposed; only what is asked and what the answer means is modelled.
- Deriving a uuid from a seed and a counter: a new uuid is a parameter that no one used before.
- 64-bit overflow of positions and terms: positions and terms are unbounded naturals.
- The wire codecs, the magic prefixes and the judges of raw answers: records and outcomes are decoded values, and the byte size of a record is a parameter of the codec.
- The checksum's strength: it is an arbitrary function of the chunks, so a corrupted chunk record is not modelled; a record no codec reads is.
- Leases, heartbeats and the clock of an election: when a candidate campaigns, renews or truncates is a free choice, which includes every schedule a clock gives.
- The age and size policy of `due`: when a checkpoint starts is a free choice.
- Delivery of a stored verdict: a ticket whose send was dropped after it settled may leave its verdict uncollected, so a ticket has at most one verdict, not exactly one.
- A pipeline built around a writer that already opened writes under its uuid: runs start with none opened and none held under it.
- Fairness: that some write can move is proved, that the network lets it move is not.
- Tenant moves, adding and removing cells, configuration updates: they repeat the argument of creation and removal over more states.
- Buckets, placement, survival goals, tags and bookings of the fleet: a placement is a parameter, and a cell grants or refuses a tenant's footprint as a free choice.
- What the records of a checkpoint run in the directory journal hold, and truncation of it: they are records that change nothing, a fold restored from one is the fold of the records below it, and that is proved separately for any state.
- The uuid fence of the directory journal: a record lands at its own position, whichever owner sent it, which allows more runs than the fence does.
- The binaries, the benchmark, the website and fault injection marks.
- Settle.NotWrittenIsFinal: requires a continuation in which no uuid leads twice, because the property is false without it; Settle.LandsOnlyReinstated and Settle.ReinstatedLands give both halves of the condition.
- ElectionRuns.OneIncarnationATerm: covers incarnations whose fold knew the term when they first caught up, because the property is false of others; Election.OldHandOffNotedIff gives the exact condition for one candidate, and ElectionTwice.BlindLeads the converse for any state of a run whose floor the candidate last read.
- CheckpointOwner.Load: reads a sequence of answers of a given length, after which it says unavailable, because a journal that outgrows its reader for ever gives a loop with no end; it is proved that the answers run out in no other way.
- Fleet.DecidedStepMoves: requires that the cell chosen is one the directory knows, because placement chooses among those and placement is not modelled.
- Election.ChasedReads: covers floors that are reported in order, because the pages a candidate reads are folded one at a time; reading several pages ahead is not modelled.
