/**
  Whole runs of one pipeline over one journal. The journal is an atomic log that
  any client may move. Between a send's request and its verdict anything may
  happen: the answer is lost, and the request is then decided late, more than once or
  never; the send is dropped. A request whose answer came was decided in one slot.
  Every step of `send`, `claim` and `truncate` is one event.
  */
module Runs {
  import opened Common
  import opened Journal
  import W = Writer
  import L = Lanes
  import S = Settle

  /** A write request: what it asks for, and the tickets whose records it carries. */
  datatype Copy = Copy(entry: Entry, ids: set<nat>)

  /** Where the call of a leading send stands. */
  datatype Phase =
    | Asking(copy: Copy, ledFrom: Option<nat>)
    | Settling(copy: Copy, ledFrom: Option<nat>)
    | Answered(copy: Copy, outcome: W.Outcome)
    | Waiting(copy: Copy)

  /** Requests the journal may still decide, and those it accepted. */
  datatype Net = Net(loose: set<Copy>, landed: set<Copy>)

  /** How often a leading send asked, went early and came apart. */
  datatype Tally = Tally(asks: nat, early: nat, apart: nat)

  datatype Sys = Sys(
    j: Journal,
    seen: set<View>,
    net: Net,
    lanes: L.Lanes,
    tickets: map<nat, Entry>,
    minted: set<Uuid>,
    phases: map<nat, Phase>,
    verdicts: map<nat, W.Outcome>,
    tallies: map<nat, Tally>)

  datatype Event =
    | Decide(command: Command)
    | Deliver(copy: Copy)
    | Open(records: seq<Value>)
    | Start(id: nat)
    | Lead(id: nat, load: seq<nat>)
    | NoProposal(id: nat, outcome: W.Outcome)
    | Judge(id: nat)
    | Lose(id: nat)
    | ReadBack(id: nat, answer: S.ReadAnswer)
    | Resend(id: nat)
    | GiveUp(id: nat)
    | Fold(id: nat, mint: Uuid)
    | Resume(id: nat)
    | Drop(id: nat)
    | Collect(id: nat)
    | BeginClaim(anew: bool, mint: Uuid)
    | Claimed(uuid: Uuid, claim: W.Claim, mint: Uuid)
    | Observe(leader: Uuid, view: View, mint: Uuid)

  // ---- What a call is answered ----

  function OutcomeOf(e: Entry, o: Outcome): W.Outcome {
    match o
    case Accepted(at, count) => W.Written(at, count, false, false)
    case Duplicate(at, count) => W.Written(at, count, true, false)
    case Refused(view) => if view.leader == Some(e.leader) then W.Refused(view) else W.Superseded(view)
    case Truncated(view) => W.Truncated(view)
    case WrongMode(view) => W.WrongMode(view)
    case _ => W.Ambiguous
  }

  function Resolved(e: Entry, r: S.Resolution): W.Outcome {
    match r
    case Written(at, count) => W.Written(at, count, true, true)
    case NotWritten(view) => if view.leader == Some(e.leader) then W.NotWritten(view) else W.Superseded(view)
    case Gone(view) => W.Truncated(view)
    case Unresolved => W.Ambiguous
  }

  /** What the re-send's slot answers the settlement. */
  function Again(e: Entry, o: Outcome): S.WriteAnswer {
    match o
    case Accepted(at, count) => S.Landed(at, count)
    case Duplicate(at, count) => S.Landed(at, count)
    case Refused(view) => S.Refused(view)
    case Truncated(view) => S.Truncated(view)
    case WrongMode(view) => S.WrongMode(view)
    case _ => S.NoVerdict
  }

  /** What a re-send decided by `j` settles the write to, if anything. */
  function ResendOutcome(j: Journal, e: Entry): Option<W.Outcome> {
    var r := S.Resent(e, Again(e, Apply(Single, j, Write(e)).1));
    if r.Some? then Some(Resolved(e, r.value)) else None
  }

  /** Outcomes that say no node proposed the write. */
  predicate Unproposed(o: W.Outcome) {
    o.NotOwner? || o.Unavailable? || o.UnknownJournal? || o.TooLarge? || o.Denied? || o.Moved?
  }

  /** Outcomes that promise the write is not in the journal and never will be. */
  predicate Negative(o: W.Outcome) {
    Unproposed(o) || o.Superseded? || o.Refused? || o.WrongMode? || o.NotWritten?
  }

  // ---- The steps ----

  function Decided(s: Sys, c: Command): Sys {
    var j := Apply(Single, s.j, c).0;
    s.(j := j, seen := s.seen + {ViewOf(j.state)})
  }

  /** The journal decides the request `copy`. */
  function DecidedCopy(s: Sys, copy: Copy): Sys {
    var t := Decided(s, Write(copy.entry));
    if Apply(Single, s.j, Write(copy.entry)).1.Accepted?
    then t.(net := s.net.(landed := s.net.landed + {copy})) else t
  }

  /** The request of the asking call `id` is decided, and answered. */
  function Judged(s: Sys, id: nat): Sys
    requires id in s.phases
  {
    var copy := s.phases[id].copy;
    var o := OutcomeOf(copy.entry, Apply(Single, s.j, Write(copy.entry)).1);
    DecidedCopy(s, copy).(phases := s.phases[id := Answered(copy, o)])
  }

  /** A re-send of the settling call `id` is decided: it settles the call, or leaves it settling. */
  function Resettled(s: Sys, id: nat): Sys
    requires id in s.phases
  {
    var copy := s.phases[id].copy;
    var o := ResendOutcome(s.j, copy.entry);
    var t := DecidedCopy(s, copy);
    if o.Some? then t.(phases := s.phases[id := Answered(copy, o.value)]) else t
  }

  function CopyOf(l: L.Lanes, id: nat): Copy
    requires L.InHand(l, id)
  {
    Copy(L.SentEntry(l, id), L.Group(l, id))
  }

  /** The send `id` calls `write_entry`: refused at once unless the writer still leads its term. */
  function Ask(s: Sys, id: nat, tally: Tally): Sys
    requires L.InHand(s.lanes, id)
  {
    var copy := CopyOf(s.lanes, id);
    var w := s.lanes.writer;
    s.(phases := s.phases[id :=
         if w.Owner() == Some(copy.entry.leader) then Asking(copy, w.LedFrom(copy.entry))
         else Answered(copy, W.NotOwner)],
       tallies := s.tallies[id := tally])
  }

  /** Every write of `id`'s group gets its part of `o`. */
  function VerdictsOf(l: L.Lanes, id: nat, o: W.Outcome): map<nat, W.Outcome>
    requires L.InHand(l, id)
  {
    map m | m in L.Group(l, id) :: L.PartOf(o, l.flight[m].entry)
  }

  function Ended(s: Sys, id: nat, o: W.Outcome, l: L.Lanes): Sys
    requires L.InHand(s.lanes, id)
  {
    s.(lanes := l, phases := s.phases - {id}, verdicts := s.verdicts + VerdictsOf(s.lanes, id, o))
  }

  function Folded(s: Sys, id: nat, mint: Uuid): Sys
    requires L.InHand(s.lanes, id) && id in s.phases && s.phases[id].Answered? && id in s.tallies
    requires L.Fold(s.lanes, id, s.phases[id].outcome, mint).1.Apart? ==>
      L.InHand(L.Fold(s.lanes, id, s.phases[id].outcome, mint).0, id)
  {
    var p := s.phases[id];
    var (l, folded) := L.Fold(s.lanes, id, p.outcome, mint);
    var t := s.(minted := s.minted + {l.writer.mine});
    var tally := s.tallies[id];
    match folded
    case Done(_) => Ended(t, id, p.outcome, l)
    case Early =>
      t.(lanes := l, phases := s.phases[id := Waiting(p.copy)],
         tallies := s.tallies[id := tally.(early := tally.early + 1)])
    case Apart => Ask(t.(lanes := l), id, tally.(asks := tally.asks + 1, apart := tally.apart + 1))
  }

  function Resumed(s: Sys, id: nat): Sys
    requires L.InHand(s.lanes, id) && s.lanes.flight[id].early.Some? && id in s.tallies
    requires L.Resume(s.lanes, id).1.Send? ==> L.InHand(L.Resume(s.lanes, id).0, id)
  {
    var (l, resumed) := L.Resume(s.lanes, id);
    match resumed
    case Wait => s
    case Send(_) => Ask(s.(lanes := l), id, s.tallies[id].(asks := s.tallies[id].asks + 1))
    case Finished(_) => Ended(s, id, W.Refused(s.lanes.flight[id].early.value), l)
  }

  /** A dropped send leaves its request behind. */
  function Dropped(s: Sys, id: nat): Sys
    requires id in s.lanes.flight ==> L.InHand(s.lanes, id)
  {
    var l := L.Abandon(s.lanes, id);
    if id !in s.lanes.flight || s.lanes.flight[id].stage.Carried? then s.(lanes := l)
    else
      var t := Ended(s, id, W.Ambiguous, l);
      if id in s.phases && s.phases[id].Asking?
      then t.(net := s.net.(loose := s.net.loose + {s.phases[id].copy})) else t
  }

  /** `mint` names the writer's next term: no one used it. */
  ghost predicate Fresh(s: Sys, mint: Uuid) {
    mint != 0 && mint !in s.minted && mint !in s.j.led && L.Unspent(s.lanes, mint)
  }

  ghost predicate InPhase(s: Sys, id: nat) {
    id in s.phases && id in s.tallies && L.InHand(s.lanes, id)
  }

  ghost predicate Enabled(s: Sys, ev: Event) {
    match ev
    case Decide(c) => FreshStep(s.j, c) && (c.Write? ==> c.entry.leader !in s.minted)
    case Deliver(copy) => copy in s.net.loose
    case Open(_) => L.Admit(s.lanes).At?
    case Start(id) => id in s.lanes.flight && s.lanes.flight[id].stage == L.Opened
    case Lead(id, load) =>
      L.Greedy(s.lanes, id, load) && L.InHand(L.Lead(s.lanes, id, load), id)
    case NoProposal(id, o) => InPhase(s, id) && s.phases[id].Asking? && Unproposed(o) && !o.NotOwner?
    case Judge(id) => InPhase(s, id) && s.phases[id].Asking?
    case Lose(id) => InPhase(s, id) && s.phases[id].Asking?
    case ReadBack(id, back) =>
      && InPhase(s, id) && s.phases[id].Settling?
      && var e := s.phases[id].copy.entry;
      && S.HonestRead(s.j, e.at, Max(|e.records|, 1), back)
      && S.ReadBack(e, back, s.phases[id].ledFrom).Some?
    case Resend(id) => InPhase(s, id) && s.phases[id].Settling?
    case GiveUp(id) => InPhase(s, id) && s.phases[id].Settling?
    case Fold(id, mint) =>
      && InPhase(s, id) && s.phases[id].Answered? && Fresh(s, mint)
      && var (l, folded) := L.Fold(s.lanes, id, s.phases[id].outcome, mint);
      (folded.Apart? ==> L.InHand(l, id))
    case Resume(id) =>
      && InPhase(s, id) && s.lanes.flight[id].early.Some?
      && var (l, resumed) := L.Resume(s.lanes, id);
      (resumed.Send? ==> L.InHand(l, id))
    case Drop(id) => id in s.lanes.flight ==> L.InHand(s.lanes, id)
    case Collect(id) => id in s.lanes.done
    case BeginClaim(_, mint) => Fresh(s, mint)
    case Claimed(uuid, claim, mint) =>
      Fresh(s, mint) && (L.ClaimView(claim).Some? ==> L.ClaimView(claim).value in s.seen)
    case Observe(_, view, mint) => Fresh(s, mint) && view in s.seen
  }

  function Relaned(s: Sys, l: L.Lanes): Sys { s.(lanes := l, minted := s.minted + {l.writer.mine}) }

  function Next(s: Sys, ev: Event): Sys
    requires Enabled(s, ev)
  {
    match ev
    case Decide(c) => Decided(s, c)
    case Deliver(copy) => DecidedCopy(s, copy)
    case Open(records) =>
      s.(lanes := L.Open(s.lanes, records),
         tickets := s.tickets[s.lanes.nextId := L.OpenedEntry(s.lanes, records)])
    case Start(id) => s.(lanes := L.Start(s.lanes, id))
    case Lead(id, load) => Ask(s.(lanes := L.Lead(s.lanes, id, load)), id, Tally(1, 0, 0))
    case NoProposal(id, o) => s.(phases := s.phases[id := Answered(s.phases[id].copy, o)])
    case Judge(id) => Judged(s, id)
    case Lose(id) =>
      var p := s.phases[id];
      s.(net := s.net.(loose := s.net.loose + {p.copy}), phases := s.phases[id := Settling(p.copy, p.ledFrom)])
    case ReadBack(id, back) =>
      var p := s.phases[id];
      var o := Resolved(p.copy.entry, S.ReadBack(p.copy.entry, back, p.ledFrom).value);
      s.(phases := s.phases[id := Answered(p.copy, o)])
    case Resend(id) => Resettled(s, id)
    case GiveUp(id) => s.(phases := s.phases[id := Answered(s.phases[id].copy, W.Ambiguous)])
    case Fold(id, mint) => Folded(s, id, mint)
    case Resume(id) => Resumed(s, id)
    case Drop(id) => Dropped(s, id)
    case Collect(id) => s.(lanes := s.lanes.(done := s.lanes.done - {id}))
    case BeginClaim(anew, mint) => Relaned(s, L.BeginClaim(s.lanes, anew, mint))
    case Claimed(uuid, claim, mint) => Relaned(s, L.Claimed(s.lanes, uuid, claim, mint))
    case Observe(leader, view, mint) => Relaned(s, L.Observe(s.lanes, leader, view, mint))
  }

  /**
    A writer a pipeline may be built around, leading or not: what it believes is true of
    the journal, and no write was opened or is held under its uuid.
    */
  ghost predicate Starts(j: Journal, w: W.Writer) {
    && w.mine != 0 && w.openedTo == 0 && w.shared == None && (forall e :: e in j.held ==> e.leader != w.mine)
    && w.nextSeq <= j.state.nextSeq && (w.leads ==> w.mine in j.led)
    && (w.ledFrom.Some? ==> LedSince(j, w.mine, w.ledFrom.value))
  }

  /** A new pipeline over any journal. */
  ghost predicate Init(s: Sys) {
    && Valid(s.j) && (forall e :: e in s.j.held ==> e.leader in s.j.led)
    && exists w: W.Writer | Starts(s.j, w) ::
      s == Sys(s.j, {ViewOf(s.j.state)}, Net({}, {}), L.New(w), map[], {w.mine}, map[], map[], map[])
  }

  ghost predicate Run(s: Sys, events: seq<Event>)
    decreases |events|
  {
    events == [] || (Enabled(s, events[0]) && Run(Next(s, events[0]), events[1..]))
  }

  ghost function Reached(s: Sys, events: seq<Event>): Sys
    requires Run(s, events)
    decreases |events|
  {
    if events == [] then s else Reached(Next(s, events[0]), events[1..])
  }
}
