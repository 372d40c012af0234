/** What holds in every state of every run, and what a verdict promises for ever. */
module RunsTheorems {
  import opened Common
  import opened Journal
  import opened Runs
  import opened RunsInvariant
  import opened RunsLanes
  import opened RunsFold
  import W = Writer
  import L = Lanes

  /** The steps of the journal and of the calls. */
  lemma CallsKeep(s: Sys, ev: Event)
    requires Inv(s) && Enabled(s, ev)
    requires ev.Decide? || ev.Deliver? || ev.NoProposal? || ev.Judge? || ev.Lose? || ev.ReadBack? || ev.Resend?
             || ev.GiveUp?
    ensures Inv(Next(s, ev))
  {
    match ev
    case Decide(c) => DecideKeeps(s, c);
    case Deliver(copy) => DeliverKeeps(s, copy);
    case NoProposal(id, o) => NoProposalKeeps(s, id, o);
    case Judge(id) => JudgeKeeps(s, id);
    case Lose(id) => LoseKeeps(s, id);
    case ReadBack(id, back) => ReadBackKeeps(s, id, back);
    case Resend(id) => ResendKeeps(s, id);
    case GiveUp(id) => GiveUpKeeps(s, id);
  }

  /** The steps that open, start and drop sends, and those of claims. */
  lemma LanesKeep(s: Sys, ev: Event)
    requires Inv(s) && Enabled(s, ev)
    requires ev.Open? || ev.Start? || ev.Collect? || ev.BeginClaim? || ev.Claimed? || ev.Observe?
    ensures Inv(Next(s, ev))
  {
    match ev
    case Open(records) => OpenKeeps(s, records);
    case Start(id) => StartKeeps(s, id);
    case Collect(id) => CollectKeeps(s, id);
    case BeginClaim(anew, mint) => BeginClaimKeeps(s, anew, mint);
    case Claimed(uuid, claim, mint) => ClaimedKeeps(s, uuid, claim, mint);
    case Observe(leader, view, mint) => ObserveKeeps(s, leader, view, mint);
  }

  lemma NextKeeps(s: Sys, ev: Event)
    requires Inv(s) && Enabled(s, ev)
    ensures Inv(Next(s, ev))
  {
    if ev.Lead? {
      LeadKeeps(s, ev.id, ev.load);
    } else if ev.Fold? {
      FoldKeeps(s, ev.id, ev.mint);
    } else if ev.Resume? {
      ResumeKeeps(s, ev.id);
    } else if ev.Drop? {
      DropKeeps(s, ev.id);
    } else if ev.Open? || ev.Start? || ev.Collect? || ev.BeginClaim? || ev.Claimed? || ev.Observe? {
      LanesKeep(s, ev);
    } else {
      CallsKeep(s, ev);
    }
  }

  lemma {:induction false} RunKeepsInv(s: Sys, events: seq<Event>)
    requires Inv(s) && Run(s, events)
    ensures Inv(Reached(s, events))
    decreases |events|
  {
    if events != [] {
      NextKeeps(s, events[0]);
      RunKeepsInv(Next(s, events[0]), events[1..]);
    }
  }

  // ---- One verdict a ticket ----

  ghost predicate KeepsVerdicts(s: Sys, t: Sys) {
    && (forall k :: k in s.verdicts ==> k in t.verdicts && t.verdicts[k] == s.verdicts[k])
    && (forall k :: k in s.tickets ==> k in t.tickets && t.tickets[k] == s.tickets[k])
    && s.minted <= t.minted && s.j.held <= t.j.held
  }

  lemma EndedKeeps(s: Sys, id: nat, o: W.Outcome, l: L.Lanes)
    requires Inv(s) && L.InHand(s.lanes, id)
    ensures KeepsVerdicts(s, Ended(s, id, o, l))
  {
  }

  /** A slot of the journal keeps what was held and every verdict. */
  lemma SlotKeepsVerdicts(s: Sys, c: Command, t: Sys)
    requires Valid(s.j) && t.j == Apply(Single, s.j, c).0
    requires t.verdicts == s.verdicts && t.tickets == s.tickets && t.minted == s.minted
    ensures KeepsVerdicts(s, t)
  {
    ApplyMoves(Single, s.j, c);
  }

  lemma DropKeepsVerdicts(s: Sys, id: nat)
    requires Inv(s) && Enabled(s, Event.Drop(id))
    ensures KeepsVerdicts(s, Dropped(s, id))
  {
    if id in s.lanes.flight && !s.lanes.flight[id].stage.Carried? {
      EndedKeeps(s, id, W.Ambiguous, L.Abandon(s.lanes, id));
    }
  }

  lemma OpenKeepsVerdicts(s: Sys, records: seq<Value>)
    requires Inv(s) && Enabled(s, Event.Open(records))
    ensures KeepsVerdicts(s, Next(s, Event.Open(records)))
  {
    OpenCopies(s, records);
  }

  /** Steps that give no verdict, open no ticket and leave the journal alone. */
  lemma QuietKeepsVerdicts(s: Sys, ev: Event)
    requires Enabled(s, ev)
    requires !(ev.Decide? || ev.Deliver? || ev.Judge? || ev.Resend? || ev.Fold? || ev.Resume? || ev.Drop? || ev.Open?)
    ensures KeepsVerdicts(s, Next(s, ev))
  {
  }

  lemma DecideKeepsVerdicts(s: Sys, ev: Event)
    requires Valid(s.j) && Enabled(s, ev) && (ev.Decide? || ev.Deliver?)
    ensures KeepsVerdicts(s, Next(s, ev))
  {
    SlotKeepsVerdicts(s, if ev.Decide? then ev.command else Write(ev.copy.entry), Next(s, ev));
  }

  lemma SlotsKeepVerdicts(s: Sys, ev: Event)
    requires Valid(s.j) && Enabled(s, ev) && (ev.Judge? || ev.Resend?)
    ensures KeepsVerdicts(s, Next(s, ev))
  {
    SlotKeepsVerdicts(s, Write(s.phases[ev.id].copy.entry), Next(s, ev));
  }

  lemma NextKeepsVerdicts(s: Sys, ev: Event)
    requires Inv(s) && Enabled(s, ev)
    ensures KeepsVerdicts(s, Next(s, ev))
  {
    if ev.Decide? || ev.Deliver? {
      DecideKeepsVerdicts(s, ev);
    } else if ev.Judge? || ev.Resend? {
      SlotsKeepVerdicts(s, ev);
    } else if ev.Fold? {
      FoldKeepsVerdicts(s, ev.id, ev.mint);
    } else if ev.Resume? {
      ResumeKeepsVerdicts(s, ev.id);
    } else if ev.Drop? {
      DropKeepsVerdicts(s, ev.id);
    } else if ev.Open? {
      OpenKeepsVerdicts(s, ev.records);
    } else {
      QuietKeepsVerdicts(s, ev);
    }
  }

  lemma FoldKeepsVerdicts(s: Sys, id: nat, mint: Uuid)
    requires Inv(s) && Folding(s, id)
    requires L.Fold(s.lanes, id, s.phases[id].outcome, mint).1.Apart? ==>
      L.InHand(L.Fold(s.lanes, id, s.phases[id].outcome, mint).0, id)
    ensures KeepsVerdicts(s, Folded(s, id, mint))
  {
    EndedKeeps(s, id, s.phases[id].outcome, L.Fold(s.lanes, id, s.phases[id].outcome, mint).0);
  }

  lemma ResumeKeepsVerdicts(s: Sys, id: nat)
    requires Inv(s) && Enabled(s, Event.Resume(id))
    ensures KeepsVerdicts(s, Resumed(s, id))
  {
    EndedKeeps(s, id, W.Refused(s.lanes.flight[id].early.value), L.Resume(s.lanes, id).0);
  }

  /** A verdict, once given, is the ticket's only one. */
  lemma {:induction false} OneVerdict(s: Sys, events: seq<Event>)
    requires Inv(s) && Run(s, events)
    ensures KeepsVerdicts(s, Reached(s, events))
    decreases |events|
  {
    if events != [] {
      NextKeeps(s, events[0]);
      NextKeepsVerdicts(s, events[0]);
      OneVerdict(Next(s, events[0]), events[1..]);
    }
  }

  // ---- What a verdict promises ----

  lemma HoldsContent(j: Journal, e: Entry)
    requires Valid(j) && Holds(j, e)
    ensures e.End() <= |Content(j.held)| && Content(j.held)[e.at..e.End()] == e.records
  {
    var b :| b in j.held && L.Slice(b, e);
    var i :| 0 <= i < |j.held| && j.held[i] == b;
    ContentOfBatch(j.held, j.state.nextSeq, i);
    var c := Content(j.held);
    assert c[e.at..e.End()] == c[b.at..b.End()][e.at - b.at..e.End() - b.at];
  }

  /** Every reachable state keeps the invariant. */
  lemma Reachable(s: Sys, events: seq<Event>)
    requires Init(s) && Run(s, events)
    ensures Inv(Reached(s, events))
  {
    InitInv(s);
    RunKeepsInv(s, events);
  }

  /**
    A ticket answered `Written` has exactly its own records at exactly its own
    range, there and in every later state.
    */
  lemma WrittenIsThere(s: Sys, events: seq<Event>, more: seq<Event>, k: nat)
    requires Init(s) && Run(s, events) && Run(Reached(s, events), more)
    requires var t := Reached(s, events); k in t.verdicts && t.verdicts[k].Written?
    ensures var t := Reached(s, events); var u := Reached(t, more);
      && k in t.tickets && k in u.verdicts && u.verdicts[k] == t.verdicts[k]
      && var e := t.tickets[k];
      && t.verdicts[k].at == e.at && t.verdicts[k].count == |e.records|
      && e.End() <= |Content(u.j.held)| && Content(u.j.held)[e.at..e.End()] == e.records
  {
    var t := Reached(s, events);
    Reachable(s, events);
    RunKeepsInv(t, more);
    OneVerdict(t, more);
    var u := Reached(t, more);
    assert VerdictOk(u.j, u.net, u.tickets[k], k, u.verdicts[k]);
    HoldsContent(u.j, u.tickets[k]);
  }

  /**
    A ticket answered that its write is not in the journal never is: every batch
    the journal ever holds under a uuid of this pipeline came from a request, and
    none of those requests carried the ticket.
    */
  lemma NegativeNeverLands(s: Sys, events: seq<Event>, more: seq<Event>, k: nat)
    requires Init(s) && Run(s, events) && Run(Reached(s, events), more)
    requires var t := Reached(s, events); k in t.verdicts && Negative(t.verdicts[k])
    ensures var u := Reached(Reached(s, events), more);
      && (forall e :: e in u.j.held && e.leader in u.minted ==> Landed(u.net, e))
      && (forall c :: c in u.net.landed ==> k !in c.ids && c.entry in u.j.held)
  {
    var t := Reached(s, events);
    Reachable(s, events);
    RunKeepsInv(t, more);
    OneVerdict(t, more);
    var u := Reached(t, more);
    assert VerdictOk(u.j, u.net, u.tickets[k], k, u.verdicts[k]);
  }

  /** A ticket's records land at most once: the batches that carry it are one batch. */
  lemma LandsOnce(s: Sys, events: seq<Event>, k: nat, a: Copy, b: Copy)
    requires Init(s) && Run(s, events)
    requires var t := Reached(s, events); a in t.net.landed && b in t.net.landed && k in a.ids && k in b.ids
    ensures var t := Reached(s, events);
      a == b && k in t.tickets && L.Slice(a.entry, t.tickets[k]) && a.entry in t.j.held
  {
    Reachable(s, events);
    var t := Reached(s, events);
    assert CopyOk(t.tickets, a);
    assert InOne(t.net, k);
  }

  /**
    No hole: while the pipeline leads and no write failed, every position from the
    real tail to the next one it gives is a write in flight under its uuid; and the
    tail it knows never passes the real one.
    */
  lemma NoHoleEver(s: Sys, events: seq<Event>, p: nat)
    requires Init(s) && Run(s, events)
    ensures var t := Reached(s, events); var l := t.lanes;
      && l.writer.nextSeq <= t.j.state.nextSeq
      && (l.writer.leads && !l.broken && t.j.state.nextSeq <= p < l.ahead ==>
            exists k :: k in l.flight && l.flight[k].entry.leader == l.writer.mine && l.flight[k].entry.Covers(p))
  {
    Reachable(s, events);
    var t := Reached(s, events);
    if t.lanes.writer.leads && !t.lanes.broken && t.j.state.nextSeq <= p < t.lanes.ahead {
      assert Filled(t.lanes.flight, t.lanes.writer.mine, p);
    }
  }

  /** A leading send goes early once, comes apart once, and asks three times at most. */
  lemma ThreeAsks(s: Sys, events: seq<Event>, k: nat)
    requires Init(s) && Run(s, events) && k in Reached(s, events).phases
    ensures var t := Reached(s, events);
      && k in t.tallies && t.tallies[k].early <= 1 && t.tallies[k].apart <= 1
      && 1 <= t.tallies[k].asks <= 3
  {
    Reachable(s, events);
    CallOf(Reached(s, events), k);
  }

  /** The call of a leading send: its write is in hand, and what the send does with its answer is allowed. */
  lemma CallIsAllowed(t: Sys, k: nat)
    requires Inv(t) && k in t.phases
    ensures var p := t.phases[k];
      && L.Inv(t.lanes) && L.InHand(t.lanes, k) && t.lanes.flight[k].stage == L.Sending
      && (p.Answered? ==> L.Answering(t.lanes, k, p.outcome))
      && (p.Waiting? ==> t.lanes.flight[k].early.Some?)
      && (p.Waiting? && L.Resume(t.lanes, k).1.Send? ==> L.Resume(t.lanes, k).1.entry == p.copy.entry)
  {
    CallOf(t, k);
    assert PhaseMatch(t.lanes, k, t.phases[k]);
  }

  // ---- Progress ----

  lemma {:induction false} GreedyFrom(l: L.Lanes, id: nat, c: seq<nat>) returns (load: seq<nat>)
    requires L.Joinable(l, id, c)
    requires c != [] ==>
      |L.Load(l.flight, id, c)| <= L.MERGE_RECORDS && L.Bytes(L.Load(l.flight, id, c)) <= L.MERGE_BYTES
    ensures L.Greedy(l, id, load)
    decreases
      if |L.Load(l.flight, id, c)| <= L.MERGE_RECORDS then L.MERGE_RECORDS + 1 - |L.Load(l.flight, id, c)| else 0
  {
    var f := l.flight;
    var end := L.ChainEnd(f, f[id].entry.End(), c);
    var leader := f[id].entry.leader;
    var open := !f[id].alone && f[id].entry.records != [];
    if m :| m in f && open && L.Follows(f[m], leader, end, |L.Load(f, id, c)|, L.Bytes(L.Load(f, id, c))) {
      L.JoinGrows(l, id, c, m);
      load := GreedyFrom(l, id, c + [m]);
    } else {
      load := c;
    }
  }

  /** The step moves its write on: it is not a wait. */
  ghost predicate Advances(s: Sys, ev: Event) {
    || ev.Start? || ev.Lead? || ev.Judge? || ev.GiveUp? || ev.Fold?
    || (ev.Resume? && L.InHand(s.lanes, ev.id)
        && s.lanes.flight[ev.id].early.Some? && !L.Resume(s.lanes, ev.id).1.Wait?)
  }

  /** No state with a write in flight is stuck: some write can always move on. */
  lemma SomeWriteMoves(s: Sys, some: nat, mint: Uuid) returns (ev: Event)
    requires Inv(s) && some in s.lanes.flight && Fresh(s, mint)
    ensures Enabled(s, ev) && Advances(s, ev)
  {
    var id := L.SomeoneMoves(s.lanes, some);
    assert L.Good(s.lanes, id);
    L.InHandOf(s.lanes, id);
    match s.lanes.flight[id].stage
    case Opened => ev := Event.Start(id);
    case Ready => ev := ReadyMoves(s, id);
    case Carried(lead) =>
      assert L.WaitsFor(s.lanes.flight, id, lead);
      assert false;
    case Sending => ev := SendingMoves(s, id, mint);
  }

  lemma ReadyMoves(s: Sys, id: nat) returns (ev: Event)
    requires Inv(s) && id in s.lanes.flight && s.lanes.flight[id].stage == L.Ready
    ensures ev.Lead? && ev.id == id && Enabled(s, ev) && Advances(s, ev)
  {
    assert L.Good(s.lanes, id);
    var load := GreedyFrom(s.lanes, id, []);
    L.LeadSends(s.lanes, id, load);
    ev := Event.Lead(id, load);
  }

  lemma SendingMoves(s: Sys, id: nat, mint: Uuid) returns (ev: Event)
    requires Inv(s) && id in s.lanes.flight && s.lanes.flight[id].stage == L.Sending && Fresh(s, mint)
    requires forall b :: !L.WaitsFor(s.lanes.flight, id, b)
    ensures Enabled(s, ev) && Advances(s, ev)
  {
    CallOf(s, id);
    assert PhaseMatch(s.lanes, id, s.phases[id]);
    match s.phases[id]
    case Asking(_, _) => ev := Event.Judge(id);
    case Settling(_, _) => ev := Event.GiveUp(id);
    case Answered(_, _) => ev := Event.Fold(id, mint); FoldEnabled(s, id, mint);
    case Waiting(_) => ev := Event.Resume(id); ResumeAdvances(s, id);
  }

  lemma ApartInHand(l: L.Lanes, id: nat, o: W.Outcome, mint: Uuid)
    requires L.InHand(l, id) && L.Fold(l, id, o, mint).1.Apart?
    ensures L.InHand(L.Fold(l, id, o, mint).0, id)
  {
  }

  lemma FoldEnabled(s: Sys, id: nat, mint: Uuid)
    requires Inv(s) && InPhase(s, id) && s.phases[id].Answered? && Fresh(s, mint)
    ensures Enabled(s, Event.Fold(id, mint))
  {
    if L.Fold(s.lanes, id, s.phases[id].outcome, mint).1.Apart? {
      ApartInHand(s.lanes, id, s.phases[id].outcome, mint);
    }
  }

  lemma ResumeAdvances(s: Sys, id: nat)
    requires Inv(s) && InPhase(s, id) && s.lanes.flight[id].early.Some?
    requires forall b :: !L.WaitsFor(s.lanes.flight, id, b)
    ensures Enabled(s, Event.Resume(id)) && Advances(s, Event.Resume(id))
  {
    var f := s.lanes.flight;
    forall k | k in f
      ensures !(f[k].entry.leader == f[id].entry.leader && f[k].entry.at < f[id].entry.at)
    {
      assert !L.WaitsFor(f, id, k);
    }
  }

  // ---- What a send that waited gets ----

  /** The send `id` waits early, and its turn has come: nothing is in flight below it, and the tail is at its write. */
  ghost predicate TurnCame(s: Sys, id: nat) {
    && id in s.phases && s.phases[id].Waiting? && id in s.lanes.flight
    && var e := s.lanes.flight[id].entry;
    && e.records != [] && s.lanes.writer.Owner() == Some(e.leader) && s.j.state.leader == Some(e.leader)
    && s.lanes.writer.nextSeq == s.j.state.nextSeq == e.at
    && (forall k :: k in s.lanes.flight ==>
          !(s.lanes.flight[k].entry.leader == e.leader && s.lanes.flight[k].entry.at < e.at))
  }

  /** It is then asked again, unchanged. */
  lemma TurnAsks(s: Sys, id: nat)
    requires Inv(s) && TurnCame(s, id)
    ensures Enabled(s, Event.Resume(id))
    ensures var t := Next(s, Event.Resume(id));
      && Inv(t) && t.j == s.j && InPhase(t, id) && t.phases[id].Asking? && t.phases[id].copy == s.phases[id].copy
  {
    CallOf(s, id);
    assert PhaseMatch(s.lanes, id, s.phases[id]);
    L.ResumeGives(s.lanes, id);
    ResumeKeeps(s, id);
  }

  /** A request at the tail under the leader in force is accepted, and its call answered so. */
  lemma JudgeAccepts(s: Sys, id: nat)
    requires Valid(s.j) && InPhase(s, id) && s.phases[id].Asking?
    requires var e := s.phases[id].copy.entry;
      e.records != [] && e.leader != 0 && s.j.state.leader == Some(e.leader) && s.j.state.nextSeq == e.at
    ensures Enabled(s, Event.Judge(id))
    ensures var e := s.phases[id].copy.entry; var u := Next(s, Event.Judge(id));
      && u.phases[id] == Answered(s.phases[id].copy, W.Written(e.at, |e.records|, false, false))
      && u.j.held == s.j.held + [e]
  {
  }

  /**
    In any run, once the turn of a waiting send has come, resuming it and one slot of the
    journal write it, with all it carries, at its own range.
    */
  lemma TurnWrites(s: Sys, id: nat)
    requires Inv(s) && TurnCame(s, id)
    ensures Enabled(s, Event.Resume(id)) && Enabled(Next(s, Event.Resume(id)), Event.Judge(id))
    ensures var u := Next(Next(s, Event.Resume(id)), Event.Judge(id)); var e := s.phases[id].copy.entry;
      && e.at == s.lanes.flight[id].entry.at && s.lanes.flight[id].entry.records <= e.records
      && id in u.phases && u.phases[id] == Answered(s.phases[id].copy, W.Written(e.at, |e.records|, false, false))
      && u.j.held == s.j.held + [e]
  {
    TurnAsks(s, id);
    CallOf(s, id);
    assert PhaseMatch(s.lanes, id, s.phases[id]);
    JudgeAccepts(Next(s, Event.Resume(id)), id);
  }

  // ---- What an answer says of the slot that gave it ----

  /** `w` tells of the request `e`, decided by `j`: written or not, and why not. */
  ghost predicate Tells(j: Journal, e: Entry, w: W.Outcome, resolved: bool) {
    var held := e in Apply(Single, j, Write(e)).0.held;
    var gone := e.at < j.state.firstSeq;
    var leads := j.state.leader == Some(e.leader);
    && (w.Written? <==> held && !gone)
    && (w.Written? ==> w == W.Written(e.at, |e.records|, resolved || e in j.held, resolved))
    && (w.Truncated? <==> gone)
    && (w.Superseded? <==> !gone && !held && !leads)
    && (!gone && !held && leads ==>
          if !resolved then w.Refused? else if j.state.nextSeq > e.at then w.NotWritten? else w == W.Ambiguous)
    && (L.ViewIn(w).Some? ==> L.ViewIn(w).value == ViewOf(j.state))
  }

  lemma WriteHeld(j: Journal, e: Entry)
    requires Valid(j) && e.leader != 0
    ensures var (j', o) := Apply(Single, j, Write(e));
      && (o.Truncated? <==> e.at < j.state.firstSeq)
      && (o.Accepted? || o.Duplicate? <==> e in j'.held && !o.Truncated?)
      && (o.Accepted? ==> e !in j.held && o.at == e.at && o.count == |e.records|)
      && (o.Duplicate? ==> e in j.held && o.at == e.at && o.count == |e.records|)
  {
    AcceptedAtIsHeld(j.held, j.state.nextSeq, e);
    if j.state.nextSeq <= e.at {
      S.NotHeldPastTail(j, e);
    }
  }

  /** The answer to a request says what its slot decided: no loss, no refusal is told for another. */
  lemma JudgeTells(s: Sys, id: nat)
    requires Valid(s.j) && InPhase(s, id) && s.phases[id].Asking? && s.phases[id].copy.entry.leader != 0
    ensures var e := s.phases[id].copy.entry; var u := Next(s, Event.Judge(id));
      u.phases[id].Answered? && u.phases[id].copy == s.phases[id].copy && Tells(s.j, e, u.phases[id].outcome, false)
  {
    WriteHeld(s.j, s.phases[id].copy.entry);
  }

  /** A re-send always settles its call, and says what its slot decided. */
  lemma ResendTells(s: Sys, id: nat)
    requires Valid(s.j) && InPhase(s, id) && s.phases[id].Settling? && s.phases[id].copy.entry.leader != 0
    ensures var e := s.phases[id].copy.entry; var u := Next(s, Event.Resend(id));
      u.phases[id].Answered? && u.phases[id].copy == s.phases[id].copy && Tells(s.j, e, u.phases[id].outcome, true)
  {
    WriteHeld(s.j, s.phases[id].copy.entry);
  }

  /** A read-back that settles its call says it is written, that another leads, or that the floor passed it. */
  lemma ReadBackTells(s: Sys, id: nat, back: S.ReadAnswer)
    requires Enabled(s, Event.ReadBack(id, back))
    ensures var e := s.phases[id].copy.entry; var o := Next(s, Event.ReadBack(id, back)).phases[id].outcome;
      var v := ViewOf(s.j.state);
      && (o == W.Truncated(v) <==> v.firstSeq > e.at)
      && (o == W.Superseded(v) <==> v.firstSeq <= e.at && v.nextSeq <= e.at && v.leader != Some(e.leader))
      && (o != W.Truncated(v) && o != W.Superseded(v) ==> o == W.Written(e.at, |e.records|, true, true))
  {
  }
}
