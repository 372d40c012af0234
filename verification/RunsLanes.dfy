/** The steps that move the pipeline's own state keep every invariant of a run. */
module RunsLanes {
  import opened Common
  import opened Journal
  import opened Runs
  import opened RunsInvariant
  import W = Writer
  import L = Lanes

  // ---- The writer learns ----

  /** The writer after it heard `view` under `leader` still believes only what is true. */
  lemma ObserveOk(j: Journal, l: L.Lanes, tickets: map<nat, Entry>, leader: Uuid, view: View, mint: Uuid)
    requires WriterOk(j, l.writer) && WasView(j, view) && W.Tracks(l.writer, tickets)
    requires NoHole(j.state.nextSeq, l)
    requires forall k :: k in tickets ==> tickets[k].leader != mint
    ensures var m := L.Observe(l, leader, view, mint);
      && WriterOk(j, m.writer) && W.Tracks(m.writer, tickets) && NoHole(j.state.nextSeq, m)
  {
    var m := L.Observe(l, leader, view, mint);
    assert m.flight == l.flight;
    forall p: nat | m.writer.leads && !m.broken && j.state.nextSeq <= p < m.ahead
      ensures Filled(m.flight, m.writer.mine, p)
    {
      assert Filled(l.flight, l.writer.mine, p);
    }
  }

  lemma ClaimedOk(j: Journal, l: L.Lanes, tickets: map<nat, Entry>, uuid: Uuid, claim: W.Claim, mint: Uuid)
    requires WriterOk(j, l.writer) && W.Tracks(l.writer, tickets) && NoHole(j.state.nextSeq, l)
    requires L.ClaimView(claim).Some? ==> WasView(j, L.ClaimView(claim).value)
    requires forall k :: k in tickets ==> tickets[k].leader != mint
    ensures var m := L.Claimed(l, uuid, claim, mint);
      && WriterOk(j, m.writer) && W.Tracks(m.writer, tickets) && NoHole(j.state.nextSeq, m)
      && m.flight == l.flight && m.done == l.done && m.nextId == l.nextId
      && (m.writer.mine == l.writer.mine || m.writer.mine == mint)
  {
    if l.writer.mine == uuid && l.writer.Owner() == Some(uuid) && L.ClaimView(claim).Some? {
      ObserveOk(j, l, tickets, uuid, L.ClaimView(claim).value, mint);
    }
  }

  /** A change of the writer alone. */
  lemma RelanedKeeps(s: Sys, l: L.Lanes, mint: Uuid)
    requires Inv(s) && Fresh(s, mint) && l.writer.mine in s.minted + {mint}
    requires l.flight == s.lanes.flight && l.done == s.lanes.done && l.nextId == s.lanes.nextId
    requires L.Inv(l) && WriterOk(s.j, l.writer) && W.Tracks(l.writer, s.tickets)
    requires NoHole(s.j.state.nextSeq, l)
    ensures Inv(Relaned(s, l))
  {
    var t := Relaned(s, l);
    forall k | k in s.tickets
      ensures TicketOk(t.j, t.minted, t.tickets[k])
    {
      assert TicketOk(s.j, s.minted, s.tickets[k]);
    }
    forall k | k in s.phases
      ensures PhaseMatch(l, k, s.phases[k])
    {
      assert PhaseMatch(s.lanes, k, s.phases[k]);
    }
    TalliesFrame(s.j.state.nextSeq, s.lanes, l, s.phases, s.tallies);
  }

  lemma TalliesFrame(tail: nat, l: L.Lanes, m: L.Lanes, phases: map<nat, Phase>, tallies: map<nat, Tally>)
    requires TalliesOk(tail, l, phases, tallies)
    requires forall k {:trigger m.flight[k]} ::
      k in m.flight && k in phases ==> k in l.flight && (l.flight[k].alone ==> m.flight[k].alone)
    ensures TalliesOk(tail, m, phases, tallies)
  {
    forall k | k in phases && k in m.flight
      ensures TallyOk(tail, m, k, phases[k], tallies[k])
    {
      assert m.flight[k].alone || !m.flight[k].alone;
      assert TallyOk(tail, l, k, phases[k], tallies[k]);
    }
  }

  lemma NoTicketUnder(s: Sys, mint: Uuid)
    requires Inv(s) && Fresh(s, mint)
    ensures forall k :: k in s.tickets ==> s.tickets[k].leader != mint
  {
    forall k | k in s.tickets
      ensures s.tickets[k].leader != mint
    {
      assert TicketOk(s.j, s.minted, s.tickets[k]);
    }
  }

  lemma ObserveHolds(s: Sys, leader: Uuid, view: View, mint: Uuid)
    requires Inv(s) && Fresh(s, mint) && view in s.seen
    ensures L.Inv(L.Observe(s.lanes, leader, view, mint))
    ensures var m := L.Observe(s.lanes, leader, view, mint);
      && WriterOk(s.j, m.writer) && W.Tracks(m.writer, s.tickets) && NoHole(s.j.state.nextSeq, m)
      && m.flight == s.lanes.flight && m.done == s.lanes.done && m.nextId == s.lanes.nextId
      && m.writer.mine in s.minted + {mint}
  {
    assert WasView(s.j, view);
    NoTicketUnder(s, mint);
    L.ObserveKeeps(s.lanes, leader, view, mint);
    ObserveOk(s.j, s.lanes, s.tickets, leader, view, mint);
  }

  lemma ObserveKeeps(s: Sys, leader: Uuid, view: View, mint: Uuid)
    requires Inv(s) && Enabled(s, Event.Observe(leader, view, mint))
    ensures Inv(Next(s, Event.Observe(leader, view, mint)))
  {
    ObserveHolds(s, leader, view, mint);
    RelanedKeeps(s, L.Observe(s.lanes, leader, view, mint), mint);
  }

  lemma ClaimedKeeps(s: Sys, uuid: Uuid, claim: W.Claim, mint: Uuid)
    requires Inv(s) && Enabled(s, Event.Claimed(uuid, claim, mint))
    ensures Inv(Next(s, Event.Claimed(uuid, claim, mint)))
  {
    if L.ClaimView(claim).Some? {
      assert WasView(s.j, L.ClaimView(claim).value);
    }
    NoTicketUnder(s, mint);
    var m := L.Claimed(s.lanes, uuid, claim, mint);
    assert L.Inv(m) by {
      L.ClaimedKeeps(s.lanes, uuid, claim, mint);
    }
    ClaimedOk(s.j, s.lanes, s.tickets, uuid, claim, mint);
    RelanedKeeps(s, m, mint);
  }

  lemma BeginClaimKeeps(s: Sys, anew: bool, mint: Uuid)
    requires Inv(s) && Enabled(s, Event.BeginClaim(anew, mint))
    ensures Inv(Next(s, Event.BeginClaim(anew, mint)))
  {
    NoTicketUnder(s, mint);
    L.BeginClaimKeeps(s.lanes, anew, mint);
    RelanedKeeps(s, L.BeginClaim(s.lanes, anew, mint), mint);
  }

  // ---- A write opens ----

  /** Every write of a call's group ends at or below the next position, under the writer's uuid. */
  lemma CopyBelow(l: L.Lanes, tickets: map<nat, Entry>, id: nat)
    requires L.Inv(l) && Known(l, tickets) && id in l.flight && l.flight[id].entry.leader == l.writer.mine
    ensures L.InHand(l, id) && CopyOf(l, id).entry.End() <= l.ahead
  {
    L.InHandOf(l, id);
    var w := l.flight[id];
    assert L.Good(l, id);
    L.GatherTiles(l.flight, w.entry.leader, w.entry.End(), w.carries, L.ChainEnd(l.flight, w.entry.End(), w.carries));
    if w.carries != [] {
      var last := w.carries[|w.carries| - 1];
      assert last in w.carries;
      L.ChainLeader(l.flight, w.entry.leader, w.entry.End(), w.carries,
        L.ChainEnd(l.flight, w.entry.End(), w.carries), last);
      assert L.Good(l, last);
    }
  }

  lemma CopyFrame(l: L.Lanes, m: L.Lanes, k: nat)
    requires L.InHand(l, k) && k in m.flight
    requires m.flight[k].entry == l.flight[k].entry && m.flight[k].carries == l.flight[k].carries
    requires forall i :: i in l.flight[k].carries ==> i in m.flight && m.flight[i].entry == l.flight[i].entry
    ensures L.InHand(m, k) && CopyOf(m, k) == CopyOf(l, k)
  {
    L.GatherFrame(l.flight, m.flight, l.flight[k].carries);
  }

  lemma OpenCopies(s: Sys, records: seq<Value>)
    requires Inv(s) && Enabled(s, Event.Open(records))
    ensures var t := Next(s, Event.Open(records));
      && TicketsOk(t.j, t.minted, t.tickets) && NetOk(t.j, t.minted, t.net, t.tickets)
      && VerdictsOk(t.j, t.net, t.tickets, t.verdicts)
      && s.lanes.nextId !in s.tickets && Untouched(s.net, s.lanes.nextId)
  {
    var t := Next(s, Event.Open(records));
    forall k | k in t.tickets
      ensures TicketOk(t.j, t.minted, t.tickets[k])
    {
      if k in s.tickets {
        assert TicketOk(s.j, s.minted, s.tickets[k]);
      }
    }
    forall c | c in s.net.loose + s.net.landed
      ensures CopyOk(t.tickets, c) && s.lanes.nextId !in c.ids
    {
      assert CopyOk(s.tickets, c);
      forall p: nat | c.entry.Covers(p)
        ensures exists m :: m in c.ids && t.tickets[m].Covers(p)
      {
        var m :| m in c.ids && s.tickets[m].Covers(p);
        assert t.tickets[m].Covers(p);
      }
    }
    forall k | k in s.verdicts
      ensures VerdictOk(t.j, t.net, t.tickets[k], k, t.verdicts[k])
    {
      assert VerdictOk(s.j, s.net, s.tickets[k], k, s.verdicts[k]);
    }
  }

  lemma OpenPhases(s: Sys, records: seq<Value>)
    requires Inv(s) && Enabled(s, Event.Open(records))
    ensures var t := Next(s, Event.Open(records));
      PhasesOk(t.j, t.seen, t.net, t.tickets, t.phases) && PhasesMatch(t.lanes, t.phases)
  {
    var t := Next(s, Event.Open(records));
    var e := L.OpenedEntry(s.lanes, records);
    L.OpenKeeps(s.lanes, records);
    forall k | k in s.phases
      ensures PhaseOk(t.j, t.seen, t.net, t.tickets, t.phases[k]) && PhaseMatch(t.lanes, k, t.phases[k])
    {
      CallOf(s, k);
      assert PhaseMatch(s.lanes, k, s.phases[k]);
      CopyFrame(s.lanes, t.lanes, k);
      if s.lanes.flight[k].entry.leader == e.leader {
        CopyBelow(s.lanes, s.tickets, k);
      }
    }
    forall k | k in t.lanes.flight && t.lanes.flight[k].stage == L.Sending
      ensures k in t.phases
    {
      assert k in s.lanes.flight;
    }
  }

  lemma OpenHole(tail: nat, l: L.Lanes, records: seq<Value>)
    requires NoHole(tail, l) && L.Admit(l).At? && l.nextId !in l.flight
    ensures NoHole(tail, L.Open(l, records))
  {
    var m := L.Open(l, records);
    forall p: nat | tail <= p < m.ahead
      ensures Filled(m.flight, m.writer.mine, p)
    {
      if p < l.ahead {
        assert Filled(l.flight, l.writer.mine, p);
        var k :| k in l.flight && l.flight[k].entry.leader == l.writer.mine && l.flight[k].entry.Covers(p);
        assert m.flight[k].entry.Covers(p);
      } else {
        assert m.flight[l.nextId].entry.Covers(p);
      }
    }
  }

  lemma OpenTallies(s: Sys, records: seq<Value>)
    requires Inv(s) && Enabled(s, Event.Open(records))
    ensures var t := Next(s, Event.Open(records)); TalliesOk(t.j.state.nextSeq, t.lanes, t.phases, t.tallies)
  {
    var t := Next(s, Event.Open(records));
    L.OpenKeeps(s.lanes, records);
    forall k | k in s.phases
      ensures k in s.lanes.flight
    {
      assert PhaseMatch(s.lanes, k, s.phases[k]);
    }
    TalliesFrame(s.j.state.nextSeq, s.lanes, t.lanes, s.phases, s.tallies);
  }

  lemma OpenKeeps(s: Sys, records: seq<Value>)
    requires Inv(s) && Enabled(s, Event.Open(records))
    ensures Inv(Next(s, Event.Open(records)))
  {
    var t := Next(s, Event.Open(records));
    var id := s.lanes.nextId;
    L.OpenKeeps(s.lanes, records);
    OpenCopies(s, records);
    OpenPhases(s, records);
    OpenHole(s.j.state.nextSeq, s.lanes, records);
    OpenTallies(s, records);
    W.OpenTracks(s.lanes.writer, s.tickets, id, L.OpenedEntry(s.lanes, records));
    forall k | k in t.lanes.flight
      ensures TouchOk(t.net, t.lanes.flight, t.phases, k)
    {
      if k != id {
        assert TouchOk(s.net, s.lanes.flight, s.phases, k);
      }
    }
  }

  // ---- A send starts, or its verdict is collected ----

  lemma StartKeeps(s: Sys, id: nat)
    requires Inv(s) && Enabled(s, Event.Start(id))
    ensures Inv(Next(s, Event.Start(id)))
  {
    var t := Next(s, Event.Start(id));
    L.StartKeeps(s.lanes, id);
    MarkShape(s, t.lanes, id);
    HoleFrame(s.j.state.nextSeq, s.lanes, t.lanes);
    TalliesFrame(s.j.state.nextSeq, s.lanes, t.lanes, s.phases, s.tallies);
  }

  lemma MarkCalls(s: Sys, m: L.Lanes, id: nat)
    requires PhasesMatch(s.lanes, s.phases) && id in s.lanes.flight && id in m.flight
    requires m == s.lanes.(flight := s.lanes.flight[id := m.flight[id]])
    requires var a, b := s.lanes.flight[id], m.flight[id];
      && b.entry == a.entry && b.carries == a.carries && b.early == a.early
      && (b.stage == a.stage || (a.stage == L.Opened && b.stage == L.Ready))
    ensures PhasesMatch(m, s.phases)
  {
    forall k | k in s.phases
      ensures PhaseMatch(m, k, s.phases[k])
    {
      assert PhaseMatch(s.lanes, k, s.phases[k]);
      CopyFrame(s.lanes, m, k);
    }
    forall k | k in m.flight && m.flight[k].stage == L.Sending
      ensures k in s.phases
    {
      assert s.lanes.flight[k].stage == L.Sending;
    }
  }

  /** `m` differs from the lanes only in marks of `id` that no call looks at. */
  lemma MarkShape(s: Sys, m: L.Lanes, id: nat)
    requires Shape(s) && L.Inv(m) && id in s.lanes.flight && id in m.flight
    requires m == s.lanes.(flight := s.lanes.flight[id := m.flight[id]])
    requires var a, b := s.lanes.flight[id], m.flight[id];
      && b.entry == a.entry && b.carries == a.carries && b.early == a.early
      && (b.stage == a.stage || (a.stage == L.Opened && b.stage == L.Ready))
    ensures Shape(s.(lanes := m))
  {
    MarkCalls(s, m, id);
    forall k | k in m.flight
      ensures TouchOk(s.net, m.flight, s.phases, k)
    {
      assert TouchOk(s.net, s.lanes.flight, s.phases, k);
    }
  }

  lemma HoleFrame(tail: nat, l: L.Lanes, m: L.Lanes)
    requires NoHole(tail, l) && m.writer == l.writer && m.ahead == l.ahead && (l.broken ==> m.broken)
    requires forall k {:trigger l.flight[k]} :: k in l.flight ==>
      k in m.flight && m.flight[k].entry == l.flight[k].entry
    ensures NoHole(tail, m)
  {
    forall p: nat | m.writer.leads && !m.broken && tail <= p < m.ahead
      ensures Filled(m.flight, m.writer.mine, p)
    {
      assert Filled(l.flight, l.writer.mine, p);
      var k :| k in l.flight && l.flight[k].entry.leader == l.writer.mine && l.flight[k].entry.Covers(p);
      assert m.flight[k].entry == l.flight[k].entry;
    }
  }

  lemma CollectKeeps(s: Sys, id: nat)
    requires Inv(s) && Enabled(s, Event.Collect(id))
    ensures Inv(Next(s, Event.Collect(id)))
  {
    var t := Next(s, Event.Collect(id));
    L.DoneKeeps(s.lanes, id);
    forall k | k in s.phases
      ensures PhaseMatch(t.lanes, k, s.phases[k])
    {
      assert PhaseMatch(s.lanes, k, s.phases[k]);
      CopyFrame(s.lanes, t.lanes, k);
    }
    TalliesFrame(s.j.state.nextSeq, s.lanes, t.lanes, s.phases, s.tallies);
  }

  // ---- A send asks ----

  /** `id` is about to call: everything holds but that its call has no phase yet. */
  ghost predicate Poised(s: Sys, id: nat) { Facts(s) && PoisedShape(s, id) }

  ghost predicate PoisedShape(s: Sys, id: nat) {
    && id !in s.phases
    && L.Inv(s.lanes) && Known(s.lanes, s.tickets) && s.lanes.writer.mine in s.minted
    && Once(s.net) && TouchesOk(s.net, s.lanes.flight, s.phases) && VerdictsMatch(s.lanes, s.verdicts)
    && id in s.lanes.flight && s.lanes.flight[id].stage == L.Sending && s.lanes.flight[id].early == None
    && (forall k {:trigger PhaseMatch(s.lanes, k, s.phases[k])} ::
          k in s.phases ==> PhaseMatch(s.lanes, k, s.phases[k]))
    && (forall k {:trigger s.lanes.flight[k]} ::
          k in s.lanes.flight && s.lanes.flight[k].stage == L.Sending && k != id ==> k in s.phases)
  }

  /** With a known `led_from`, the writer knows that no other ticket shares the request's positions. */
  lemma LedFromAlone(l: L.Lanes, tickets: map<nat, Entry>, copy: Copy)
    requires W.Tracks(l.writer, tickets) && CopyOk(tickets, copy) && l.writer.LedFrom(copy.entry).Some?
    ensures Alone(tickets, copy)
  {
    forall m | m in tickets && m !in copy.ids && tickets[m].leader == copy.entry.leader
      ensures !tickets[m].Overlaps(copy.entry)
    {
      if tickets[m].Overlaps(copy.entry) {
        var p := Max(tickets[m].at, copy.entry.at);
        assert copy.entry.Covers(p);
        var k :| k in copy.ids && tickets[k].Covers(p);
        assert L.Slice(copy.entry, tickets[k]);
        W.LedFromIsAlone(l.writer, tickets, copy.entry, k, m, p);
      }
    }
  }

  /** The phase a call of `id` starts in. */
  function AskedPhase(l: L.Lanes, id: nat): Phase
    requires L.InHand(l, id)
  {
    var copy := CopyOf(l, id);
    if l.writer.Owner() == Some(copy.entry.leader) then Asking(copy, l.writer.LedFrom(copy.entry))
    else Answered(copy, W.NotOwner)
  }

  lemma AskedPhaseOk(s: Sys, id: nat, copy: Copy)
    requires WriterOk(s.j, s.lanes.writer) && W.Tracks(s.lanes.writer, s.tickets) && CopyOk(s.tickets, copy)
    requires id in copy.ids && Untouched(s.net, id)
    ensures PhaseOk(s.j, s.seen, s.net, s.tickets,
      if s.lanes.writer.Owner() == Some(copy.entry.leader) then Asking(copy, s.lanes.writer.LedFrom(copy.entry))
      else Answered(copy, W.NotOwner))
  {
    if s.lanes.writer.LedFrom(copy.entry).Some? {
      LedFromAlone(s.lanes, s.tickets, copy);
    }
  }

  lemma AskPhase(s: Sys, id: nat)
    requires Poised(s, id)
    ensures L.InHand(s.lanes, id)
    ensures var p := AskedPhase(s.lanes, id);
      && PhaseOk(s.j, s.seen, s.net, s.tickets, p) && PhaseMatch(s.lanes, id, p)
      && p.copy.entry.at == s.lanes.flight[id].entry.at
  {
    L.InHandOf(s.lanes, id);
    SentCopy(s.lanes, s.tickets, id);
    assert TouchOk(s.net, s.lanes.flight, s.phases, id);
    AskedPhaseOk(s, id, CopyOf(s.lanes, id));
  }

  lemma AskFacts(s: Sys, id: nat, p: Phase, tally: Tally)
    requires Facts(s) && id in s.lanes.flight && PhaseOk(s.j, s.seen, s.net, s.tickets, p)
    requires TallyOk(s.j.state.nextSeq, s.lanes, id, p, tally)
    ensures Facts(s.(phases := s.phases[id := p], tallies := s.tallies[id := tally]))
  {
    var t := s.(phases := s.phases[id := p], tallies := s.tallies[id := tally]);
    forall k | k in t.phases
      ensures PhaseOk(t.j, t.seen, t.net, t.tickets, t.phases[k])
    {
      if k != id {
        assert PhaseOk(s.j, s.seen, s.net, s.tickets, s.phases[k]);
      }
    }
    forall k | k in t.phases && k in t.lanes.flight
      ensures TallyOk(t.j.state.nextSeq, t.lanes, k, t.phases[k], t.tallies[k])
    {
      if k != id {
        assert TallyOk(s.j.state.nextSeq, s.lanes, k, s.phases[k], s.tallies[k]);
      }
    }
  }

  lemma AskShape(s: Sys, id: nat, p: Phase, tally: Tally)
    requires PoisedShape(s, id) && PhaseMatch(s.lanes, id, p) && (p.Asking? || p.Answered?)
    ensures Shape(s.(phases := s.phases[id := p], tallies := s.tallies[id := tally]))
  {
    var t := s.(phases := s.phases[id := p], tallies := s.tallies[id := tally]);
    forall k | k in t.phases
      ensures PhaseMatch(t.lanes, k, t.phases[k])
    {
      if k != id {
        assert PhaseMatch(s.lanes, k, s.phases[k]);
      }
    }
    forall k | k in t.lanes.flight
      ensures TouchOk(t.net, t.lanes.flight, t.phases, k)
    {
      assert TouchOk(s.net, s.lanes.flight, s.phases, k);
    }
  }

  lemma AskKeeps(s: Sys, id: nat, tally: Tally)
    requires Poised(s, id)
    requires tally.early <= 1 && tally.apart <= 1 && tally.asks == tally.early + tally.apart + 1
    requires tally.apart == 1 ==> s.lanes.flight[id].alone
    requires tally.early == 1 ==> s.lanes.flight[id].entry.at <= s.j.state.nextSeq
    ensures L.InHand(s.lanes, id) && Inv(Ask(s, id, tally))
  {
    AskPhase(s, id);
    var p := AskedPhase(s.lanes, id);
    AskFacts(s, id, p, tally);
    AskShape(s, id, p, tally);
    assert Ask(s, id, tally) == s.(phases := s.phases[id := p], tallies := s.tallies[id := tally]);
  }

  /** How `id`'s lead changed write `k`: only stages, and `id`'s load. */
  ghost predicate LedAs(f: L.Flight, g: L.Flight, id: nat, load: seq<nat>, k: nat)
    requires k in f && k in g
  {
    && g[k].entry == f[k].entry && g[k].early == f[k].early && g[k].alone == f[k].alone
    && (k == id ==> f[k].stage == L.Ready && g[k].stage == L.Sending)
    && (k != id ==> g[k].carries == f[k].carries)
    && (k != id && k in load ==> f[k].stage == L.Ready && g[k].stage == L.Carried(id))
    && (k != id && k !in load ==> g[k].stage == f[k].stage)
  }

  ghost predicate LedTo(f: L.Flight, g: L.Flight, id: nat, load: seq<nat>) {
    && f.Keys == g.Keys
    && (forall k {:trigger f[k]} :: k in f ==> LedAs(f, g, id, load, k))
  }

  lemma LeadLeads(l: L.Lanes, id: nat, load: seq<nat>)
    requires L.Joinable(l, id, load)
    ensures LedTo(l.flight, L.Lead(l, id, load).flight, id, load)
  {
  }

  lemma LeadCalls(s: Sys, l: L.Lanes, id: nat, load: seq<nat>)
    requires Shape(s) && l == s.lanes.(flight := l.flight) && LedTo(s.lanes.flight, l.flight, id, load)
    requires id in l.flight
    ensures id !in s.phases
    ensures forall k {:trigger PhaseMatch(l, k, s.phases[k])} :: k in s.phases ==> PhaseMatch(l, k, s.phases[k])
    ensures forall k {:trigger l.flight[k]} :: k in l.flight && l.flight[k].stage == L.Sending && k != id ==>
      k in s.phases
  {
    assert LedAs(s.lanes.flight, l.flight, id, load, id);
    forall k | k in s.phases
      ensures PhaseMatch(l, k, s.phases[k]) && k != id
    {
      assert PhaseMatch(s.lanes, k, s.phases[k]);
      assert LedAs(s.lanes.flight, l.flight, id, load, k);
      forall i | i in s.lanes.flight[k].carries
        ensures i in l.flight && l.flight[i].entry == s.lanes.flight[i].entry
      {
        assert LedAs(s.lanes.flight, l.flight, id, load, i);
      }
      CopyFrame(s.lanes, l, k);
    }
    forall k | k in l.flight && l.flight[k].stage == L.Sending && k != id
      ensures k in s.phases
    {
      assert LedAs(s.lanes.flight, l.flight, id, load, k);
      assert s.lanes.flight[k].stage == L.Sending;
    }
  }

  lemma LeadTouches(s: Sys, g: L.Flight, id: nat, load: seq<nat>)
    requires Shape(s) && LedTo(s.lanes.flight, g, id, load) && id !in s.phases
    requires forall k :: k in load ==> k in s.lanes.flight
    ensures TouchesOk(s.net, g, s.phases)
  {
    forall k | k in g
      ensures TouchOk(s.net, g, s.phases, k)
    {
      assert TouchOk(s.net, s.lanes.flight, s.phases, k);
      assert LedAs(s.lanes.flight, g, id, load, k);
      if Unsettled(s.phases, k) {
        assert PhaseMatch(s.lanes, k, s.phases[k]);
      }
    }
  }

  lemma LeadPoised(s: Sys, id: nat, load: seq<nat>)
    requires Inv(s) && Enabled(s, Event.Lead(id, load))
    ensures Poised(s.(lanes := L.Lead(s.lanes, id, load)), id)
  {
    var l := L.Lead(s.lanes, id, load);
    L.LeadKeeps(s.lanes, id, load);
    LeadLeads(s.lanes, id, load);
    LeadCalls(s, l, id, load);
    LeadTouches(s, l.flight, id, load);
    LeadFacts(s, l, id, load);
    assert L.Good(s.lanes, id);
  }

  lemma LeadFacts(s: Sys, l: L.Lanes, id: nat, load: seq<nat>)
    requires Inv(s) && l == s.lanes.(flight := l.flight) && LedTo(s.lanes.flight, l.flight, id, load)
    ensures Facts(s.(lanes := l)) && Known(l, s.tickets) && VerdictsMatch(l, s.verdicts)
  {
    HoleFrame(s.j.state.nextSeq, s.lanes, l);
    forall k | k in l.flight
      ensures k in s.lanes.flight
      ensures l.flight[k].alone == s.lanes.flight[k].alone && l.flight[k].entry == s.lanes.flight[k].entry
    {
      assert LedAs(s.lanes.flight, l.flight, id, load, k);
    }
    TalliesFrame(s.j.state.nextSeq, s.lanes, l, s.phases, s.tallies);
  }

  lemma LeadKeeps(s: Sys, id: nat, load: seq<nat>)
    requires Inv(s) && Enabled(s, Event.Lead(id, load))
    ensures Inv(Next(s, Event.Lead(id, load)))
  {
    LeadPoised(s, id, load);
    AskKeeps(s.(lanes := L.Lead(s.lanes, id, load)), id, Tally(1, 0, 0));
  }

  // ---- A call ends ----

  /** Every write of `id`'s group may be given its part of `o`. */
  ghost predicate MayEnd(s: Sys, id: nat, o: W.Outcome)
    requires L.InHand(s.lanes, id)
  {
    forall m {:trigger s.tickets[m]} :: m in L.Group(s.lanes, id) && m in s.tickets ==>
      VerdictOk(s.j, s.net, s.tickets[m], m, L.PartOf(o, s.tickets[m]))
  }

  /** The settled group leaves no hole: it failed, is of another term, or lies below the tail. */
  ghost predicate LeavesNoHole(tail: nat, l: L.Lanes, id: nat)
    requires id in l.flight
  {
    l.broken || !l.writer.leads
    || (forall m {:trigger l.flight[m]} :: m in L.Group(l, id) && m in l.flight ==>
          l.flight[m].entry.leader != l.writer.mine || l.flight[m].entry.End() <= tail)
  }

  lemma SettleHole(tail: nat, l: L.Lanes, id: nat, o: W.Outcome)
    requires L.InHand(l, id) && NoHole(tail, l) && l.writer.nextSeq <= tail && LeavesNoHole(tail, l, id)
    ensures NoHole(tail, L.Settle(l, id, o))
  {
    var m := L.Settle(l, id, o);
    if m.flight != map[] {
      forall p: nat | m.writer.leads && !m.broken && tail <= p < m.ahead
        ensures Filled(m.flight, m.writer.mine, p)
      {
        assert Filled(l.flight, l.writer.mine, p);
        var k :| k in l.flight && l.flight[k].entry.leader == l.writer.mine && l.flight[k].entry.Covers(p);
        assert k !in L.Group(l, id);
        assert k in m.flight && m.flight[k] == l.flight[k];
      }
    }
  }

  lemma EndVerdicts(s: Sys, id: nat, o: W.Outcome, l: L.Lanes)
    requires Inv(s) && L.InHand(s.lanes, id) && MayEnd(s, id, o)
    ensures var t := Ended(s, id, o, l); VerdictsOk(t.j, t.net, t.tickets, t.verdicts)
  {
    var t := Ended(s, id, o, l);
    forall k | k in t.verdicts
      ensures k in t.tickets && VerdictOk(t.j, t.net, t.tickets[k], k, t.verdicts[k])
    {
      if k in L.Group(s.lanes, id) {
        assert k in s.lanes.flight;
        assert s.tickets[k] == s.lanes.flight[k].entry;
      } else {
        assert VerdictOk(s.j, s.net, s.tickets[k], k, s.verdicts[k]);
      }
    }
  }

  /** The calls that go on are those whose writes stayed. */
  lemma EndCalls(s: Sys, id: nat, l: L.Lanes)
    requires Shape(s) && L.InHand(s.lanes, id) && !s.lanes.flight[id].stage.Carried? && L.Inv(l)
    requires l.flight == s.lanes.flight - L.Group(s.lanes, id)
    ensures TouchesOk(s.net, l.flight, s.phases - {id}) && PhasesMatch(l, s.phases - {id})
  {
    var phases := s.phases - {id};
    assert L.Good(s.lanes, id);
    forall k | k in l.flight
      ensures TouchOk(s.net, l.flight, phases, k)
    {
      assert TouchOk(s.net, s.lanes.flight, s.phases, k);
      assert L.Good(s.lanes, k);
    }
    forall k | k in phases
      ensures PhaseMatch(l, k, phases[k])
    {
      assert PhaseMatch(s.lanes, k, s.phases[k]);
      assert k in l.flight;
      assert L.Good(l, k);
      CopyFrame(s.lanes, l, k);
    }
    forall k | k in l.flight && l.flight[k].stage == L.Sending
      ensures k in phases
    {
      assert s.lanes.flight[k].stage == L.Sending;
    }
  }

  /** The verdicts a settled group gets, and those of it that wait in `done`. */
  lemma EndVerdict(l: L.Lanes, l1: L.Lanes, id: nat, o: W.Outcome, k: nat)
    requires L.InHand(l, id) && l1.flight == l.flight && l1.done == l.done && k in L.Verdicts(l1, id, o)
    ensures k in VerdictsOf(l, id, o) && VerdictsOf(l, id, o)[k] == L.Verdicts(l1, id, o)[k]
  {
  }

  lemma EndMatch(s: Sys, id: nat, o: W.Outcome, l1: L.Lanes)
    requires L.Inv(s.lanes) && VerdictsMatch(s.lanes, s.verdicts)
    requires L.InHand(s.lanes, id) && l1.flight == s.lanes.flight && l1.done == s.lanes.done
    ensures L.InHand(l1, id)
    ensures var t := Ended(s, id, o, L.Settle(l1, id, o)); VerdictsMatch(t.lanes, t.verdicts)
  {
    var t := Ended(s, id, o, L.Settle(l1, id, o));
    forall k | k in t.lanes.done
      ensures k in t.verdicts && t.verdicts[k] == t.lanes.done[k]
    {
      if k in L.Verdicts(l1, id, o) {
        EndVerdict(s.lanes, l1, id, o, k);
      } else {
        assert k in s.lanes.done && k !in s.lanes.flight;
      }
    }
  }

  lemma EndFacts(s: Sys, id: nat, o: W.Outcome, l: L.Lanes)
    requires Inv(s) && L.InHand(s.lanes, id) && MayEnd(s, id, o)
    requires WriterOk(s.j, l.writer) && NoHole(s.j.state.nextSeq, l)
    requires forall k {:trigger l.flight[k]} :: k in l.flight ==>
      k in s.lanes.flight && l.flight[k] == s.lanes.flight[k]
    ensures Facts(Ended(s, id, o, l))
  {
    var t := Ended(s, id, o, l);
    EndVerdicts(s, id, o, l);
    forall k | k in t.phases
      ensures PhaseOk(t.j, t.seen, t.net, t.tickets, t.phases[k])
    {
      assert PhaseOk(s.j, s.seen, s.net, s.tickets, s.phases[k]);
    }
    EndTallies(s, id, l);
  }

  lemma EndShape(s: Sys, id: nat, o: W.Outcome, l1: L.Lanes)
    requires Shape(s) && L.InHand(s.lanes, id) && !s.lanes.flight[id].stage.Carried?
    requires l1 == s.lanes.(writer := l1.writer, ahead := l1.ahead, broken := l1.broken)
    requires L.Inv(l1) && W.Tracks(l1.writer, s.tickets) && l1.writer.mine in s.minted
    ensures L.InHand(l1, id) && Shape(Ended(s, id, o, L.Settle(l1, id, o)))
  {
    L.SettleKeeps(l1, id, o);
    EndCalls(s, id, L.Settle(l1, id, o));
    EndMatch(s, id, o, l1);
  }

  /** `id`'s group settles with `o`, once its lanes moved to `l1`. */
  lemma EndKeeps(s: Sys, id: nat, o: W.Outcome, l1: L.Lanes)
    requires Inv(s) && L.InHand(s.lanes, id) && !s.lanes.flight[id].stage.Carried? && MayEnd(s, id, o)
    requires l1 == s.lanes.(writer := l1.writer, ahead := l1.ahead, broken := l1.broken)
    requires L.Inv(l1) && WriterOk(s.j, l1.writer) && W.Tracks(l1.writer, s.tickets) && l1.writer.mine in s.minted
    requires NoHole(s.j.state.nextSeq, l1) && LeavesNoHole(s.j.state.nextSeq, l1, id)
    ensures L.InHand(l1, id) && Inv(Ended(s, id, o, L.Settle(l1, id, o)))
  {
    EndShape(s, id, o, l1);
    SettleHole(s.j.state.nextSeq, l1, id, o);
    EndFacts(s, id, o, L.Settle(l1, id, o));
  }

  lemma EndTallies(s: Sys, id: nat, l: L.Lanes)
    requires TalliesOk(s.j.state.nextSeq, s.lanes, s.phases, s.tallies)
    requires forall k {:trigger l.flight[k]} :: k in l.flight ==>
      k in s.lanes.flight && l.flight[k] == s.lanes.flight[k]
    ensures TalliesOk(s.j.state.nextSeq, l, s.phases - {id}, s.tallies)
  {
    forall k | k in s.phases - {id} && k in l.flight
      ensures TallyOk(s.j.state.nextSeq, l, k, s.phases[k], s.tallies[k])
    {
      assert l.flight[k] == s.lanes.flight[k];
      assert TallyOk(s.j.state.nextSeq, s.lanes, k, s.phases[k], s.tallies[k]);
    }
  }

  // ---- Dropped sends ----

  lemma DropCarriedKeeps(s: Sys, id: nat)
    requires Inv(s) && L.InHand(s.lanes, id) && s.lanes.flight[id].stage.Carried?
    ensures Inv(s.(lanes := L.Abandon(s.lanes, id)))
  {
    L.AbandonKeeps(s.lanes, id);
    var l := L.Abandon(s.lanes, id);
    MarkShape(s, l, id);
    HoleFrame(s.j.state.nextSeq, s.lanes, l);
    TalliesFrame(s.j.state.nextSeq, s.lanes, l, s.phases, s.tallies);
  }

  /** Breaking the pipeline when the settled write is of the writer's term leaves no hole to promise. */
  lemma BreakOk(s: Sys, id: nat)
    requires Inv(s) && id in s.lanes.flight
    ensures var l := L.Break(s.lanes, s.lanes.writer.Owner() == Some(s.lanes.flight[id].entry.leader));
      && L.Inv(l) && NoHole(s.j.state.nextSeq, l) && LeavesNoHole(s.j.state.nextSeq, l, id)
  {
    L.BreakKeeps(s.lanes, s.lanes.writer.Owner() == Some(s.lanes.flight[id].entry.leader));
    GroupLeader(s.lanes, id);
  }

  lemma GroupLeader(l: L.Lanes, id: nat)
    requires L.Inv(l) && id in l.flight
    ensures forall m :: m in L.Group(l, id) ==> m in l.flight && l.flight[m].entry.leader == l.flight[id].entry.leader
  {
    L.SentTiles(l, id);
    forall m | m in L.Group(l, id)
      ensures m in l.flight && l.flight[m].entry.leader == l.flight[id].entry.leader
    {
      assert L.Slice(L.SentEntry(l, id), l.flight[m].entry);
    }
  }

  function Broken(l: L.Lanes, id: nat): L.Lanes
    requires id in l.flight
  {
    L.Break(l, l.writer.Owner() == Some(l.flight[id].entry.leader))
  }

  /** `id`'s group fails with `o`. */
  lemma FailKeeps(s: Sys, id: nat, o: W.Outcome)
    requires Inv(s) && L.InHand(s.lanes, id) && !s.lanes.flight[id].stage.Carried? && MayEnd(s, id, o)
    ensures L.InHand(Broken(s.lanes, id), id) && Inv(Ended(s, id, o, L.Settle(Broken(s.lanes, id), id, o)))
  {
    BreakOk(s, id);
    EndKeeps(s, id, o, Broken(s.lanes, id));
  }

  lemma AbandonIs(l: L.Lanes, id: nat)
    requires L.InHand(l, id) && !l.flight[id].stage.Carried?
    ensures L.InHand(Broken(l, id), id) && L.Abandon(l, id) == L.Settle(Broken(l, id), id, W.Ambiguous)
  {
  }

  /** An ambiguous verdict promises nothing, so any call may end with it. */
  lemma AmbiguousMayEnd(s: Sys, id: nat)
    requires L.InHand(s.lanes, id)
    ensures MayEnd(s, id, W.Ambiguous)
  {
  }

  lemma DropQuietKeeps(s: Sys, id: nat)
    requires Inv(s) && L.InHand(s.lanes, id) && !s.lanes.flight[id].stage.Carried?
    ensures Inv(Ended(s, id, W.Ambiguous, L.Abandon(s.lanes, id)))
  {
    AbandonIs(s.lanes, id);
    AmbiguousMayEnd(s, id);
    FailKeeps(s, id, W.Ambiguous);
  }

  /** The request of an asking call is left behind before its send is dropped. */
  function LeftBy(s: Sys, id: nat): Sys
    requires id in s.phases && s.phases[id].Asking?
  {
    var p := s.phases[id];
    s.(net := s.net.(loose := s.net.loose + {p.copy}), phases := s.phases[id := Settling(p.copy, p.ledFrom)])
  }

  lemma LeftByKeeps(s: Sys, id: nat)
    requires Inv(s) && id in s.phases && s.phases[id].Asking?
    ensures Inv(LeftBy(s, id))
  {
    CallOf(s, id);
    assert PhaseMatch(s.lanes, id, s.phases[id]);
    assert Enabled(s, Event.Lose(id));
    LoseKeeps(s, id);
  }

  lemma DroppedIs(s: Sys, id: nat)
    requires L.InHand(s.lanes, id) && !s.lanes.flight[id].stage.Carried? && id in s.phases && s.phases[id].Asking?
    ensures Dropped(s, id) == Ended(LeftBy(s, id), id, W.Ambiguous, L.Abandon(s.lanes, id))
  {
    assert LeftBy(s, id).phases - {id} == s.phases - {id};
  }

  lemma DropAskingKeeps(s: Sys, id: nat)
    requires Inv(s) && L.InHand(s.lanes, id) && !s.lanes.flight[id].stage.Carried?
    requires id in s.phases && s.phases[id].Asking?
    ensures Inv(Dropped(s, id))
  {
    DroppedIs(s, id);
    LeftByKeeps(s, id);
    DropQuietKeeps(LeftBy(s, id), id);
  }

  lemma DropKeeps(s: Sys, id: nat)
    requires Inv(s) && Enabled(s, Event.Drop(id))
    ensures Inv(Next(s, Event.Drop(id)))
  {
    if id !in s.lanes.flight {
    } else if s.lanes.flight[id].stage.Carried? {
      DropCarriedKeeps(s, id);
    } else if id in s.phases && s.phases[id].Asking? {
      DropAskingKeeps(s, id);
    } else {
      DropQuietKeeps(s, id);
    }
  }

  // ---- An early write resumes ----

  lemma ResumeEnds(s: Sys, id: nat)
    requires Inv(s) && id in s.phases && L.InHand(s.lanes, id) && s.lanes.flight[id].early.Some?
    requires L.Resume(s.lanes, id).1.Finished?
    ensures Inv(Ended(s, id, W.Refused(s.lanes.flight[id].early.value), L.Resume(s.lanes, id).0))
  {
    var o := W.Refused(s.lanes.flight[id].early.value);
    assert PhaseMatch(s.lanes, id, s.phases[id]);
    WaitingMayEnd(s, id, o);
    FailKeeps(s, id, o);
  }

  /** A write that waits has no request under way: its refusal is final. */
  lemma WaitingMayEnd(s: Sys, id: nat, o: W.Outcome)
    requires Inv(s) && id in s.phases && s.phases[id].Waiting? && !o.Written?
    ensures L.InHand(s.lanes, id) && !s.lanes.flight[id].stage.Carried? && MayEnd(s, id, o)
  {
    assert PhaseMatch(s.lanes, id, s.phases[id]);
    forall m | m in L.Group(s.lanes, id) && m in s.tickets
      ensures VerdictOk(s.j, s.net, s.tickets[m], m, L.PartOf(o, s.tickets[m]))
    {
      InFlightIds(s, id, m);
      assert TouchOk(s.net, s.lanes.flight, s.phases, m);
    }
  }

  /** The write resumes: its call starts anew on the flight as it is. */
  ghost predicate Cleared(l: L.Lanes, m: L.Lanes, id: nat) {
    && id in l.flight && m == l.(flight := l.flight[id := l.flight[id].(early := None)])
  }

  lemma ClearedCalls(s: Sys, l: L.Lanes, id: nat)
    requires Shape(s) && Cleared(s.lanes, l, id) && id in s.phases && s.phases[id].Waiting?
    ensures var phases := s.phases - {id};
      && TouchesOk(s.net, l.flight, phases)
      && (forall k {:trigger PhaseMatch(l, k, phases[k])} :: k in phases ==> PhaseMatch(l, k, phases[k]))
      && (forall k {:trigger l.flight[k]} :: k in l.flight && l.flight[k].stage == L.Sending && k != id ==> k in phases)
  {
    var phases := s.phases - {id};
    forall k | k in phases
      ensures PhaseMatch(l, k, phases[k])
    {
      assert PhaseMatch(s.lanes, k, s.phases[k]);
      CopyFrame(s.lanes, l, k);
    }
    forall k | k in l.flight
      ensures TouchOk(s.net, l.flight, phases, k)
    {
      assert TouchOk(s.net, s.lanes.flight, s.phases, k);
    }
    forall k | k in l.flight && l.flight[k].stage == L.Sending && k != id
      ensures k in phases
    {
      assert s.lanes.flight[k].stage == L.Sending;
    }
  }

  lemma ClearedFacts(s: Sys, l: L.Lanes, id: nat)
    requires Inv(s) && Cleared(s.lanes, l, id)
    ensures Facts(s.(lanes := l, phases := s.phases - {id})) && Known(l, s.tickets) && VerdictsMatch(l, s.verdicts)
  {
    var phases := s.phases - {id};
    HoleFrame(s.j.state.nextSeq, s.lanes, l);
    forall k | k in phases
      ensures PhaseOk(s.j, s.seen, s.net, s.tickets, phases[k])
    {
      assert PhaseOk(s.j, s.seen, s.net, s.tickets, s.phases[k]);
    }
    forall k | k in phases && k in l.flight
      ensures TallyOk(s.j.state.nextSeq, l, k, phases[k], s.tallies[k])
    {
      assert TallyOk(s.j.state.nextSeq, s.lanes, k, s.phases[k], s.tallies[k]);
    }
  }

  lemma ResumePoised(s: Sys, id: nat, l: L.Lanes)
    requires Inv(s) && L.Inv(l) && Cleared(s.lanes, l, id) && id in s.phases && s.phases[id].Waiting?
    ensures Poised(s.(lanes := l, phases := s.phases - {id}), id)
  {
    assert PhaseMatch(s.lanes, id, s.phases[id]);
    ClearedCalls(s, l, id);
    ClearedFacts(s, l, id);
  }

  /** Taking a call out and putting it back is putting it back. */
  lemma PutBack(phases: map<nat, Phase>, id: nat, p: Phase)
    ensures (phases - {id})[id := p] == phases[id := p]
  {
  }

  lemma ResumeAsks(s: Sys, id: nat, l: L.Lanes, tally: Tally)
    requires Inv(s) && L.Inv(l) && Cleared(s.lanes, l, id) && id in s.phases && s.phases[id].Waiting? && id in s.tallies
    requires s.lanes.writer.nextSeq >= s.lanes.flight[id].entry.at
    requires tally == s.tallies[id].(asks := s.tallies[id].asks + 1)
    ensures L.InHand(l, id) && Inv(Ask(s.(lanes := l, phases := s.phases - {id}), id, tally))
  {
    assert PhaseMatch(s.lanes, id, s.phases[id]);
    assert TallyOk(s.j.state.nextSeq, s.lanes, id, s.phases[id], s.tallies[id]);
    ResumePoised(s, id, l);
    AskKeeps(s.(lanes := l, phases := s.phases - {id}), id, tally);
  }

  lemma ResumedIs(s: Sys, id: nat)
    requires id in s.tallies && L.InHand(s.lanes, id) && s.lanes.flight[id].early.Some?
    requires L.Resume(s.lanes, id).1.Send? && L.InHand(L.Resume(s.lanes, id).0, id)
    ensures Resumed(s, id) ==
      Ask(s.(lanes := L.Resume(s.lanes, id).0, phases := s.phases - {id}), id,
        s.tallies[id].(asks := s.tallies[id].asks + 1))
  {
    var t := s.(lanes := L.Resume(s.lanes, id).0, phases := s.phases - {id});
    PutBack(s.phases, id, Ask(t, id, s.tallies[id]).phases[id]);
  }

  lemma ResumeSends(s: Sys, id: nat)
    requires Inv(s) && id in s.phases && id in s.tallies && L.InHand(s.lanes, id) && s.lanes.flight[id].early.Some?
    requires L.Resume(s.lanes, id).1.Send? && L.InHand(L.Resume(s.lanes, id).0, id)
    ensures Inv(Resumed(s, id))
  {
    var l := L.Resume(s.lanes, id).0;
    assert PhaseMatch(s.lanes, id, s.phases[id]);
    assert L.Inv(l) by {
      L.ResumeKeeps(s.lanes, id);
    }
    ResumedIs(s, id);
    ResumeAsks(s, id, l, s.tallies[id].(asks := s.tallies[id].asks + 1));
  }

  lemma ResumeKeeps(s: Sys, id: nat)
    requires Inv(s) && Enabled(s, Event.Resume(id))
    ensures Inv(Next(s, Event.Resume(id)))
  {
    match L.Resume(s.lanes, id).1
    case Wait =>
    case Send(_) => ResumeSends(s, id);
    case Finished(_) => ResumeEnds(s, id);
  }
}
