/**
  What every run of a pipeline keeps, group by group: each predicate looks at as
  few parts of the state as it can, so that a step that leaves those parts alone
  keeps it.
  */
module RunsInvariant {
  import opened Common
  import opened Journal
  import opened Runs
  import W = Writer
  import L = Lanes
  import S = Settle

  // ---- The journal and what the client saw of it ----

  ghost predicate JournalOk(j: Journal) {
    Valid(j) && forall e :: e in j.held ==> e.leader in j.led
  }

  /** `v` was the journal's view once. */
  ghost predicate WasView(j: Journal, v: View) {
    && v.nextSeq <= j.state.nextSeq
    && (v.leader.Some? ==> LedSince(j, v.leader.value, v.nextSeq))
  }

  ghost predicate SeenOk(j: Journal, seen: set<View>) {
    forall v {:trigger WasView(j, v)} :: v in seen ==> WasView(j, v)
  }

  /** The writer's beliefs are true: its known tail is at most the real one. */
  ghost predicate WriterOk(j: Journal, w: W.Writer) {
    && w.nextSeq <= j.state.nextSeq
    && (w.leads ==> w.mine in j.led)
    && (w.ledFrom.Some? ==> LedSince(j, w.mine, w.ledFrom.value))
  }

  // ---- Tickets ----

  ghost predicate TicketOk(j: Journal, minted: set<Uuid>, e: Entry) {
    e.leader in minted && e.leader in j.led
  }

  ghost predicate TicketsOk(j: Journal, minted: set<Uuid>, tickets: map<nat, Entry>) {
    forall k {:trigger TicketOk(j, minted, tickets[k])} :: k in tickets ==> TicketOk(j, minted, tickets[k])
  }

  ghost predicate Known(l: L.Lanes, tickets: map<nat, Entry>) {
    && (forall k {:trigger k in tickets} :: k in tickets ==> k < l.nextId)
    && (forall k {:trigger l.flight[k]} :: k in l.flight ==> k in tickets && tickets[k] == l.flight[k].entry)
    && W.Tracks(l.writer, tickets)
  }

  // ---- Requests ----

  /** The request carries its tickets' records at their positions, and nothing else. */
  ghost predicate CopyOk(tickets: map<nat, Entry>, c: Copy) {
    && c.ids <= tickets.Keys && c.ids != {}
    && (forall m :: m in c.ids ==> L.Slice(c.entry, tickets[m]))
    && (forall p: nat :: c.entry.Covers(p) ==> exists m :: m in c.ids && tickets[m].Covers(p))
  }

  ghost predicate NetOk(j: Journal, minted: set<Uuid>, net: Net, tickets: map<nat, Entry>) {
    && (forall c {:trigger CopyOk(tickets, c)} :: c in net.loose + net.landed ==> CopyOk(tickets, c))
    && (forall c {:trigger c in net.landed} :: c in net.landed ==> c.entry in j.held)
    && (forall e {:trigger e in j.held} :: e in j.held && e.leader in minted ==> Landed(net, e))
  }

  ghost predicate Landed(net: Net, e: Entry) { exists c :: c in net.landed && c.entry == e }

  ghost predicate Untouched(net: Net, k: nat) {
    forall c :: c in net.loose + net.landed ==> k !in c.ids
  }

  /** The one request that ever carried `k` is `copy`. */
  ghost predicate Only(net: Net, k: nat, copy: Copy) {
    forall c :: c in net.loose + net.landed && k in c.ids ==> c == copy
  }

  /** A ticket is in one request at most. */
  ghost predicate Once(net: Net) {
    forall k {:trigger InOne(net, k)} :: InOne(net, k)
  }

  ghost predicate InOne(net: Net, k: nat) {
    forall a, b :: a in net.loose + net.landed && b in net.loose + net.landed && k in a.ids && k in b.ids ==> a == b
  }

  function LeadOf(f: L.Flight, k: nat): nat
    requires k in f
  {
    if f[k].stage.Carried? then f[k].stage.lead else k
  }

  predicate Unsettled(phases: map<nat, Phase>, k: nat) {
    k in phases && (phases[k].Settling? || phases[k].Answered?)
  }

  ghost predicate TouchOk(net: Net, f: L.Flight, phases: map<nat, Phase>, k: nat)
    requires k in f
  {
    var lead := LeadOf(f, k);
    if Unsettled(phases, lead) then Only(net, k, phases[lead].copy) else Untouched(net, k)
  }

  ghost predicate TouchesOk(net: Net, f: L.Flight, phases: map<nat, Phase>) {
    forall k {:trigger TouchOk(net, f, phases, k)} :: k in f ==> TouchOk(net, f, phases, k)
  }

  // ---- Calls ----

  ghost predicate PhaseMatch(l: L.Lanes, k: nat, p: Phase) {
    && L.InHand(l, k) && l.flight[k].stage == L.Sending
    && p.copy == CopyOf(l, k)
    && (p.Waiting? <==> l.flight[k].early.Some?)
  }

  ghost predicate PhasesMatch(l: L.Lanes, phases: map<nat, Phase>) {
    && (forall k {:trigger PhaseMatch(l, k, phases[k])} :: k in phases ==> PhaseMatch(l, k, phases[k]))
    && (forall k {:trigger l.flight[k]} :: k in l.flight && l.flight[k].stage == L.Sending ==> k in phases)
  }

  /** No other ticket of the uuid shares a position with the request. */
  ghost predicate Alone(tickets: map<nat, Entry>, copy: Copy) {
    forall m {:trigger tickets[m]} ::
      m in tickets && m !in copy.ids && tickets[m].leader == copy.entry.leader ==> !tickets[m].Overlaps(copy.entry)
  }

  /** The request never landed, and a copy still under way never will. */
  ghost predicate Gone(j: Journal, net: Net, copy: Copy) {
    copy !in net.landed && (copy in net.loose ==> Dead(j, copy.entry))
  }

  ghost predicate AnswerOk(j: Journal, seen: set<View>, net: Net, copy: Copy, o: W.Outcome) {
    && (L.ViewIn(o).Some? ==> L.ViewIn(o).value in seen)
    && (o.Written? ==> o.at == copy.entry.at && o.count == |copy.entry.records| && copy.entry in j.held)
    && (Negative(o) ==> Gone(j, net, copy))
    && (Unproposed(o) || o.Refused? ==> copy !in net.loose)
  }

  ghost predicate ProofOk(j: Journal, tickets: map<nat, Entry>, copy: Copy, ledFrom: Option<nat>) {
    ledFrom.Some? ==> LedSince(j, copy.entry.leader, ledFrom.value) && Alone(tickets, copy)
  }

  ghost predicate PhaseOk(j: Journal, seen: set<View>, net: Net, tickets: map<nat, Entry>, p: Phase) {
    match p
    case Asking(copy, ledFrom) => ProofOk(j, tickets, copy, ledFrom)
    case Settling(copy, ledFrom) => ProofOk(j, tickets, copy, ledFrom)
    case Answered(copy, o) => AnswerOk(j, seen, net, copy, o)
    case Waiting(_) => true
  }

  ghost predicate PhasesOk(j: Journal, seen: set<View>, net: Net, tickets: map<nat, Entry>, phases: map<nat, Phase>) {
    forall k {:trigger PhaseOk(j, seen, net, tickets, phases[k])} ::
      k in phases ==> PhaseOk(j, seen, net, tickets, phases[k])
  }

  // ---- Verdicts ----

  /** The journal holds the ticket's records at the ticket's range. */
  ghost predicate Holds(j: Journal, e: Entry) { exists b :: b in j.held && L.Slice(b, e) }

  /** No request that carries `k` landed, and none under way ever will. */
  ghost predicate NeverLands(j: Journal, net: Net, k: nat) {
    && (forall c :: c in net.landed ==> k !in c.ids)
    && (forall c :: c in net.loose && k in c.ids ==> Dead(j, c.entry))
  }

  ghost predicate VerdictOk(j: Journal, net: Net, e: Entry, k: nat, o: W.Outcome) {
    && (o.Written? ==> o.at == e.at && o.count == |e.records| && Holds(j, e))
    && (Negative(o) ==> NeverLands(j, net, k))
  }

  ghost predicate VerdictsOk(j: Journal, net: Net, tickets: map<nat, Entry>, verdicts: map<nat, W.Outcome>) {
    && verdicts.Keys <= tickets.Keys
    && (forall k {:trigger VerdictOk(j, net, tickets[k], k, verdicts[k])} ::
          k in verdicts ==> VerdictOk(j, net, tickets[k], k, verdicts[k]))
  }

  /** A ticket in flight has no verdict; a carried one's verdict waits in `done` as it was given. */
  ghost predicate VerdictsMatch(l: L.Lanes, verdicts: map<nat, W.Outcome>) {
    && l.flight.Keys !! verdicts.Keys
    && (forall k :: k in l.done ==> k in verdicts && verdicts[k] == l.done[k])
  }

  // ---- No hole ----

  ghost predicate Filled(f: L.Flight, u: Uuid, p: nat) {
    exists k :: k in f && f[k].entry.leader == u && f[k].entry.Covers(p)
  }

  /** While the writer leads and no write failed, writes in flight fill every position it gave. */
  ghost predicate NoHole(tail: nat, l: L.Lanes) {
    l.writer.leads && !l.broken ==>
      forall p: nat {:trigger Filled(l.flight, l.writer.mine, p)} ::
        tail <= p < l.ahead ==> Filled(l.flight, l.writer.mine, p)
  }

  // ---- How often a send asks ----

  ghost predicate TallyOk(tail: nat, l: L.Lanes, k: nat, p: Phase, t: Tally)
    requires k in l.flight
  {
    && t.early <= 1 && t.apart <= 1
    && (t.apart == 1 ==> l.flight[k].alone)
    && t.asks == t.early + t.apart + (if p.Waiting? then 0 else 1)
    && (p.Waiting? ==> t.early == 1)
    && (t.early == 1 && !p.Waiting? ==> p.copy.entry.at <= tail)
    && (t.early == 1 && p.Answered? && p.outcome.Refused? ==> p.copy.entry.at <= p.outcome.view.nextSeq)
  }

  ghost predicate TalliesOk(tail: nat, l: L.Lanes, phases: map<nat, Phase>, tallies: map<nat, Tally>) {
    && phases.Keys <= tallies.Keys
    && (forall k {:trigger TallyOk(tail, l, k, phases[k], tallies[k])} ::
          k in phases && k in l.flight ==> TallyOk(tail, l, k, phases[k], tallies[k]))
  }

  // ---- All of it ----

  /** What a move of the journal alone could break. */
  ghost predicate Facts(s: Sys) {
    && JournalOk(s.j) && SeenOk(s.j, s.seen) && ViewOf(s.j.state) in s.seen && WriterOk(s.j, s.lanes.writer)
    && TicketsOk(s.j, s.minted, s.tickets) && NetOk(s.j, s.minted, s.net, s.tickets)
    && PhasesOk(s.j, s.seen, s.net, s.tickets, s.phases)
    && VerdictsOk(s.j, s.net, s.tickets, s.verdicts)
    && NoHole(s.j.state.nextSeq, s.lanes)
    && TalliesOk(s.j.state.nextSeq, s.lanes, s.phases, s.tallies)
  }

  ghost predicate Shape(s: Sys) {
    && L.Inv(s.lanes) && Known(s.lanes, s.tickets) && s.lanes.writer.mine in s.minted
    && Once(s.net) && TouchesOk(s.net, s.lanes.flight, s.phases)
    && PhasesMatch(s.lanes, s.phases)
    && VerdictsMatch(s.lanes, s.verdicts)
  }

  ghost predicate Inv(s: Sys) { Facts(s) && Shape(s) }

  lemma InitInv(s: Sys)
    requires Init(s)
    ensures Inv(s)
  {
    if s.j.state.leader.Some? {
      LedSinceNow(s.j);
    }
  }

  // ---- The journal moves ----

  lemma SeenMoves(j: Journal, seen: set<View>, c: Command)
    requires JournalOk(j) && SeenOk(j, seen) && FreshStep(j, c)
    ensures var j' := Apply(Single, j, c).0;
      JournalOk(j') && SeenOk(j', seen + {ViewOf(j'.state)})
  {
    var j' := Apply(Single, j, c).0;
    ApplyKeepsValid(Single, j, c);
    ApplyMoves(Single, j, c);
    if j'.state.leader.Some? {
      LedSinceNow(j');
    }
    forall v | v in seen + {ViewOf(j'.state)}
      ensures WasView(j', v)
    {
      if v in seen {
        assert WasView(j, v);
        if v.leader.Some? {
          LedSinceStays(j, c, v.leader.value, v.nextSeq);
        }
      }
    }
  }

  lemma WriterMoves(j: Journal, w: W.Writer, c: Command)
    requires JournalOk(j) && WriterOk(j, w) && FreshStep(j, c)
    ensures WriterOk(Apply(Single, j, c).0, w)
  {
    ApplyMoves(Single, j, c);
    if w.ledFrom.Some? {
      LedSinceStays(j, c, w.mine, w.ledFrom.value);
    }
  }

  lemma TicketsMove(j: Journal, minted: set<Uuid>, tickets: map<nat, Entry>, c: Command)
    requires JournalOk(j) && TicketsOk(j, minted, tickets)
    ensures TicketsOk(Apply(Single, j, c).0, minted, tickets)
  {
    ApplyMoves(Single, j, c);
    forall k | k in tickets
      ensures TicketOk(Apply(Single, j, c).0, minted, tickets[k])
    {
      assert TicketOk(j, minted, tickets[k]);
    }
  }

  /** The net after the journal decided `c`, asked by a request of ours when it is `Some`. */
  function NetAfter(j: Journal, net: Net, c: Command, ours: Option<Copy>): Net {
    if ours.Some? && Apply(Single, j, c).1.Accepted? then net.(landed := net.landed + {ours.value}) else net
  }

  ghost predicate Asks(minted: set<Uuid>, c: Command, ours: Option<Copy>) {
    if ours.Some? then c == Write(ours.value.entry) else c.Write? ==> c.entry.leader !in minted
  }

  lemma HeldAfter(j: Journal, c: Command, e: Entry)
    requires Valid(j) && c.Write? && e in Apply(Single, j, c).0.held
    ensures e in j.held || (e == c.entry && Apply(Single, j, c).1.Accepted?)
  {
  }

  lemma NetMoves(j: Journal, minted: set<Uuid>, net: Net, tickets: map<nat, Entry>, c: Command, ours: Option<Copy>)
    requires JournalOk(j) && NetOk(j, minted, net, tickets) && Asks(minted, c, ours)
    requires ours.Some? ==> CopyOk(tickets, ours.value)
    ensures NetOk(Apply(Single, j, c).0, minted, NetAfter(j, net, c, ours), tickets)
  {
    var j' := Apply(Single, j, c).0;
    var net' := NetAfter(j, net, c, ours);
    ApplyMoves(Single, j, c);
    forall x | x in net'.landed
      ensures x.entry in j'.held
    {
      if x !in net.landed {
        assert j'.held[|j.held|] == x.entry;
      }
    }
    forall e | e in j'.held && e.leader in minted
      ensures Landed(net', e)
    {
      if e in j.held {
        assert Landed(net, e);
        var x :| x in net.landed && x.entry == e;
        assert x in net'.landed;
      } else {
        HeldAfter(j, c, e);
        assert ours.value in net'.landed;
      }
    }
  }

  lemma ProofMoves(j: Journal, tickets: map<nat, Entry>, copy: Copy, ledFrom: Option<nat>, c: Command)
    requires JournalOk(j) && ProofOk(j, tickets, copy, ledFrom) && FreshStep(j, c)
    ensures ProofOk(Apply(Single, j, c).0, tickets, copy, ledFrom)
  {
    if ledFrom.Some? {
      LedSinceStays(j, c, copy.entry.leader, ledFrom.value);
    }
  }

  /** A decided request is under way already, or is carried by no answered call. */
  lemma AnswerMoves(j: Journal, seen: set<View>, more: set<View>, net: Net, copy: Copy, o: W.Outcome,
                    c: Command, ours: Option<Copy>)
    requires JournalOk(j) && AnswerOk(j, seen, net, copy, o) && FreshStep(j, c) && seen <= more
    requires ours.Some? ==> c == Write(ours.value.entry)
    requires ours == Some(copy) ==> copy in net.loose
    ensures AnswerOk(Apply(Single, j, c).0, more, NetAfter(j, net, c, ours), copy, o)
  {
    ApplyMoves(Single, j, c);
    if Dead(j, copy.entry) {
      DeadStays(j, c, copy.entry);
    }
  }

  lemma HoldsStays(j: Journal, j': Journal, e: Entry)
    requires Holds(j, e) && j.held <= j'.held
    ensures Holds(j', e)
  {
    var b :| b in j.held && L.Slice(b, e);
    assert b in j'.held;
  }

  lemma VerdictMoves(j: Journal, net: Net, e: Entry, k: nat, o: W.Outcome, c: Command, ours: Option<Copy>)
    requires JournalOk(j) && VerdictOk(j, net, e, k, o) && FreshStep(j, c)
    requires ours.Some? ==> c == Write(ours.value.entry) && (k in ours.value.ids ==> ours.value in net.loose)
    ensures VerdictOk(Apply(Single, j, c).0, NetAfter(j, net, c, ours), e, k, o)
  {
    var j' := Apply(Single, j, c).0;
    var net' := NetAfter(j, net, c, ours);
    ApplyMoves(Single, j, c);
    if o.Written? {
      HoldsStays(j, j', e);
    }
    if Negative(o) {
      forall x | x in net'.loose && k in x.ids
        ensures Dead(j', x.entry)
      {
        assert Dead(j, x.entry);
        DeadStays(j, c, x.entry);
      }
    }
  }

  lemma NoHoleMoves(j: Journal, l: L.Lanes, c: Command)
    requires JournalOk(j) && NoHole(j.state.nextSeq, l)
    ensures NoHole(Apply(Single, j, c).0.state.nextSeq, l)
  {
    ApplyMoves(Single, j, c);
  }

  lemma TalliesMove(j: Journal, l: L.Lanes, phases: map<nat, Phase>, tallies: map<nat, Tally>, c: Command)
    requires JournalOk(j) && TalliesOk(j.state.nextSeq, l, phases, tallies)
    ensures TalliesOk(Apply(Single, j, c).0.state.nextSeq, l, phases, tallies)
  {
    ApplyMoves(Single, j, c);
    forall k | k in phases && k in l.flight
      ensures TallyOk(Apply(Single, j, c).0.state.nextSeq, l, k, phases[k], tallies[k])
    {
      assert TallyOk(j.state.nextSeq, l, k, phases[k], tallies[k]);
    }
  }

  function Moved(s: Sys, c: Command, ours: Option<Copy>): Sys {
    Decided(s, c).(net := NetAfter(s.j, s.net, c, ours))
  }

  /** Our request `ours` is under way, or is the one the call of `id` asks with. */
  ghost predicate Ours(s: Sys, c: Command, ours: Option<Copy>, id: nat) {
    && Asks(s.minted, c, ours)
    && (ours.Some? ==> CopyOk(s.tickets, ours.value))
    && (ours.Some? && ours.value !in s.net.loose ==>
          id in s.phases && s.phases[id].copy == ours.value && !s.phases[id].Answered?)
  }

  /** The call whose request is decided is the only one that carries its tickets. */
  lemma OneCall(s: Sys, a: nat, b: nat)
    requires Shape(s) && a in s.phases && b in s.phases && s.phases[a].copy == s.phases[b].copy
    ensures a == b
  {
    assert PhaseMatch(s.lanes, a, s.phases[a]) && PhaseMatch(s.lanes, b, s.phases[b]);
    assert a in s.phases[b].copy.ids;
    assert L.Good(s.lanes, b);
  }

  lemma InFlightIds(s: Sys, id: nat, k: nat)
    requires Shape(s) && id in s.phases && k in s.phases[id].copy.ids
    ensures k in s.lanes.flight && LeadOf(s.lanes.flight, k) == id && k !in s.verdicts
  {
    assert PhaseMatch(s.lanes, id, s.phases[id]);
    assert L.Good(s.lanes, id);
  }

  lemma FactsMove(s: Sys, c: Command, ours: Option<Copy>, id: nat)
    requires Inv(s) && FreshStep(s.j, c) && Ours(s, c, ours, id)
    ensures Facts(Moved(s, c, ours))
  {
    var t := Moved(s, c, ours);
    SeenMoves(s.j, s.seen, c);
    WriterMoves(s.j, s.lanes.writer, c);
    TicketsMove(s.j, s.minted, s.tickets, c);
    NetMoves(s.j, s.minted, s.net, s.tickets, c, ours);
    NoHoleMoves(s.j, s.lanes, c);
    TalliesMove(s.j, s.lanes, s.phases, s.tallies, c);
    PhasesMove(s, c, ours, id);
    VerdictsMove(s, c, ours, id);
  }

  lemma PhasesMove(s: Sys, c: Command, ours: Option<Copy>, id: nat)
    requires Inv(s) && FreshStep(s.j, c) && Ours(s, c, ours, id)
    ensures var t := Moved(s, c, ours); PhasesOk(t.j, t.seen, t.net, t.tickets, t.phases)
  {
    var t := Moved(s, c, ours);
    forall k | k in s.phases
      ensures PhaseOk(t.j, t.seen, t.net, t.tickets, s.phases[k])
    {
      var p := s.phases[k];
      assert PhaseOk(s.j, s.seen, s.net, s.tickets, p);
      if p.Answered? {
        if ours == Some(p.copy) && p.copy !in s.net.loose {
          OneCall(s, id, k);
        }
        AnswerMoves(s.j, s.seen, t.seen, s.net, p.copy, p.outcome, c, ours);
      } else if !p.Waiting? {
        ProofMoves(s.j, s.tickets, p.copy, p.ledFrom, c);
      }
    }
  }

  lemma VerdictsMove(s: Sys, c: Command, ours: Option<Copy>, id: nat)
    requires Inv(s) && FreshStep(s.j, c) && Ours(s, c, ours, id)
    ensures var t := Moved(s, c, ours); VerdictsOk(t.j, t.net, t.tickets, t.verdicts)
  {
    var t := Moved(s, c, ours);
    forall k | k in s.verdicts
      ensures VerdictOk(t.j, t.net, s.tickets[k], k, s.verdicts[k])
    {
      assert VerdictOk(s.j, s.net, s.tickets[k], k, s.verdicts[k]);
      if ours.Some? && k in ours.value.ids && ours.value !in s.net.loose {
        InFlightIds(s, id, k);
      }
      VerdictMoves(s.j, s.net, s.tickets[k], k, s.verdicts[k], c, ours);
    }
  }

  // ---- A call moves on ----

  /** The flight stands; only the call of `id` moved, and the net with it. */
  lemma ShapeOfCall(s: Sys, t: Sys, id: nat)
    requires Shape(s) && id in s.phases && id in t.phases
    requires t.lanes == s.lanes && t.tickets == s.tickets && t.verdicts == s.verdicts && t.minted == s.minted
    requires t.phases == s.phases[id := t.phases[id]]
    requires t.phases[id].copy == s.phases[id].copy && (t.phases[id].Waiting? <==> s.phases[id].Waiting?)
    requires t.net == s.net || (Unsettled(t.phases, id) && Adds(s.net, t.net, s.phases[id].copy))
    requires Unsettled(s.phases, id) ==> Unsettled(t.phases, id)
    ensures Shape(t)
  {
    assert PhaseMatch(s.lanes, id, s.phases[id]);
    forall k | k in t.phases
      ensures PhaseMatch(t.lanes, k, t.phases[k])
    {
      assert PhaseMatch(s.lanes, k, s.phases[k]);
    }
    forall k | k in t.lanes.flight
      ensures TouchOk(t.net, t.lanes.flight, t.phases, k)
    {
      assert TouchOk(s.net, s.lanes.flight, s.phases, k);
      if t.net != s.net && k in s.phases[id].copy.ids {
        InFlightIds(s, id, k);
      }
    }
    OnceOfCall(s, t.net, id);
  }

  lemma OnceOfCall(s: Sys, net: Net, id: nat)
    requires Shape(s) && id in s.phases && (net == s.net || Adds(s.net, net, s.phases[id].copy))
    ensures Once(net)
  {
    var copy := s.phases[id].copy;
    forall k | k in copy.ids
      ensures Only(s.net, k, copy)
    {
      InFlightIds(s, id, k);
      assert TouchOk(s.net, s.lanes.flight, s.phases, k);
    }
    forall k: nat
      ensures InOne(net, k)
    {
      assert InOne(s.net, k);
      assert k in copy.ids ==> Only(s.net, k, copy);
    }
  }

  /** The net gained the one request `copy`, under way or landed. */
  ghost predicate Adds(net: Net, net': Net, copy: Copy) {
    forall c :: c in net'.loose + net'.landed ==> c in net.loose + net.landed || c == copy
  }

  /** Setting the phase of `id` alone. */
  lemma FactsOfCall(s: Sys, id: nat, p: Phase)
    requires Facts(s) && id in s.phases && id in s.lanes.flight
    requires PhaseOk(s.j, s.seen, s.net, s.tickets, p)
    requires TallyOk(s.j.state.nextSeq, s.lanes, id, p, s.tallies[id])
    ensures Facts(s.(phases := s.phases[id := p]))
  {
    var phases := s.phases[id := p];
    forall k | k in phases
      ensures PhaseOk(s.j, s.seen, s.net, s.tickets, phases[k])
    {
      assert k in s.phases;
      assert PhaseOk(s.j, s.seen, s.net, s.tickets, s.phases[k]);
    }
    forall k | k in phases && k in s.lanes.flight
      ensures TallyOk(s.j.state.nextSeq, s.lanes, k, phases[k], s.tallies[k])
    {
      assert TallyOk(s.j.state.nextSeq, s.lanes, k, s.phases[k], s.tallies[k]);
    }
  }

  /** The request of an asking call has never been under way. */
  lemma AskingClean(s: Sys, id: nat)
    requires Inv(s) && id in s.phases && !Unsettled(s.phases, id)
    ensures id in s.lanes.flight && id in s.phases[id].copy.ids && CopyOk(s.tickets, s.phases[id].copy)
    ensures s.phases[id].copy !in s.net.loose && s.phases[id].copy !in s.net.landed
    ensures s.phases[id].copy.entry.leader in s.j.led
  {
    CallOf(s, id);
    assert TouchOk(s.net, s.lanes.flight, s.phases, id);
  }

  lemma CallOf(s: Sys, id: nat)
    requires Inv(s) && id in s.phases
    ensures id in s.lanes.flight && id in s.phases[id].copy.ids && LeadOf(s.lanes.flight, id) == id
    ensures CopyOk(s.tickets, s.phases[id].copy)
    ensures s.phases[id].copy.entry.leader in s.j.led && s.phases[id].copy.entry.leader in s.minted
    ensures TallyOk(s.j.state.nextSeq, s.lanes, id, s.phases[id], s.tallies[id])
    ensures PhaseOk(s.j, s.seen, s.net, s.tickets, s.phases[id])
  {
    assert PhaseMatch(s.lanes, id, s.phases[id]);
    SentCopy(s.lanes, s.tickets, id);
    assert TicketOk(s.j, s.minted, s.tickets[id]);
  }

  /** The request a call sends carries exactly its group. */
  lemma SentCopy(l: L.Lanes, tickets: map<nat, Entry>, id: nat)
    requires L.Inv(l) && Known(l, tickets) && id in l.flight
    ensures L.InHand(l, id) && CopyOk(tickets, CopyOf(l, id))
    ensures CopyOf(l, id).entry.leader == tickets[id].leader && CopyOf(l, id).entry.at == tickets[id].at
  {
    L.SentTiles(l, id);
    var c := CopyOf(l, id);
    forall m | m in c.ids
      ensures m in tickets && L.Slice(c.entry, tickets[m])
    {
      assert tickets[m] == l.flight[m].entry;
    }
    forall p: nat | c.entry.Covers(p)
      ensures exists m :: m in c.ids && tickets[m].Covers(p)
    {
      var m :| m in L.Group(l, id) && l.flight[m].entry.Covers(p);
      assert tickets[m].Covers(p);
    }
    assert id in c.ids;
  }

  lemma DecideKeeps(s: Sys, c: Command)
    requires Inv(s) && Enabled(s, Decide(c))
    ensures Inv(Next(s, Decide(c)))
  {
    FactsMove(s, c, None, 0);
    assert Moved(s, c, None) == Decided(s, c);
  }

  lemma DeliverKeeps(s: Sys, copy: Copy)
    requires Inv(s) && Enabled(s, Deliver(copy))
    ensures Inv(Next(s, Deliver(copy)))
  {
    assert CopyOk(s.tickets, copy);
    FactsMove(s, Write(copy.entry), Some(copy), 0);
    var t := Moved(s, Write(copy.entry), Some(copy));
    assert t == DecidedCopy(s, copy);
    forall k | k in t.lanes.flight
      ensures TouchOk(t.net, t.lanes.flight, t.phases, k)
    {
      assert TouchOk(s.net, s.lanes.flight, s.phases, k);
      assert t.net.loose + t.net.landed == s.net.loose + s.net.landed;
    }
    forall k: nat
      ensures InOne(t.net, k)
    {
      assert InOne(s.net, k);
    }
  }

  /** What the slot that judged a clean request answers is true of the journal after it. */
  lemma JudgedAnswer(s: Sys, copy: Copy)
    requires JournalOk(s.j) && copy !in s.net.loose && copy !in s.net.landed && copy.entry.leader in s.j.led
    ensures var t := DecidedCopy(s, copy);
      AnswerOk(t.j, t.seen, t.net, copy, OutcomeOf(copy.entry, Apply(Single, s.j, Write(copy.entry)).1))
  {
    var e := copy.entry;
    AcceptedAtIsHeld(s.j.held, s.j.state.nextSeq, e);
    var t := DecidedCopy(s, copy);
    if t.j.held != s.j.held {
      assert t.j.held[|s.j.held|] == e;
    }
  }

  lemma JudgeMoves(s: Sys, id: nat)
    requires Inv(s) && id in s.phases && s.phases[id].Asking?
    ensures Facts(DecidedCopy(s, s.phases[id].copy))
  {
    var copy := s.phases[id].copy;
    CallOf(s, id);
    FactsMove(s, Write(copy.entry), Some(copy), id);
    assert DecidedCopy(s, copy) == Moved(s, Write(copy.entry), Some(copy));
  }

  lemma JudgeFacts(s: Sys, id: nat)
    requires Inv(s) && id in s.phases && s.phases[id].Asking?
    ensures Facts(Judged(s, id))
  {
    var copy := s.phases[id].copy;
    AskingClean(s, id);
    CallOf(s, id);
    JudgeMoves(s, id);
    JudgedAnswer(s, copy);
    ApplyMoves(Single, s.j, Write(copy.entry));
    FactsOfCall(DecidedCopy(s, copy), id, Judged(s, id).phases[id]);
  }

  lemma JudgeShape(s: Sys, id: nat)
    requires Shape(s) && id in s.phases && s.phases[id].Asking?
    ensures Shape(Judged(s, id))
  {
    ShapeOfCall(s, Judged(s, id), id);
  }

  lemma JudgeKeeps(s: Sys, id: nat)
    requires Inv(s) && Enabled(s, Judge(id))
    ensures Inv(Next(s, Judge(id)))
  {
    JudgeFacts(s, id);
    JudgeShape(s, id);
  }

  lemma NoProposalFacts(s: Sys, id: nat, o: W.Outcome)
    requires Inv(s) && Enabled(s, NoProposal(id, o))
    ensures Facts(Next(s, NoProposal(id, o)))
  {
    AskingClean(s, id);
    CallOf(s, id);
    FactsOfCall(s, id, Answered(s.phases[id].copy, o));
  }

  lemma NoProposalKeeps(s: Sys, id: nat, o: W.Outcome)
    requires Inv(s) && Enabled(s, NoProposal(id, o))
    ensures Inv(Next(s, NoProposal(id, o)))
  {
    NoProposalFacts(s, id, o);
    AskingClean(s, id);
    ShapeOfCall(s, Next(s, NoProposal(id, o)), id);
  }

  lemma GiveUpKeeps(s: Sys, id: nat)
    requires Inv(s) && Enabled(s, GiveUp(id))
    ensures Inv(Next(s, GiveUp(id)))
  {
    CallOf(s, id);
    FactsOfCall(s, id, Answered(s.phases[id].copy, W.Ambiguous));
    ShapeOfCall(s, Next(s, GiveUp(id)), id);
  }

  // ---- A request left behind ----

  /** A request of a call whose tickets have no verdict may join those under way. */
  lemma LeftBehind(s: Sys, id: nat)
    requires Inv(s) && id in s.phases && !Unsettled(s.phases, id)
    ensures var net := s.net.(loose := s.net.loose + {s.phases[id].copy});
      && NetOk(s.j, s.minted, net, s.tickets)
      && PhasesOk(s.j, s.seen, net, s.tickets, s.phases)
      && VerdictsOk(s.j, net, s.tickets, s.verdicts)
  {
    var copy := s.phases[id].copy;
    var net := s.net.(loose := s.net.loose + {copy});
    AskingClean(s, id);
    forall e | e in s.j.held && e.leader in s.minted
      ensures Landed(net, e)
    {
      assert Landed(s.net, e);
    }
    forall k | k in s.phases
      ensures PhaseOk(s.j, s.seen, net, s.tickets, s.phases[k])
    {
      assert PhaseOk(s.j, s.seen, s.net, s.tickets, s.phases[k]);
      if s.phases[k].copy == copy {
        OneCall(s, id, k);
      }
    }
    forall k | k in s.verdicts
      ensures VerdictOk(s.j, net, s.tickets[k], k, s.verdicts[k])
    {
      assert VerdictOk(s.j, s.net, s.tickets[k], k, s.verdicts[k]);
      if k in copy.ids {
        InFlightIds(s, id, k);
      }
    }
  }

  lemma LoseKeeps(s: Sys, id: nat)
    requires Inv(s) && Enabled(s, Lose(id))
    ensures Inv(Next(s, Lose(id)))
  {
    var p := s.phases[id];
    LeftBehind(s, id);
    CallOf(s, id);
    var t := s.(net := s.net.(loose := s.net.loose + {p.copy}));
    FactsOfCall(t, id, Settling(p.copy, p.ledFrom));
    ShapeOfCall(s, Next(s, Lose(id)), id);
  }

  // ---- Settling ----

  /** A landed request that shares a position with `copy`, which is alone there, shares a ticket. */
  lemma SharesTicket(tickets: map<nat, Entry>, copy: Copy, c: Copy) returns (m: nat)
    requires CopyOk(tickets, c) && Alone(tickets, copy)
    requires c.entry.leader == copy.entry.leader && c.entry.Overlaps(copy.entry)
    ensures m in c.ids && m in copy.ids
  {
    var p := Max(c.entry.at, copy.entry.at);
    assert c.entry.Covers(p);
    m :| m in c.ids && tickets[m].Covers(p);
    assert L.Slice(c.entry, tickets[m]);
    assert tickets[m].Overlaps(copy.entry);
  }

  /** The requests that carry a ticket of a call are the call's. */
  lemma OnlyCall(s: Sys, id: nat, m: nat)
    requires Shape(s) && id in s.phases && Unsettled(s.phases, id) && m in s.phases[id].copy.ids
    ensures Only(s.net, m, s.phases[id].copy)
  {
    InFlightIds(s, id, m);
    assert TouchOk(s.net, s.lanes.flight, s.phases, m);
  }

  /** With a known `led_from`, any write of the uuid held at the request's positions is the request. */
  lemma OnlyRequestHeld(s: Sys, id: nat, e: Entry)
    requires Inv(s) && id in s.phases && s.phases[id].Settling? && s.phases[id].ledFrom.Some?
    requires e in s.j.held && e.leader == s.phases[id].copy.entry.leader && e.Overlaps(s.phases[id].copy.entry)
    ensures e == s.phases[id].copy.entry
  {
    var copy := s.phases[id].copy;
    CallOf(s, id);
    assert Landed(s.net, e);
    var c :| c in s.net.landed && c.entry == e;
    assert CopyOk(s.tickets, c);
    var m := SharesTicket(s.tickets, copy, c);
    OnlyCall(s, id, m);
  }

  lemma ReadBackHolds(s: Sys, id: nat, back: S.ReadAnswer)
    requires Inv(s) && Enabled(s, Event.ReadBack(id, back))
    requires S.ReadBack(s.phases[id].copy.entry, back, s.phases[id].ledFrom).value.Written?
    ensures s.phases[id].copy.entry in s.j.held
  {
    var p := s.phases[id];
    var e := p.copy.entry;
    CallOf(s, id);
    forall x | x in s.j.held && x.leader == e.leader && x.Overlaps(e)
      ensures x == e
    {
      OnlyRequestHeld(s, id, x);
    }
    S.ReadBackWritten(s.j, e, back, p.ledFrom.value);
  }

  lemma ReadBackGone(s: Sys, id: nat, back: S.ReadAnswer)
    requires Inv(s) && Enabled(s, Event.ReadBack(id, back))
    requires S.ReadBack(s.phases[id].copy.entry, back, s.phases[id].ledFrom).value.NotWritten?
    ensures Gone(s.j, s.net, s.phases[id].copy)
  {
    CallOf(s, id);
    S.ReadBackNotWritten(s.j, s.phases[id].copy.entry, back, s.phases[id].ledFrom);
  }

  lemma ReadBackAnswer(s: Sys, id: nat, back: S.ReadAnswer)
    requires Inv(s) && Enabled(s, Event.ReadBack(id, back))
    ensures var p := s.phases[id];
      AnswerOk(s.j, s.seen, s.net, p.copy,
               Resolved(p.copy.entry, S.ReadBack(p.copy.entry, back, p.ledFrom).value))
  {
    var r := S.ReadBack(s.phases[id].copy.entry, back, s.phases[id].ledFrom).value;
    if r.Written? {
      ReadBackHolds(s, id, back);
    } else if r.NotWritten? {
      ReadBackGone(s, id, back);
    }
  }

  lemma ReadBackKeeps(s: Sys, id: nat, back: S.ReadAnswer)
    requires Inv(s) && Enabled(s, Event.ReadBack(id, back))
    ensures Inv(Next(s, Event.ReadBack(id, back)))
  {
    var p := s.phases[id];
    CallOf(s, id);
    ReadBackAnswer(s, id, back);
    var o := Resolved(p.copy.entry, S.ReadBack(p.copy.entry, back, p.ledFrom).value);
    FactsOfCall(s, id, Answered(p.copy, o));
    ShapeOfCall(s, Next(s, Event.ReadBack(id, back)), id);
  }

  /** The answer of a re-send's slot is true of the journal after it. */
  lemma ResendAnswer(j: Journal, seen: set<View>, net: Net, copy: Copy)
    requires Valid(j) && copy.entry.leader in j.led && ViewOf(j.state) in seen
    requires copy in net.landed ==> copy.entry in j.held
    ensures var o := ResendOutcome(j, copy.entry);
      o.Some? ==>
        AnswerOk(Apply(Single, j, Write(copy.entry)).0, seen,
                 NetAfter(j, net, Write(copy.entry), Some(copy)), copy, o.value)
  {
    var e := copy.entry;
    var o := Apply(Single, j, Write(e)).1;
    if o.Accepted? || o.Duplicate? {
      S.ResentWritten(j, e, Again(e, o));
    } else if o.Refused? || o.WrongMode? {
      var r := S.Resent(e, Again(e, o)).value;
      if r.NotWritten? {
        S.ResentNotWritten(j, e, Again(e, o));
      }
    }
  }

  lemma ResendMoves(s: Sys, id: nat)
    requires Inv(s) && id in s.phases && s.phases[id].Settling?
    ensures Facts(DecidedCopy(s, s.phases[id].copy))
  {
    var copy := s.phases[id].copy;
    CallOf(s, id);
    FactsMove(s, Write(copy.entry), Some(copy), id);
    assert DecidedCopy(s, copy) == Moved(s, Write(copy.entry), Some(copy));
  }

  /** A re-send is never answered a plain refusal: that leaves the call unresolved. */
  lemma ResendSettles(s: Sys, id: nat)
    requires Inv(s) && id in s.phases && s.phases[id].Settling?
    ensures var copy := s.phases[id].copy; var t := DecidedCopy(s, copy); var o := ResendOutcome(s.j, copy.entry);
      o.Some? ==> AnswerOk(t.j, s.seen, t.net, copy, o.value) && !o.value.Refused?
  {
    CallOf(s, id);
    ResendAnswer(s.j, s.seen, s.net, s.phases[id].copy);
  }

  lemma ResendFactsKeep(s: Sys, id: nat)
    requires Inv(s) && id in s.phases && s.phases[id].Settling?
    ensures Facts(Resettled(s, id))
  {
    var t := DecidedCopy(s, s.phases[id].copy);
    assert id in s.lanes.flight by {
      CallOf(s, id);
    }
    ResendMoves(s, id);
    ResendSettles(s, id);
    ResendFacts(s, t, id);
  }

  lemma ResendShape(s: Sys, id: nat)
    requires Shape(s) && id in s.phases && s.phases[id].Settling?
    ensures Shape(Resettled(s, id))
  {
    ShapeOfCall(s, Resettled(s, id), id);
  }

  lemma ResendKeeps(s: Sys, id: nat)
    requires Inv(s) && Enabled(s, Resend(id))
    ensures Inv(Next(s, Resend(id)))
  {
    ResendFactsKeep(s, id);
    ResendShape(s, id);
  }

  lemma ResendFacts(s: Sys, t: Sys, id: nat)
    requires Facts(t) && id in s.phases && id in s.lanes.flight && s.phases[id].Settling?
    requires t.phases == s.phases && t.lanes == s.lanes && t.tallies == s.tallies && s.seen <= t.seen
    requires var o := ResendOutcome(s.j, s.phases[id].copy.entry);
      o.Some? ==> AnswerOk(t.j, s.seen, t.net, s.phases[id].copy, o.value) && !o.value.Refused?
    ensures var o := ResendOutcome(s.j, s.phases[id].copy.entry);
      o.Some? ==> Facts(t.(phases := s.phases[id := Answered(s.phases[id].copy, o.value)]))
  {
    var o := ResendOutcome(s.j, s.phases[id].copy.entry);
    if o.Some? {
      assert TallyOk(t.j.state.nextSeq, t.lanes, id, t.phases[id], t.tallies[id]);
      FactsOfCall(t, id, Answered(s.phases[id].copy, o.value));
    }
  }
}
