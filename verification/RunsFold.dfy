/** Folding a call's answer keeps every invariant of a run. */
module RunsFold {
  import opened Common
  import opened Journal
  import opened Runs
  import opened RunsInvariant
  import opened RunsLanes
  import W = Writer
  import L = Lanes

  /** The lanes once the view in `o` is folded in. */
  function Heard(l: L.Lanes, id: nat, o: W.Outcome, mint: Uuid): L.Lanes
    requires id in l.flight
  {
    if L.ViewIn(o).Some? then L.Observe(l, l.flight[id].entry.leader, L.ViewIn(o).value, mint) else l
  }

  lemma HeardKeeps(s: Sys, id: nat, mint: Uuid)
    requires Inv(s) && id in s.phases && s.phases[id].Answered? && Fresh(s, mint) && id in s.lanes.flight
    ensures Inv(Relaned(s, Heard(s.lanes, id, s.phases[id].outcome, mint)))
  {
    var o := s.phases[id].outcome;
    assert PhaseOk(s.j, s.seen, s.net, s.tickets, s.phases[id]);
    if L.ViewIn(o).Some? {
      ObserveKeeps(s, s.lanes.flight[id].entry.leader, L.ViewIn(o).value, mint);
    } else {
      assert s.minted + {s.lanes.writer.mine} == s.minted;
    }
  }

  /** A part of a request is answered by its part of the answer. */
  lemma PartAnswered(j: Journal, seen: set<View>, net: Net, copy: Copy, o: W.Outcome, e: Entry, k: nat)
    requires AnswerOk(j, seen, net, copy, o) && Only(net, k, copy) && L.Slice(copy.entry, e)
    ensures VerdictOk(j, net, e, k, L.PartOf(o, e))
  {
  }

  lemma AnsweredPart(s: Sys, id: nat, m: nat)
    requires Inv(s) && id in s.phases && s.phases[id].Answered? && m in s.phases[id].copy.ids
    ensures m in s.tickets && VerdictOk(s.j, s.net, s.tickets[m], m, L.PartOf(s.phases[id].outcome, s.tickets[m]))
  {
    CallOf(s, id);
    InFlightIds(s, id, m);
    assert TouchOk(s.net, s.lanes.flight, s.phases, m);
    PartAnswered(s.j, s.seen, s.net, s.phases[id].copy, s.phases[id].outcome, s.tickets[m], m);
  }

  lemma AnsweredMayEnd(s: Sys, id: nat)
    requires Inv(s) && id in s.phases && s.phases[id].Answered?
    ensures L.InHand(s.lanes, id) && !s.lanes.flight[id].stage.Carried? && MayEnd(s, id, s.phases[id].outcome)
  {
    assert PhaseMatch(s.lanes, id, s.phases[id]);
    forall m | m in L.Group(s.lanes, id) && m in s.tickets
      ensures VerdictOk(s.j, s.net, s.tickets[m], m, L.PartOf(s.phases[id].outcome, s.tickets[m]))
    {
      AnsweredPart(s, id, m);
    }
  }

  // ---- Written ----

  /** A written group lies below the journal's tail. */
  lemma WrittenBelow(s: Sys, id: nat)
    requires Inv(s) && id in s.phases && s.phases[id].Answered? && s.phases[id].outcome.Written?
    ensures L.InHand(s.lanes, id)
    ensures s.phases[id].outcome.at + s.phases[id].outcome.count <= s.j.state.nextSeq
    ensures forall m :: m in L.Group(s.lanes, id) ==>
      m in s.lanes.flight && s.lanes.flight[m].entry.End() <= s.j.state.nextSeq
  {
    CallOf(s, id);
    assert PhaseMatch(s.lanes, id, s.phases[id]);
    var e := s.phases[id].copy.entry;
    var i :| 0 <= i < |s.j.held| && s.j.held[i] == e;
    TiledBelow(s.j.held, s.j.state.nextSeq, i);
    L.SentTiles(s.lanes, id);
    forall m | m in L.Group(s.lanes, id)
      ensures m in s.lanes.flight && s.lanes.flight[m].entry.End() <= s.j.state.nextSeq
    {
      assert L.Slice(e, s.lanes.flight[m].entry);
    }
  }

  lemma ForwardOk(j: Journal, l: L.Lanes, tickets: map<nat, Entry>, next: nat)
    requires WriterOk(j, l.writer) && W.Tracks(l.writer, tickets) && NoHole(j.state.nextSeq, l)
    requires next <= j.state.nextSeq
    ensures var m := L.Forward(l, next);
      WriterOk(j, m.writer) && W.Tracks(m.writer, tickets) && NoHole(j.state.nextSeq, m)
  {
    var m := L.Forward(l, next);
    forall a, b | a in tickets && b in tickets && a != b
      ensures W.Kept(m.writer, tickets[a], tickets[b])
    {
      assert W.Kept(l.writer, tickets[a], tickets[b]);
    }
    forall p: nat | m.writer.leads && !m.broken && j.state.nextSeq <= p < m.ahead
      ensures Filled(m.flight, m.writer.mine, p)
    {
      assert Filled(l.flight, l.writer.mine, p);
    }
  }

  lemma WrittenLanes(s: Sys, id: nat, l: L.Lanes)
    requires Inv(s) && id in s.phases && s.phases[id].Answered? && s.phases[id].outcome.Written?
    requires l == L.Forward(s.lanes, s.phases[id].outcome.at + s.phases[id].outcome.count)
    ensures L.Inv(l) && WriterOk(s.j, l.writer) && W.Tracks(l.writer, s.tickets) && l.writer.mine in s.minted
    ensures NoHole(s.j.state.nextSeq, l) && id in l.flight && LeavesNoHole(s.j.state.nextSeq, l, id)
    ensures l == s.lanes.(writer := l.writer, ahead := l.ahead, broken := l.broken)
  {
    var o := s.phases[id].outcome;
    WrittenBelow(s, id);
    L.ForwardKeeps(s.lanes, o.at + o.count);
    ForwardOk(s.j, s.lanes, s.tickets, o.at + o.count);
  }

  lemma WrittenKeeps(s: Sys, id: nat)
    requires Inv(s) && id in s.phases && s.phases[id].Answered? && s.phases[id].outcome.Written?
    ensures var o := s.phases[id].outcome; var l := L.Forward(s.lanes, o.at + o.count);
      L.InHand(l, id) && L.InHand(s.lanes, id) && Inv(Ended(s, id, o, L.Settle(l, id, o)))
  {
    var o := s.phases[id].outcome;
    var l := L.Forward(s.lanes, o.at + o.count);
    AnsweredMayEnd(s, id);
    WrittenLanes(s, id, l);
    EndKeeps(s, id, o, l);
  }

  // ---- Failed ----

  /** `t` is `s` with the view heard; `current` says whether the write was of the writer's term before. */
  lemma FailedKeeps(t: Sys, id: nat, current: bool)
    requires Inv(t) && id in t.phases && t.phases[id].Answered?
    requires !current ==> t.lanes.writer.Owner() != Some(t.phases[id].copy.entry.leader)
    ensures var o := t.phases[id].outcome; var l := L.Break(t.lanes, current);
      L.InHand(l, id) && L.InHand(t.lanes, id) && Inv(Ended(t, id, o, L.Settle(l, id, o)))
  {
    var o := t.phases[id].outcome;
    var l := L.Break(t.lanes, current);
    CallOf(t, id);
    assert PhaseMatch(t.lanes, id, t.phases[id]);
    AnsweredMayEnd(t, id);
    L.BreakKeeps(t.lanes, current);
    GroupLeader(t.lanes, id);
    EndKeeps(t, id, o, l);
  }

  // ---- Early ----

  /** A call whose request was never under way touched none of its tickets. */
  lemma NothingUnderWay(s: Sys, id: nat, m: nat)
    requires Inv(s) && id in s.phases && s.phases[id].Answered? && m in s.phases[id].copy.ids
    requires Unproposed(s.phases[id].outcome) || s.phases[id].outcome.Refused?
    ensures Untouched(s.net, m)
  {
    InFlightIds(s, id, m);
    assert TouchOk(s.net, s.lanes.flight, s.phases, m);
    assert PhaseOk(s.j, s.seen, s.net, s.tickets, s.phases[id]);
  }

  ghost predicate Marked(l: L.Lanes, m: L.Lanes, id: nat, view: View) {
    id in l.flight && m == l.(flight := l.flight[id := l.flight[id].(early := Some(view))])
  }

  lemma EarlyTouches(s: Sys, f: L.Flight, id: nat)
    requires Inv(s) && id in s.phases && s.phases[id].Answered? && s.phases[id].outcome.Refused?
    requires f.Keys == s.lanes.flight.Keys
    requires forall k {:trigger f[k]} :: k in f ==> f[k].stage == s.lanes.flight[k].stage
    ensures TouchesOk(s.net, f, s.phases[id := Waiting(s.phases[id].copy)])
  {
    var phases := s.phases[id := Waiting(s.phases[id].copy)];
    assert PhaseMatch(s.lanes, id, s.phases[id]);
    forall k | k in f
      ensures TouchOk(s.net, f, phases, k)
    {
      assert TouchOk(s.net, s.lanes.flight, s.phases, k);
      assert L.Good(s.lanes, k);
      if LeadOf(f, k) == id {
        NothingUnderWay(s, id, k);
      }
    }
  }

  lemma EarlyMatches(s: Sys, l: L.Lanes, id: nat, view: View)
    requires Inv(s) && id in s.phases && Marked(s.lanes, l, id, view)
    ensures PhasesMatch(l, s.phases[id := Waiting(s.phases[id].copy)])
  {
    var phases := s.phases[id := Waiting(s.phases[id].copy)];
    forall k | k in phases
      ensures PhaseMatch(l, k, phases[k])
    {
      assert PhaseMatch(s.lanes, k, s.phases[k]);
      CopyFrame(s.lanes, l, k);
    }
    forall k | k in l.flight && l.flight[k].stage == L.Sending
      ensures k in phases
    {
      assert s.lanes.flight[k].stage == L.Sending;
    }
  }

  lemma EarlyShape(s: Sys, l: L.Lanes, id: nat, view: View)
    requires Inv(s) && L.Inv(l) && id in s.phases && s.phases[id].Answered? && s.phases[id].outcome.Refused?
    requires Marked(s.lanes, l, id, view)
    ensures Shape(s.(lanes := l, phases := s.phases[id := Waiting(s.phases[id].copy)]))
  {
    EarlyTouches(s, l.flight, id);
    EarlyMatches(s, l, id, view);
  }

  /** The send goes early once: a second time its position is below a tail the writer knew. */
  lemma EarlyOnce(s: Sys, id: nat)
    requires Inv(s) && id in s.phases && s.phases[id].Answered? && s.phases[id].outcome.Refused?
    requires id in s.lanes.flight && s.phases[id].outcome.view.nextSeq < s.lanes.flight[id].entry.at
    ensures s.tallies[id].early == 0 && s.tallies[id].asks == s.tallies[id].apart + 1
  {
    CallOf(s, id);
    assert PhaseMatch(s.lanes, id, s.phases[id]);
  }

  lemma EarlyFacts(s: Sys, l: L.Lanes, id: nat, view: View)
    requires Inv(s) && id in s.phases && id in s.lanes.flight && Marked(s.lanes, l, id, view)
    requires s.tallies[id].early == 0 && s.tallies[id].asks == s.tallies[id].apart + 1
    ensures var tally := s.tallies[id];
      Facts(s.(lanes := l, phases := s.phases[id := Waiting(s.phases[id].copy)],
               tallies := s.tallies[id := tally.(early := tally.early + 1)]))
  {
    var phases := s.phases[id := Waiting(s.phases[id].copy)];
    var tallies := s.tallies[id := s.tallies[id].(early := s.tallies[id].early + 1)];
    HoleFrame(s.j.state.nextSeq, s.lanes, l);
    forall k | k in phases
      ensures PhaseOk(s.j, s.seen, s.net, s.tickets, phases[k])
    {
      assert PhaseOk(s.j, s.seen, s.net, s.tickets, s.phases[k]);
    }
    forall k | k in phases && k in l.flight
      ensures TallyOk(s.j.state.nextSeq, l, k, phases[k], tallies[k])
    {
      assert TallyOk(s.j.state.nextSeq, s.lanes, k, s.phases[k], s.tallies[k]);
    }
  }

  // ---- Apart ----

  /** How taking `id`'s write apart changed write `k` that stayed. */
  ghost predicate PartedAs(f: L.Flight, g: L.Flight, id: nat, k: nat)
    requires k in f && k in g && id in f
  {
    && g[k].entry == f[k].entry && g[k].early == f[k].early && (f[k].alone ==> g[k].alone)
    && (k == id ==> g[k].stage == f[k].stage && g[k].carries == [] && g[k].alone)
    && (k != id && k in f[id].carries ==> g[k].stage == L.Ready && g[k].carries == f[k].carries)
    && (k != id && k !in f[id].carries ==> g[k] == f[k])
  }

  ghost predicate PartedTo(f: L.Flight, g: L.Flight, id: nat) {
    && id in f && id in g && g.Keys <= f.Keys
    && (forall k {:trigger g[k]} :: k in g ==> PartedAs(f, g, id, k))
    && (forall k {:trigger f[k]} :: k in f && k !in f[id].carries ==> k in g)
  }

  lemma TakeApartParts(l: L.Lanes, id: nat)
    requires L.InHand(l, id)
    ensures PartedTo(l.flight, L.TakeApart(l, id).flight, id)
  {
  }

  lemma ApartCalls(s: Sys, l: L.Lanes, id: nat)
    requires Shape(s) && L.Inv(l) && id in s.phases && PartedTo(s.lanes.flight, l.flight, id)
    ensures var phases := s.phases - {id};
      && (forall k {:trigger PhaseMatch(l, k, phases[k])} :: k in phases ==> PhaseMatch(l, k, phases[k]))
      && (forall k {:trigger l.flight[k]} :: k in l.flight && l.flight[k].stage == L.Sending && k != id ==> k in phases)
  {
    var phases := s.phases - {id};
    assert L.Good(s.lanes, id);
    forall k | k in phases
      ensures PhaseMatch(l, k, phases[k])
    {
      assert PhaseMatch(s.lanes, k, s.phases[k]);
      assert s.lanes.flight[k].stage == L.Sending;
      assert k in l.flight && PartedAs(s.lanes.flight, l.flight, id, k);
      assert L.Good(l, k);
      forall i | i in s.lanes.flight[k].carries
        ensures i in l.flight && l.flight[i].entry == s.lanes.flight[i].entry
      {
        assert PartedAs(s.lanes.flight, l.flight, id, i);
      }
      CopyFrame(s.lanes, l, k);
    }
    forall k | k in l.flight && l.flight[k].stage == L.Sending && k != id
      ensures k in phases
    {
      assert PartedAs(s.lanes.flight, l.flight, id, k);
      assert s.lanes.flight[k].stage == L.Sending;
    }
  }

  lemma ApartTouches(s: Sys, g: L.Flight, id: nat)
    requires Inv(s) && id in s.phases && s.phases[id].Answered? && Unproposed(s.phases[id].outcome)
    requires PartedTo(s.lanes.flight, g, id)
    ensures TouchesOk(s.net, g, s.phases - {id})
  {
    assert PhaseMatch(s.lanes, id, s.phases[id]);
    forall k | k in g
      ensures TouchOk(s.net, g, s.phases - {id}, k)
    {
      assert PartedAs(s.lanes.flight, g, id, k);
      if k in s.phases[id].copy.ids {
        NothingUnderWay(s, id, k);
        PartedAlone(s, g, id, k);
      } else {
        assert TouchOk(s.net, s.lanes.flight, s.phases, k);
        assert L.Good(s.lanes, k);
      }
    }
  }

  lemma PartedAlone(s: Sys, g: L.Flight, id: nat, k: nat)
    requires Shape(s) && id in s.phases && PartedTo(s.lanes.flight, g, id) && k in g && k in s.phases[id].copy.ids
    ensures LeadOf(g, k) == k && (k in s.phases ==> k == id)
  {
    assert PhaseMatch(s.lanes, id, s.phases[id]);
    assert PartedAs(s.lanes.flight, g, id, k);
    assert L.Good(s.lanes, id);
    if k in s.phases {
      assert PhaseMatch(s.lanes, k, s.phases[k]);
    }
  }

  lemma ApartHole(tail: nat, l: L.Lanes, id: nat)
    requires L.Inv(l) && L.InHand(l, id) && NoHole(tail, l)
    ensures NoHole(tail, L.TakeApart(l, id))
  {
    var m := L.TakeApart(l, id);
    TakeApartParts(l, id);
    GroupLeader(l, id);
    forall p: nat | m.writer.leads && !m.broken && tail <= p < m.ahead
      ensures Filled(m.flight, m.writer.mine, p)
    {
      assert Filled(l.flight, l.writer.mine, p);
      var k :| k in l.flight && l.flight[k].entry.leader == l.writer.mine && l.flight[k].entry.Covers(p);
      StaysUnbroken(l, id, k);
      assert m.flight[k].entry.Covers(p);
    }
  }

  /** A write of the writer's term leaves with its merge only if the pipeline breaks. */
  lemma StaysUnbroken(l: L.Lanes, id: nat, k: nat)
    requires L.Inv(l) && L.InHand(l, id) && k in l.flight && l.flight[k].entry.leader == l.writer.mine && l.writer.leads
    requires !L.TakeApart(l, id).broken
    ensures k in L.TakeApart(l, id).flight && L.TakeApart(l, id).flight[k].entry == l.flight[k].entry
  {
    GroupLeader(l, id);
    assert k in l.flight[id].carries ==> k in L.Group(l, id);
    var gone := set m | m in l.flight[id].carries && l.flight[m].dropped && m != id;
    assert k in gone ==> gone != {};
  }

  lemma ApartFacts(s: Sys, id: nat)
    requires Inv(s) && L.InHand(s.lanes, id)
    ensures var l := L.TakeApart(s.lanes, id);
      Facts(s.(lanes := l, phases := s.phases - {id})) && Known(l, s.tickets) && VerdictsMatch(l, s.verdicts)
  {
    var l := L.TakeApart(s.lanes, id);
    var phases := s.phases - {id};
    TakeApartParts(s.lanes, id);
    ApartHole(s.j.state.nextSeq, s.lanes, id);
    forall k | k in l.flight
      ensures k in s.lanes.flight && l.flight[k].entry == s.lanes.flight[k].entry
      ensures s.lanes.flight[k].alone ==> l.flight[k].alone
    {
      assert PartedAs(s.lanes.flight, l.flight, id, k);
    }
    forall k | k in phases
      ensures PhaseOk(s.j, s.seen, s.net, s.tickets, phases[k])
    {
      assert PhaseOk(s.j, s.seen, s.net, s.tickets, s.phases[k]);
    }
    forall k | k in phases && k in l.flight
      ensures TallyOk(s.j.state.nextSeq, l, k, phases[k], s.tallies[k])
    {
      assert TallyOk(s.j.state.nextSeq, s.lanes, k, s.phases[k], s.tallies[k]);
    }
  }

  lemma ApartPoised(s: Sys, id: nat)
    requires Inv(s) && L.InHand(s.lanes, id) && id in s.phases && s.phases[id].Answered?
    requires Unproposed(s.phases[id].outcome) && s.lanes.flight[id].carries != []
    ensures Poised(s.(lanes := L.TakeApart(s.lanes, id), phases := s.phases - {id}), id)
  {
    var l := L.TakeApart(s.lanes, id);
    assert PhaseMatch(s.lanes, id, s.phases[id]);
    L.TakeApartKeeps(s.lanes, id);
    TakeApartParts(s.lanes, id);
    ApartFacts(s, id);
    ApartCalls(s, l, id);
    ApartTouches(s, l.flight, id);
    assert PartedAs(s.lanes.flight, l.flight, id, id);
  }

  /** The send comes apart once: a write taken apart is alone for good. */
  lemma ApartOnce(s: Sys, id: nat)
    requires Inv(s) && id in s.phases && s.phases[id].Answered? && id in s.lanes.flight
    requires s.lanes.flight[id].carries != []
    ensures s.tallies[id].apart == 0 && s.tallies[id].early <= 1 && s.tallies[id].asks == s.tallies[id].early + 1
    ensures s.tallies[id].early == 1 ==> s.lanes.flight[id].entry.at <= s.j.state.nextSeq
  {
    CallOf(s, id);
    assert L.Good(s.lanes, id);
    assert PhaseMatch(s.lanes, id, s.phases[id]);
  }

  /** The pipeline with `id`'s merge taken apart and its call not made yet. */
  function ApartNow(s: Sys, id: nat): Sys
    requires L.InHand(s.lanes, id)
  {
    s.(lanes := L.TakeApart(s.lanes, id), phases := s.phases - {id})
  }

  function ApartTally(t: Tally): Tally { t.(asks := t.asks + 1, apart := t.apart + 1) }

  lemma ApartKeeps(s: Sys, id: nat)
    requires Inv(s) && L.InHand(s.lanes, id) && id in s.phases && s.phases[id].Answered?
    requires Unproposed(s.phases[id].outcome) && s.lanes.flight[id].carries != [] && id in s.tallies
    ensures L.InHand(ApartNow(s, id).lanes, id) && Inv(Ask(ApartNow(s, id), id, ApartTally(s.tallies[id])))
  {
    ApartOnce(s, id);
    ApartPoised(s, id);
    TakeApartParts(s.lanes, id);
    var t := ApartNow(s, id);
    assert PartedAs(s.lanes.flight, t.lanes.flight, id, id);
    AskKeeps(t, id, ApartTally(s.tallies[id]));
  }

  // ---- All of it ----

  /** The state a fold starts from: the call of `id` is answered and its view heard. */
  ghost predicate Folding(s: Sys, id: nat) {
    && id in s.phases && id in s.tallies && s.phases[id].Answered?
    && L.InHand(s.lanes, id) && s.lanes.writer.mine in s.minted
  }

  lemma ApartAsks(s: Sys, t: Sys, id: nat, tally: Tally)
    requires L.InHand(s.lanes, id) && t == s.(phases := s.phases - {id})
    ensures Ask(s, id, tally) == Ask(t, id, tally)
  {
    assert Ask(s, id, tally).phases == Ask(t, id, tally).phases;
  }

  lemma FoldedApart(s: Sys, id: nat, mint: Uuid)
    requires Folding(s, id) && s.phases[id].outcome.TooLarge? && s.lanes.flight[id].carries != []
    requires L.InHand(L.TakeApart(s.lanes, id), id)
    ensures Folded(s, id, mint) == Ask(ApartNow(s, id), id, ApartTally(s.tallies[id]))
  {
    assert s.minted + {s.lanes.writer.mine} == s.minted;
    assert L.TakeApart(s.lanes, id).writer == s.lanes.writer;
    ApartAsks(s.(lanes := L.TakeApart(s.lanes, id)), ApartNow(s, id), id, ApartTally(s.tallies[id]));
  }

  lemma FoldedWritten(s: Sys, id: nat, mint: Uuid)
    requires Folding(s, id) && s.phases[id].outcome.Written?
    ensures var o := s.phases[id].outcome; var l := L.Forward(s.lanes, o.at + o.count);
      L.InHand(l, id) && Folded(s, id, mint) == Ended(s, id, o, L.Settle(l, id, o))
  {
    assert s.minted + {s.lanes.writer.mine} == s.minted;
  }

  lemma FoldedFailed(s: Sys, id: nat, mint: Uuid)
    requires Folding(s, id) && !s.phases[id].outcome.Written?
    requires L.Fold(s.lanes, id, s.phases[id].outcome, mint).1.Done?
    ensures var o := s.phases[id].outcome;
      var t := Relaned(s, Heard(s.lanes, id, o, mint));
      var l := L.Break(t.lanes, s.lanes.writer.Owner() == Some(s.lanes.flight[id].entry.leader));
      L.InHand(l, id) && L.InHand(t.lanes, id) && Folded(s, id, mint) == Ended(t, id, o, L.Settle(l, id, o))
  {
  }

  lemma FoldedEarly(s: Sys, id: nat, mint: Uuid)
    requires Folding(s, id) && L.Fold(s.lanes, id, s.phases[id].outcome, mint).1.Early?
    ensures var o := s.phases[id].outcome; var t := Relaned(s, Heard(s.lanes, id, o, mint));
      var l := L.Fold(s.lanes, id, o, mint).0;
      && o.Refused? && o.view.nextSeq < s.lanes.flight[id].entry.at && t.phases == s.phases && id in t.tallies
      && Marked(t.lanes, l, id, o.view)
      && Folded(s, id, mint) == EarlyTo(t, l, id)
  {
  }

  /** The call of `id` waits, with the lanes `l`. */
  function EarlyTo(t: Sys, l: L.Lanes, id: nat): Sys
    requires id in t.phases && id in t.tallies
  {
    t.(lanes := l, phases := t.phases[id := Waiting(t.phases[id].copy)],
       tallies := t.tallies[id := t.tallies[id].(early := t.tallies[id].early + 1)])
  }

  lemma EarlyKeeps(t: Sys, l: L.Lanes, id: nat, view: View)
    requires Inv(t) && L.Inv(l) && id in t.phases && id in t.tallies
    requires t.phases[id].Answered? && t.phases[id].outcome.Refused? && t.phases[id].outcome.view == view
    requires Marked(t.lanes, l, id, view) && view.nextSeq < t.lanes.flight[id].entry.at
    ensures Inv(EarlyTo(t, l, id))
  {
    EarlyOnce(t, id);
    EarlyShape(t, l, id, view);
    EarlyFacts(t, l, id, view);
  }

  lemma FoldEarly(s: Sys, id: nat, mint: Uuid)
    requires Inv(s) && Folding(s, id) && Fresh(s, mint) && L.Fold(s.lanes, id, s.phases[id].outcome, mint).1.Early?
    ensures Inv(Folded(s, id, mint))
  {
    var o := s.phases[id].outcome;
    var t := Relaned(s, Heard(s.lanes, id, o, mint));
    var l := L.Fold(s.lanes, id, o, mint).0;
    assert L.Inv(l) by {
      assert PhaseMatch(s.lanes, id, s.phases[id]);
      L.FoldKeeps(s.lanes, id, o, mint);
    }
    assert Inv(t) by {
      HeardKeeps(s, id, mint);
    }
    FoldedEarly(s, id, mint);
    EarlyKeeps(t, l, id, o.view);
  }

  lemma FoldFailed(s: Sys, id: nat, mint: Uuid)
    requires Inv(s) && Folding(s, id) && Fresh(s, mint) && L.Fold(s.lanes, id, s.phases[id].outcome, mint).1.Done?
    requires !s.phases[id].outcome.Written?
    ensures Inv(Folded(s, id, mint))
  {
    HeardKeeps(s, id, mint);
    FoldedFailed(s, id, mint);
    assert PhaseMatch(s.lanes, id, s.phases[id]);
    var t := Relaned(s, Heard(s.lanes, id, s.phases[id].outcome, mint));
    FailedKeeps(t, id, s.lanes.writer.Owner() == Some(s.lanes.flight[id].entry.leader));
  }

  lemma FoldKeeps(s: Sys, id: nat, mint: Uuid)
    requires Inv(s) && Folding(s, id) && Fresh(s, mint)
    requires L.Fold(s.lanes, id, s.phases[id].outcome, mint).1.Apart? ==>
      L.InHand(L.Fold(s.lanes, id, s.phases[id].outcome, mint).0, id)
    ensures Inv(Folded(s, id, mint))
  {
    var folded := L.Fold(s.lanes, id, s.phases[id].outcome, mint).1;
    if folded.Apart? {
      ApartKeeps(s, id);
      FoldedApart(s, id, mint);
    } else if folded.Early? {
      FoldEarly(s, id, mint);
    } else if s.phases[id].outcome.Written? {
      WrittenKeeps(s, id);
      FoldedWritten(s, id, mint);
    } else {
      FoldFailed(s, id, mint);
    }
  }
}
