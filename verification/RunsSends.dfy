/**
  The sends that drive a pipeline. Each ticket is opened, then sent once; a send
  starts, leads or is carried, and ends, collects its verdict or is dropped. What a
  send asks of the lanes is always allowed: no assertion of theirs can fail.
  */
module RunsSends {
  import opened Common
  import opened Journal
  import opened Runs
  import opened RunsInvariant
  import opened RunsTheorems
  import W = Writer
  import L = Lanes

  /** The tickets opened and not sent yet, and the sends started that neither ended nor were dropped. */
  datatype Driven = Driven(sys: Sys, unsent: set<nat>, started: set<nat>)

  /** The ticket's send has not started. */
  ghost predicate Pending(l: L.Lanes, k: nat) { k in l.flight && l.flight[k].stage == L.Opened }

  /** The ticket's send started: its verdict waits for it, or its write is in flight and not given up. */
  ghost predicate Live(l: L.Lanes, k: nat) {
    k in l.done || (k in l.flight && l.flight[k].stage != L.Opened && !l.flight[k].dropped)
  }

  /** The change leaves the send of ticket `k` where it stood. */
  ghost predicate Leaves(l: L.Lanes, m: L.Lanes, k: nat) {
    (Pending(l, k) ==> Pending(m, k)) && (Live(l, k) ==> Live(m, k))
  }

  // ---- The operations of the lanes ----

  lemma SettleLeaves(l: L.Lanes, id: nat, o: W.Outcome, k: nat)
    requires L.InHand(l, id) && L.Carries(l.flight, id) && k != id
    ensures Leaves(l, L.Settle(l, id, o), k)
  {
  }

  lemma TakeApartLeaves(l: L.Lanes, id: nat, k: nat)
    requires L.InHand(l, id) && L.Carries(l.flight, id)
    ensures Leaves(l, L.TakeApart(l, id), k)
  {
  }

  lemma FoldLeaves(l: L.Lanes, id: nat, o: W.Outcome, mint: Uuid, k: nat)
    requires L.InHand(l, id) && L.Carries(l.flight, id)
    requires k == id ==> !L.Fold(l, id, o, mint).1.Done?
    ensures Leaves(l, L.Fold(l, id, o, mint).0, k)
  {
    var seen := if L.ViewIn(o).Some? then L.Observe(l, l.flight[id].entry.leader, L.ViewIn(o).value, mint) else l;
    assert seen.flight == l.flight && seen.done == l.done;
    if o.TooLarge? && l.flight[id].carries != [] {
      TakeApartLeaves(seen, id, k);
    } else if k != id && o.Written? {
      SettleLeaves(L.Forward(seen, o.at + o.count), id, o, k);
    } else if k != id && L.Fold(l, id, o, mint).1.Done? {
      SettleLeaves(L.Break(seen, l.writer.Owner() == Some(l.flight[id].entry.leader)), id, o, k);
    }
  }

  lemma ResumeLeaves(l: L.Lanes, id: nat, k: nat)
    requires L.InHand(l, id) && L.Carries(l.flight, id) && l.flight[id].early.Some?
    requires k == id ==> !L.Resume(l, id).1.Finished?
    ensures Leaves(l, L.Resume(l, id).0, k)
  {
    if L.Resume(l, id).1.Finished? {
      var current := l.writer.Owner() == Some(l.flight[id].entry.leader);
      SettleLeaves(L.Break(l, current), id, W.Refused(l.flight[id].early.value), k);
    }
  }

  lemma AbandonLeaves(l: L.Lanes, id: nat, k: nat)
    requires id in l.flight ==> L.InHand(l, id) && L.Carries(l.flight, id)
    requires k != id
    ensures Leaves(l, L.Abandon(l, id), k)
  {
    if id in l.flight && !l.flight[id].stage.Carried? {
      SettleLeaves(L.Break(l, l.writer.Owner() == Some(l.flight[id].entry.leader)), id, W.Ambiguous, k);
    }
  }

  lemma LeadLeaves(l: L.Lanes, id: nat, c: seq<nat>, k: nat)
    requires L.Joinable(l, id, c)
    ensures Leaves(l, L.Lead(l, id, c), k)
  {
  }

  // ---- Every step ----

  /** The ticket whose send the step starts or ends, if any. */
  ghost predicate Takes(s: Sys, ev: Event, k: nat)
    requires Enabled(s, ev)
  {
    match ev
    case Start(id) => k == id
    case Drop(id) => k == id
    case Collect(id) => k == id
    case Fold(id, mint) => k == id && L.Fold(s.lanes, id, s.phases[id].outcome, mint).1.Done?
    case Resume(id) => k == id && L.Resume(s.lanes, id).1.Finished?
    case _ => false
  }

  lemma QuietLeaves(s: Sys, ev: Event, k: nat)
    requires Enabled(s, ev)
    requires ev.Decide? || ev.Deliver? || ev.NoProposal? || ev.Judge? || ev.Lose? || ev.ReadBack? || ev.Resend?
             || ev.GiveUp?
    ensures Leaves(s.lanes, Next(s, ev).lanes, k)
  {
    assert Next(s, ev).lanes == s.lanes;
  }

  lemma ObserveLeaves(l: L.Lanes, leader: Uuid, view: View, mint: Uuid, k: nat)
    ensures Leaves(l, L.Observe(l, leader, view, mint), k)
  {
  }

  lemma ClaimedLeaves(l: L.Lanes, uuid: Uuid, claim: W.Claim, mint: Uuid, k: nat)
    ensures Leaves(l, L.Claimed(l, uuid, claim, mint), k)
  {
  }

  lemma BeginClaimLeaves(l: L.Lanes, anew: bool, mint: Uuid, k: nat)
    ensures Leaves(l, L.BeginClaim(l, anew, mint), k)
  {
  }

  lemma StartLeaves(l: L.Lanes, id: nat, k: nat)
    requires id in l.flight && k != id
    ensures Leaves(l, L.Start(l, id), k)
  {
  }

  lemma CollectLeaves(l: L.Lanes, id: nat, k: nat)
    requires k != id
    ensures Leaves(l, l.(done := l.done - {id}), k)
  {
  }

  lemma OpenLeaves(s: Sys, records: seq<Value>, k: nat)
    requires Inv(s) && Enabled(s, Event.Open(records))
    ensures Leaves(s.lanes, Next(s, Event.Open(records)).lanes, k)
  {
    L.OpenKeeps(s.lanes, records);
  }

  lemma FoldStepLeaves(s: Sys, id: nat, mint: Uuid, k: nat)
    requires Inv(s) && Enabled(s, Event.Fold(id, mint)) && !Takes(s, Event.Fold(id, mint), k)
    ensures Leaves(s.lanes, Next(s, Event.Fold(id, mint)).lanes, k)
  {
    assert L.Good(s.lanes, id);
    FoldLeaves(s.lanes, id, s.phases[id].outcome, mint, k);
  }

  lemma ResumeStepLeaves(s: Sys, id: nat, k: nat)
    requires Inv(s) && Enabled(s, Event.Resume(id)) && !Takes(s, Event.Resume(id), k)
    ensures Leaves(s.lanes, Next(s, Event.Resume(id)).lanes, k)
  {
    assert L.Good(s.lanes, id);
    ResumeLeaves(s.lanes, id, k);
  }

  lemma DropStepLeaves(s: Sys, id: nat, k: nat)
    requires Inv(s) && Enabled(s, Event.Drop(id)) && k != id
    ensures Leaves(s.lanes, Next(s, Event.Drop(id)).lanes, k)
  {
    assert id in s.lanes.flight ==> L.Good(s.lanes, id);
    AbandonLeaves(s.lanes, id, k);
  }

  lemma SendStepLeaves(s: Sys, ev: Event, k: nat)
    requires Inv(s) && Enabled(s, ev) && !Takes(s, ev, k)
    requires ev.Lead? || ev.Fold? || ev.Resume? || ev.Drop?
    ensures Leaves(s.lanes, Next(s, ev).lanes, k)
  {
    match ev
    case Lead(id, load) => LeadLeaves(s.lanes, id, load, k);
    case Fold(id, mint) => FoldStepLeaves(s, id, mint, k);
    case Resume(id) => ResumeStepLeaves(s, id, k);
    case Drop(id) => DropStepLeaves(s, id, k);
  }

  lemma TicketStepLeaves(s: Sys, ev: Event, k: nat)
    requires Inv(s) && Enabled(s, ev) && !Takes(s, ev, k) && (ev.Open? || ev.Start? || ev.Collect?)
    ensures Leaves(s.lanes, Next(s, ev).lanes, k)
  {
    match ev
    case Open(records) => OpenLeaves(s, records, k);
    case Start(id) => StartLeaves(s.lanes, id, k);
    case Collect(id) => CollectLeaves(s.lanes, id, k);
  }

  lemma WriterStepLeaves(s: Sys, ev: Event, k: nat)
    requires Enabled(s, ev) && (ev.BeginClaim? || ev.Claimed? || ev.Observe?)
    ensures Leaves(s.lanes, Next(s, ev).lanes, k)
  {
    match ev
    case BeginClaim(anew, mint) => BeginClaimLeaves(s.lanes, anew, mint, k);
    case Claimed(uuid, claim, mint) => ClaimedLeaves(s.lanes, uuid, claim, mint, k);
    case Observe(leader, view, mint) => ObserveLeaves(s.lanes, leader, view, mint, k);
  }

  /** A step leaves the send of every ticket but its own where it stood. */
  lemma StepLeaves(s: Sys, ev: Event, k: nat)
    requires Inv(s) && Enabled(s, ev) && !Takes(s, ev, k)
    ensures Leaves(s.lanes, Next(s, ev).lanes, k)
  {
    if ev.Open? || ev.Start? || ev.Collect? {
      TicketStepLeaves(s, ev, k);
    } else if ev.BeginClaim? || ev.Claimed? || ev.Observe? {
      WriterStepLeaves(s, ev, k);
    } else if ev.Lead? || ev.Fold? || ev.Resume? || ev.Drop? {
      SendStepLeaves(s, ev, k);
    } else {
      QuietLeaves(s, ev, k);
    }
  }

  // ---- Runs ----

  /** What the callers do: a ticket is sent once, and only a send that started leads, collects or is dropped. */
  ghost predicate Allowed(d: Driven, ev: Event) {
    && Enabled(d.sys, ev)
    && match ev
       case Start(id) => id in d.unsent
       case Lead(id, _) => id in d.started
       case Collect(id) => id in d.started
       case Drop(id) => id in d.started
       case _ => true
  }

  ghost function Drive(d: Driven, ev: Event): Driven
    requires Enabled(d.sys, ev)
  {
    Driven(
      Next(d.sys, ev),
      if ev.Open? then d.unsent + {d.sys.lanes.nextId} else set k | k in d.unsent && !Takes(d.sys, ev, k),
      if ev.Start? then d.started + {ev.id} else set k | k in d.started && !Takes(d.sys, ev, k))
  }

  ghost predicate Drives(d: Driven, events: seq<Event>)
    decreases |events|
  {
    events == [] || (Allowed(d, events[0]) && Drives(Drive(d, events[0]), events[1..]))
  }

  ghost function DrivenTo(d: Driven, events: seq<Event>): Driven
    requires Drives(d, events)
    decreases |events|
  {
    if events == [] then d else DrivenTo(Drive(d, events[0]), events[1..])
  }

  ghost predicate Begins(d: Driven) { Init(d.sys) && d.unsent == {} && d.started == {} }

  ghost predicate Sends(d: Driven) {
    && (forall k :: k in d.unsent ==> Pending(d.sys.lanes, k))
    && (forall k :: k in d.started ==> Live(d.sys.lanes, k))
  }

  lemma DriveKeeps(d: Driven, ev: Event)
    requires Inv(d.sys) && Sends(d) && Allowed(d, ev)
    ensures Inv(Drive(d, ev).sys) && Sends(Drive(d, ev))
  {
    var t := Drive(d, ev);
    NextKeeps(d.sys, ev);
    forall k | k in t.unsent
      ensures Pending(t.sys.lanes, k)
    {
      if k in d.unsent && !Takes(d.sys, ev, k) {
        StepLeaves(d.sys, ev, k);
      }
    }
    forall k | k in t.started
      ensures Live(t.sys.lanes, k)
    {
      if k in d.started && !Takes(d.sys, ev, k) {
        StepLeaves(d.sys, ev, k);
      } else {
        assert L.Good(d.sys.lanes, k);
      }
    }
  }

  lemma {:induction false} DrivesKeep(d: Driven, events: seq<Event>)
    requires Inv(d.sys) && Sends(d) && Drives(d, events)
    ensures Inv(DrivenTo(d, events).sys) && Sends(DrivenTo(d, events))
    decreases |events|
  {
    if events != [] {
      DriveKeeps(d, events[0]);
      DrivesKeep(Drive(d, events[0]), events[1..]);
    }
  }

  /**
    What `send` asks of the lanes is always allowed, in every run of the callers. A
    ticket not sent yet is in flight, and may get ready. A send that started and does
    not lead finds its verdict, or its write ready to lead or carried by a write that
    is sent. One that leads folds an answer its write awaits, resumes only an early
    write, and sends it again unchanged.
    */
  lemma SendIsAllowed(d: Driven, events: seq<Event>, k: nat)
    requires Begins(d) && Drives(d, events)
    ensures var t := DrivenTo(d, events); var l := t.sys.lanes;
      && L.Inv(l)
      && (k in t.unsent ==> k in l.flight && l.flight[k].stage == L.Opened)
      && (k in t.started && k !in t.sys.phases ==>
            k in l.done || (k in l.flight && (l.flight[k].stage == L.Ready || l.flight[k].stage.Carried?)))
      && (k in t.sys.phases ==>
            var p := t.sys.phases[k];
            && L.InHand(l, k) && l.flight[k].stage == L.Sending
            && (p.Answered? ==> L.Answering(l, k, p.outcome))
            && (p.Waiting? ==> l.flight[k].early.Some?)
            && (p.Waiting? && L.Resume(l, k).1.Send? ==> L.Resume(l, k).1.entry == p.copy.entry))
  {
    InitInv(d.sys);
    DrivesKeep(d, events);
    var t := DrivenTo(d, events);
    if k in t.sys.phases {
      CallIsAllowed(t.sys, k);
    } else if k in t.started && k in t.sys.lanes.flight {
      assert t.sys.lanes.flight[k].stage == L.Sending ==> k in t.sys.phases;
    }
  }

  /** And a send that leads next can: what it then sends is a step the lanes allow. */
  lemma StartedMoves(d: Driven, k: nat) returns (load: seq<nat>)
    requires Inv(d.sys) && Sends(d) && k in d.started
    requires k !in d.sys.lanes.done && d.sys.lanes.flight[k].stage == L.Ready
    ensures Allowed(d, Event.Lead(k, load))
  {
    var ev := ReadyMoves(d.sys, k);
    load := ev.load;
  }
}
