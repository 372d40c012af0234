/**
  What a candidate leads is its own. A term it holds was won under a uuid it minted,
  or handed to it while it watched, for as long as its fold stands in that term: no
  renewal it appends is another's, whatever it read since.
  */
module ElectionLeads {
  import opened Common
  import F = ElectionFold
  import E = Election
  import opened ElectionRuns

  /** The fold has left the term it leads behind for good. */
  ghost predicate Left(log: seq<F.Record>, i: E.Inc)
    requires i.leading.Some? && E.Low(i) <= |log|
  {
    F.Full(log[..E.Low(i)]).term > i.leading.value
  }

  /** At `e`, at or below where its fold can be, the rule had it lead the term, under a uuid that is its own. */
  ghost predicate LedAt(log: seq<F.Record>, i: E.Inc, e: nat)
    requires i.leading.Some?
  {
    && e <= E.Low(i) <= |log|
    && var r := F.Full(log[..e]);
    && r.leader.Some? && r.term == i.leading.value && r.leader.value.candidate.id == i.me.id
    && (r.leader.value.uuid in i.minted || i.handed == Some(r.leader.value.uuid) || Left(log, i))
  }

  ghost predicate LeadOk(log: seq<F.Record>, i: E.Inc) {
    i.leading.Some? ==> exists e: nat :: LedAt(log, i, e)
  }

  ghost predicate Leads(s: Sys) {
    forall k {:trigger s.members[k]} :: k in s.members ==> LeadOk(s.log, s.members[k].inc)
  }

  /** The term in which it leads is its own. */
  lemma LeadsItsOwn(log: seq<F.Record>, i: E.Inc)
    requires E.Reads(log, i) && LeadOk(log, i) && E.Leading(i).Some?
    ensures E.Mine(i, E.Leading(i).value)
  {
    var e: nat :| LedAt(log, i, e);
    assert i.fold.known && F.Same(F.RuledOf(i.fold), F.Full(log[..i.fold.next]));
    F.FullLeader(log[..i.fold.next]);
    F.OneLeaderATerm(log, e, i.fold.next);
  }

  // ---- Each step ----

  lemma GrownLeads(log: seq<F.Record>, more: seq<F.Record>, i: E.Inc)
    requires LeadOk(log, i) && log <= more
    ensures LeadOk(more, i)
  {
    if i.leading.Some? {
      var e: nat :| LedAt(log, i, e);
      assert more[..e] == log[..e] && more[..E.Low(i)] == log[..E.Low(i)];
      assert LedAt(more, i, e);
    }
  }

  /** A later fold of a candidate that notes nothing new. */
  lemma MovedLeads(log: seq<F.Record>, i: E.Inc, j: E.Inc)
    requires LeadOk(log, i) && j.leading == i.leading && j.me.id == i.me.id
    requires i.minted <= j.minted && j.handed == i.handed
    requires E.Low(i) <= E.Low(j) <= |log|
    ensures LeadOk(log, j)
  {
    if i.leading.Some? {
      var e: nat :| LedAt(log, i, e);
      F.TermGrows(log, E.Low(i), E.Low(j));
      assert LedAt(log, j, e);
    }
  }

  /** A page that notes a hand-off leaves the fold knowing, past all it read. */
  lemma {:induction false} NotedKnows(i: E.Inc, page: seq<F.Record>)
    ensures E.TookAll(i, page).handed != i.handed || i.fold.known ==> E.TookAll(i, page).fold.known
    decreases |page|
  {
    if page != [] {
      NotedKnows(E.Took(i, page[0]), page[1..]);
    }
  }

  /** A hand-off it notes begins a term past any it led before. */
  lemma HandedLeads(log: seq<F.Record>, i: E.Inc, j: E.Inc, p: nat)
    requires LeadOk(log, i) && j.leading == i.leading && j.me.id == i.me.id && i.minted <= j.minted
    requires E.Low(i) <= p < E.Low(j) <= |log| && F.ChangeAt(log, p).HandedOff?
    ensures LeadOk(log, j)
  {
    if i.leading.Some? {
      var e: nat :| LedAt(log, i, e);
      F.FullStep(log, p);
      F.FullLeader(log[..p]);
      F.TermGrows(log, e, p);
      F.TermGrows(log, p + 1, E.Low(j));
      assert LedAt(log, j, e);
    }
  }

  lemma PagedKnown(log: seq<F.Record>, floor: nat, i: E.Inc, page: seq<F.Record>)
    requires E.Reads(log, i) && E.Served(log, floor, i, page) && E.Paged(i, page, floor, |log|).handed != i.handed
    ensures var j := E.Paged(i, page, floor, |log|); j.fold.known && j.fold.next == i.fold.next + |page|
  {
    NotedKnows(i, page);
    E.TookFolds(i, page);
    E.ToldFloor(log, i, floor);
    F.PageAgrees(log, floor, i.fold, page);
  }

  lemma LowBelow(log: seq<F.Record>, i: E.Inc)
    requires E.Reads(log, i)
    ensures E.Low(i) <= |log|
  {
  }

  lemma PageLeads(log: seq<F.Record>, floor: nat, i: E.Inc, page: seq<F.Record>)
    requires E.Reads(log, i) && E.Served(log, floor, i, page) && LeadOk(log, i)
    ensures LeadOk(log, E.Paged(i, page, floor, |log|))
  {
    var j := E.Paged(i, page, floor, |log|);
    E.PagedReadsTo(log, floor, i, page);
    LowBelow(log, j);
    if j.handed == i.handed {
      MovedLeads(log, i, j);
    } else {
      PagedKnown(log, floor, i, page);
      var p: nat :| i.fold.next <= p < i.fold.next + |page| && E.HandsTo(log, p, i.me.id, j.handed.value);
      HandedLeads(log, i, j, p);
    }
  }

  lemma ChaseLeads(log: seq<F.Record>, floor: nat, i: E.Inc, chased: bool)
    requires E.Reads(log, i) && i.fold.next < floor && F.Legit(log, floor) && i.floor <= floor && LeadOk(log, i)
    ensures LeadOk(log, E.Chased(i, floor, |log|, chased))
  {
    var j := E.Chased(i, floor, |log|, chased);
    E.ChasedReads(log, floor, i, chased);
    E.ChasedPast(log, floor, i, chased);
    LowBelow(log, j);
    MovedLeads(log, i, j);
  }

  lemma SettleLeads(log: seq<F.Record>, i: E.Inc)
    requires E.Reads(log, i)
    ensures LeadOk(log, E.Settled(i))
  {
    var j := E.Settled(i);
    if j.leading.Some? {
      F.FullLeader(log[..i.fold.next]);
      assert LedAt(log, j, i.fold.next);
    }
  }

  /** An act of its own: it mints, publishes, or stops leading. */
  lemma ActLeads(log: seq<F.Record>, i: E.Inc, j: E.Inc)
    requires LeadOk(log, i) && E.Reads(log, i)
    requires j.leading == i.leading || j.leading == None
    requires j.fold == i.fold && j.floor == i.floor && j.handed == i.handed
    requires j.me.id == i.me.id && i.minted <= j.minted
    ensures LeadOk(log, j)
  {
    if j.leading.Some? {
      LowBelow(log, i);
      MovedLeads(log, i, j);
    }
  }

  lemma ToldLeads(log: seq<F.Record>, i: E.Inc, floor: nat)
    requires E.Reads(log, i) && LeadOk(log, i) && E.Leading(i).Some?
    ensures LeadOk(log, E.Told(i, floor))
  {
    MovedLeads(log, i, E.Told(i, floor));
  }

  /** Only member `k` changed, and the log. */
  lemma OneLeads(s: Sys, t: Sys, k: nat)
    requires Leads(s) && s.log <= t.log && k in t.members && LeadOk(t.log, t.members[k].inc)
    requires forall a {:trigger t.members[a]} :: a in t.members && a != k ==>
      a in s.members && t.members[a] == s.members[a]
    ensures Leads(t)
  {
    forall a | a in t.members
      ensures LeadOk(t.log, t.members[a].inc)
    {
      if a != k {
        GrownLeads(s.log, t.log, s.members[a].inc);
      }
    }
  }

  lemma SameLeads(s: Sys, t: Sys)
    requires Leads(s) && s.log <= t.log && t.members == s.members
    ensures Leads(t)
  {
    forall a | a in t.members
      ensures LeadOk(t.log, t.members[a].inc)
    {
      GrownLeads(s.log, t.log, s.members[a].inc);
    }
  }

  lemma ReadsOnLeads(s: Sys, ev: Event)
    requires Inv(s) && Leads(s) && Enabled(s, ev) && (ev.Page? || ev.Chase? || ev.Rewind? || ev.Settle?)
    ensures LeadOk(s.log, Next(s, ev).members[ev.id].inc)
  {
    var i := s.members[ev.id].inc;
    assert MemberOk(s, s.members[ev.id]);
    match ev
    case Page(_, page) => PageLeads(s.log, s.floor, i, page);
    case Chase(_, chased) => ChaseLeads(s.log, s.floor, i, chased);
    case Rewind(_) =>
    case Settle(_, _) => SettleLeads(s.log, i);
  }

  lemma ReadingLeads(s: Sys, ev: Event)
    requires Inv(s) && Leads(s) && Enabled(s, ev) && (ev.Page? || ev.Chase? || ev.Rewind? || ev.Settle?)
    ensures Leads(Next(s, ev))
  {
    ReadsOnLeads(s, ev);
    OneLeads(s, Next(s, ev), ev.id);
  }

  /** What an act leaves of its candidate. */
  ghost predicate Acts(i: E.Inc, j: E.Inc) {
    && (j.leading == i.leading || j.leading == None)
    && j.fold == i.fold && j.floor == i.floor && j.handed == i.handed && j.me.id == i.me.id && i.minted <= j.minted
  }

  lemma StepActs(s: Sys, ev: Event)
    requires Enabled(s, ev) && (ev.Publish? || ev.Campaign? || ev.Resign? || ev.StepDown? || ev.Die?)
    ensures ev.id in s.members && Acts(s.members[ev.id].inc, Next(s, ev).members[ev.id].inc) && Next(s, ev).log == s.log
  {
  }

  lemma StepOthers(s: Sys, ev: Event, a: nat)
    requires Enabled(s, ev) && (ev.Publish? || ev.Campaign? || ev.Resign? || ev.StepDown? || ev.Die?)
    requires a in Next(s, ev).members && a != ev.id
    ensures Next(s, ev).log == s.log && a in s.members && Next(s, ev).members[a] == s.members[a]
  {
  }

  lemma ActingLeads(s: Sys, ev: Event)
    requires Inv(s) && Leads(s) && Enabled(s, ev)
    requires ev.Publish? || ev.Campaign? || ev.Resign? || ev.StepDown? || ev.Die?
    ensures Leads(Next(s, ev))
  {
    var t := Next(s, ev);
    StepActs(s, ev);
    assert MemberOk(s, s.members[ev.id]);
    ActLeads(s.log, s.members[ev.id].inc, t.members[ev.id].inc);
    forall a | a in t.members
      ensures LeadOk(t.log, t.members[a].inc)
    {
      if a != ev.id {
        StepOthers(s, ev, a);
      }
    }
  }

  lemma ToldStepLeads(s: Sys, k: nat)
    requires Inv(s) && Leads(s) && Enabled(s, Event.Told(k))
    ensures Leads(Next(s, Event.Told(k)))
  {
    assert MemberOk(s, s.members[k]);
    ToldLeads(s.log, s.members[k].inc, s.floor);
    OneLeads(s, Next(s, Event.Told(k)), k);
  }

  lemma NextLeads(s: Sys, ev: Event)
    requires Inv(s) && Leads(s) && Enabled(s, ev)
    ensures Leads(Next(s, ev))
  {
    if ev.Page? || ev.Chase? || ev.Rewind? || ev.Settle? {
      ReadingLeads(s, ev);
    } else if ev.Publish? || ev.Campaign? || ev.Resign? || ev.StepDown? || ev.Die? {
      ActingLeads(s, ev);
    } else if ev.Told? {
      ToldStepLeads(s, ev.id);
    } else if ev.Start? {
      OneLeads(s, Next(s, ev), ev.id);
    } else {
      SameLeads(s, Next(s, ev));
    }
  }

  lemma {:induction false} RunLeads(s: Sys, events: seq<Event>)
    requires Inv(s) && Leads(s) && IsRun(s, events)
    ensures Inv(Reached(s, events)) && Leads(Reached(s, events))
    decreases |events|
  {
    if events != [] {
      NextKeeps(s, events[0]);
      NextLeads(s, events[0]);
      RunLeads(Next(s, events[0]), events[1..]);
    }
  }

  /**
    In every run the leadership a candidate holds is its own incarnation's, and not one
    it gave up: no renewal or truncation it makes is for another's term.
    */
  lemma RenewsItsOwn(s: Sys, events: seq<Event>, k: nat)
    requires Init(s) && IsRun(s, events) && k in Reached(s, events).members
    ensures var i := Reached(s, events).members[k].inc;
      E.Leading(i).Some? ==>
        && E.Mine(i, E.Leading(i).value)
        && (i.resigned.Some? ==> i.resigned.value < E.Leading(i).value.term)
  {
    RunLeads(s, events);
    var t := Reached(s, events);
    assert MemberOk(t, t.members[k]);
    if E.Leading(t.members[k].inc).Some? {
      LeadsItsOwn(t.log, t.members[k].inc);
    }
  }
}
