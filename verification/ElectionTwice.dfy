/**
  Two incarnations of one candidate can lead one term. An incarnation that caught up
  knowing nothing, and goes back to a floor below a hand-off to its id, takes that
  hand-off for one it watched: from every such state, and in a run from the start.
  */
module ElectionTwice {
  import opened Common
  import F = ElectionFold
  import E = Election
  import opened ElectionRuns

  // ---- From any state ----

  /** No hand-off to `id` lies past `p`. */
  ghost predicate LastHandOff(log: seq<F.Record>, p: nat, id: nat) {
    forall q: nat, u: F.Uuid :: p < q ==> !E.HandsTo(log, q, id, u)
  }

  lemma {:induction false} NothingHanded(log: seq<F.Record>, i: E.Inc, from: nat, page: seq<F.Record>, p: nat)
    requires F.Agrees(log, i.floor, i.fold) && from == i.fold.next && F.PageAt(log, from, page)
    requires p < from && LastHandOff(log, p, i.me.id)
    ensures E.TookAll(i, page).handed == i.handed
  {
    E.PageNotes(log, i, from, page);
  }

  /** The last hand-off to it that a page holds is the one a caught-up candidate has noted in the end. */
  lemma {:induction false} PageHandsLast(log: seq<F.Record>, i: E.Inc, from: nat, page: seq<F.Record>,
                                         p: nat, uuid: F.Uuid)
    requires F.Agrees(log, i.floor, i.fold) && i.fold.known && i.caughtUp && from == i.fold.next
    requires F.PageAt(log, from, page) && from <= p < from + |page|
    requires E.HandsTo(log, p, i.me.id, uuid) && LastHandOff(log, p, i.me.id)
    ensures E.TookAll(i, page).handed == Some(uuid)
    decreases |page|
  {
    var rest := page[1..];
    F.PageRest(log, from, page);
    F.KnownAbsorbs(log, i.floor, i.fold);
    E.TookKeeps(i, page[0]);
    var k := E.Took(i, page[0]);
    if p == from {
      F.FullStep(log, from);
      NothingHanded(log, k, from + 1, rest, p);
    } else {
      PageHandsLast(log, k, from + 1, rest, p, uuid);
    }
  }

  /** The term in force was handed over by the last hand-off to the candidate that leads it. */
  lemma InForceIsLast(s: Sys, p: nat, id: nat, uuid: F.Uuid)
    requires Inv(s) && E.HandsTo(s.log, p, id, uuid)
    requires F.Full(s.log).leader.Some? && F.Full(s.log).leader.value.uuid == uuid
    ensures LastHandOff(s.log, p, id)
    ensures F.Full(s.log).leader.value.candidate.id == id
  {
    var n := |s.log|;
    assert s.log[..n] == s.log;
    HandOffBegins(s, p, id, uuid);
    LeaderSigned(s.uses, s.log, n);
    F.FullLeader(s.log);
    F.OneLeaderATerm(s.log, p + 1, n);
    forall q: nat, u: F.Uuid | p < q
      ensures !E.HandsTo(s.log, q, id, u)
    {
      if E.HandsTo(s.log, q, id, u) {
        F.FullStep(s.log, q);
        F.FullLeader(s.log[..q]);
        F.TermGrows(s.log, p + 1, q);
        F.TermGrows(s.log, q + 1, n);
      }
    }
  }

  /** A candidate that went back to the floor, and the hand-off past it that began the term in force. */
  ghost predicate Waits(s: Sys, i: E.Inc, p: nat, uuid: F.Uuid) {
    && !i.fold.known && i.fold.floor == Some(i.floor) && i.floor == s.floor && i.caughtUp && i.leading == None
    && s.floor < p && E.HandsTo(s.log, p, i.me.id, uuid)
    && F.Full(s.log).leader.Some? && F.Full(s.log).leader.value.uuid == uuid
    && (i.resigned.Some? ==> i.resigned.value < F.Full(s.log).term)
  }

  lemma RestKnows(s: Sys, i: E.Inc, p: nat, uuid: F.Uuid)
    requires E.Reads(s.log, i) && Waits(s, i, p, uuid)
    ensures i.fold.next == s.floor < |s.log|
    ensures var f := F.AbsorbAll(i.fold, s.log[s.floor..]);
      f.known && f.next == |s.log| && F.Agrees(s.log, s.floor, f)
  {
    F.FloorAbsorbs(s.log, s.floor, i.fold);
    F.PageAgrees(s.log, s.floor, i.fold, s.log[s.floor..]);
  }

  /** The rest of the log read from the floor: it knows, and holds the hand-off. */
  lemma RestHands(s: Sys, i: E.Inc, p: nat, uuid: F.Uuid)
    requires Inv(s) && E.Reads(s.log, i) && Waits(s, i, p, uuid)
    ensures i.fold.next == s.floor < |s.log| && E.TookAll(i, s.log[s.floor..]).handed == Some(uuid)
    ensures var f := F.AbsorbAll(i.fold, s.log[s.floor..]);
      f.known && f.next == |s.log| && F.Agrees(s.log, s.floor, f)
  {
    RestKnows(s, i, p, uuid);
    var page := s.log[s.floor..];
    InForceIsLast(s, p, i.me.id, uuid);
    F.FloorAbsorbs(s.log, s.floor, i.fold);
    F.PageRest(s.log, s.floor, page);
    E.TookKeeps(i, page[0]);
    PageHandsLast(s.log, E.Took(i, page[0]), s.floor + 1, page[1..], p, uuid);
  }

  lemma RestPaged(s: Sys, i: E.Inc, p: nat, uuid: F.Uuid)
    requires Inv(s) && E.Reads(s.log, i) && Waits(s, i, p, uuid)
    ensures i.fold.next == s.floor < |s.log| && E.Served(s.log, s.floor, i, s.log[s.floor..])
    ensures var j := E.Paged(i, s.log[s.floor..], s.floor, |s.log|);
      && j == i.(fold := j.fold, handed := Some(uuid)) && j.fold.known
      && E.Held(j) == Some(F.Full(s.log).term) && j.fold.leader.value.uuid == uuid
  {
    RestHands(s, i, p, uuid);
    InForceIsLast(s, p, i.me.id, uuid);
    assert s.log[..|s.log|] == s.log;
    F.FullLeader(s.log);
  }

  lemma {:induction false} RunBoth(s: Sys, a: seq<Event>, b: seq<Event>)
    requires IsRun(s, a) && IsRun(Reached(s, a), b)
    ensures IsRun(s, a + b) && Reached(s, a + b) == Reached(Reached(s, a), b)
    decreases |a|
  {
    if a == [] {
      assert a + b == b;
    } else {
      assert (a + b)[1..] == a[1..] + b;
      RunBoth(Next(s, a[0]), a[1..], b);
    }
  }

  lemma OneStep(s: Sys, a: Event)
    requires Enabled(s, a)
    ensures IsRun(s, [a]) && Reached(s, [a]) == Next(s, a)
  {
    assert [a][1..] == [];
  }

  lemma ThreeSteps(s: Sys, a: Event, b: Event, c: Event)
    requires Enabled(s, a) && Enabled(Next(s, a), b) && Enabled(Next(Next(s, a), b), c)
    ensures IsRun(s, [a, b, c]) && Reached(s, [a, b, c]) == Next(Next(Next(s, a), b), c)
  {
    OneStep(s, a);
    OneStep(Next(s, a), b);
    OneStep(Next(Next(s, a), b), c);
    RunBoth(s, [a], [b]);
    RunBoth(s, [a] + [b], [c]);
    assert [a] + [b] + [c] == [a, b, c];
  }

  /**
    A live incarnation that leads nothing and caught up blind: its fold knows nothing and
    holds no record as low as the floor. The term in force was handed to its id past it.
    */
  ghost predicate BlindAt(s: Sys, k: nat, p: nat, uuid: F.Uuid) {
    && Alive(s, k)
    && var i := s.members[k].inc;
    && i.caughtUp && E.Blind(i) && i.leading == None && i.fold.next == |s.log| && i.floor == s.floor
    && s.floor < p && E.HandsTo(s.log, p, i.me.id, uuid)
    && F.Full(s.log).leader.Some? && F.Full(s.log).leader.value.uuid == uuid
    && (i.resigned.Some? ==> i.resigned.value < F.Full(s.log).term)
  }

  lemma RewindWaits(s: Sys, k: nat, p: nat, uuid: F.Uuid)
    requires Inv(s) && BlindAt(s, k, p, uuid)
    ensures Enabled(s, Rewind(k))
    ensures var t := Next(s, Rewind(k));
      Inv(t) && Alive(t, k) && Waits(t, t.members[k].inc, p, uuid) && t == s.(members := t.members)
  {
    assert MemberOk(s, s.members[k]);
    E.BlindRewinds(s.log, s.members[k].inc);
    RewindKeeps(s, k);
  }

  /** It holds the term in force by what it read, and the hand-off it holds is one a settled turn may name. */
  ghost predicate Holds(s: Sys, k: nat, p: nat, uuid: F.Uuid) {
    && Alive(s, k)
    && var i := s.members[k].inc;
    && E.Held(i) == Some(F.Full(s.log).term) && i.fold.leader.value.uuid == uuid && i.handed == Some(uuid)
    && E.HandsTo(s.log, p, i.me.id, uuid) && Window(s, s.members[k], p)
  }

  lemma WaitsInWindow(s: Sys, k: nat, p: nat, uuid: F.Uuid)
    requires Inv(s) && Alive(s, k) && Waits(s, s.members[k].inc, p, uuid)
    ensures Window(s, s.members[k], p)
  {
    assert MemberOk(s, s.members[k]);
  }

  lemma PageHolds(s: Sys, k: nat, p: nat, uuid: F.Uuid)
    requires Inv(s) && Alive(s, k) && Waits(s, s.members[k].inc, p, uuid)
    ensures s.floor < |s.log| && Enabled(s, Page(k, s.log[s.floor..]))
    ensures var t := Next(s, Page(k, s.log[s.floor..])); Holds(t, k, p, uuid) && t == s.(members := t.members)
  {
    WaitsInWindow(s, k, p, uuid);
    assert MemberOk(s, s.members[k]);
    RestPaged(s, s.members[k].inc, p, uuid);
  }

  /** Member `k` leads `term`, and is remembered for it under `uuid`. */
  ghost predicate LeadsTerm(s: Sys, k: nat, term: nat, uuid: F.Uuid) {
    && k in s.members && s.members[k].inc.leading == Some(term)
    && exists e {:trigger e in s.led} :: e in s.led && e.who == k && e.term == term && e.uuid == uuid
  }

  lemma SettleTakes(s: Sys, k: nat, p: nat, uuid: F.Uuid)
    requires Holds(s, k, p, uuid)
    ensures Enabled(s, Settle(k, p))
    ensures var t := Next(s, Settle(k, p));
      LeadsTerm(t, k, F.Full(s.log).term, uuid) && s.led <= t.led && t == s.(members := t.members, led := t.led)
  {
    var i := s.members[k].inc;
    var l := i.fold.leader.value;
    var e := Led(k, l.term, l.uuid, i.fold.next, if l.uuid in i.minted then None else Some(p));
    assert e in Next(s, Settle(k, p)).led;
  }

  /**
    From any state a run can be in, a blind incarnation goes back, reads on, and leads
    the term in force, whoever watched the hand-off that began it.
    */
  lemma BlindLeads(s: Sys, k: nat, p: nat, uuid: F.Uuid) returns (events: seq<Event>)
    requires Inv(s) && BlindAt(s, k, p, uuid)
    ensures IsRun(s, events) && LeadsTerm(Reached(s, events), k, F.Full(s.log).term, uuid)
    ensures s.led <= Reached(s, events).led
  {
    var a, b, c := Rewind(k), Page(k, s.log[s.floor..]), Settle(k, p);
    RewindWaits(s, k, p, uuid);
    var t := Next(s, a);
    PageHolds(t, k, p, uuid);
    var u := Next(t, b);
    SettleTakes(u, k, p, uuid);
    ThreeSteps(s, a, b, c);
    events := [a, b, c];
  }

  // ---- A run from the start ----

  const ONE := F.Candidate(1, [])
  const TWO := F.Candidate(2, [])

  const CAMPAIGN := F.Campaign(1, ONE, 10)
  const RENEWAL := F.Renew(1, ONE, 10)
  const HANDOFF := F.Resign(1, 1, Some((TWO, 11)))

  /** Candidate 1 campaigned and renewed twice. */
  function Renewed(n: nat): seq<F.Record> { [CAMPAIGN] + seq(n, _ => RENEWAL) }

  lemma RenewedMore(n: nat)
    ensures Renewed(n + 1) == Renewed(n) + [RENEWAL] && |Renewed(n)| == n + 1
    ensures Renewed(n)[0] == CAMPAIGN && forall k :: 1 <= k <= n ==> Renewed(n)[k] == RENEWAL
  {
  }

  /** The fold of the campaign and `n` renewals. */
  function FoldAt(n: nat): F.Fold { F.NEW.(term := 1, leader := Some(F.Leader(1, ONE, 10, 0, n)), next := n + 1) }

  lemma RenewedRules(n: nat)
    ensures F.Full(Renewed(n)) == F.Ruled(1, Some(F.Leader(1, ONE, 10, 0, n)))
  {
    if n == 0 {
      assert Renewed(0) == [CAMPAIGN] && [CAMPAIGN][..0] == [];
    } else {
      RenewedRules(n - 1);
      RenewedMore(n - 1);
      assert Renewed(n)[..n] == Renewed(n - 1);
    }
  }

  /** What reading one record does to a candidate whose fold knows. */
  lemma PagedOne(i: E.Inc, x: F.Record, floor: nat, tail: nat)
    requires i.fold.known && i.fold.tail == []
    ensures E.Paged(i, [x], floor, tail) ==
      E.Took(i, x).(floor := floor, caughtUp := i.caughtUp || tail <= i.fold.next + 1)
  {
    assert [x][1..] == [];
    assert E.TookAll(i, [x]) == E.Took(i, x);
    assert F.AbsorbAll(i.fold, [x]) == F.Absorbed(i.fold, i.fold.next, x).0;
  }

  /** Candidate 1 leads term 1, with `n` renewals read, none truncated to yet. */
  function Leader(n: nat): E.Inc { E.Inc(ONE, FoldAt(n), {10}, None, Some(1), None, false, true, 0) }

  ghost predicate Leads(s: Sys, n: nat) {
    && s.log == Renewed(n) && s.floor == 0 && s.members.Keys == {1} && Alive(s, 1) && s.members[1].inc == Leader(n)
    && s.uses == map[10 := 1] && RENEWAL in s.sent
    && (forall f :: 1 <= f <= n ==> f in s.truncations)
  }

  lemma Campaigns(s: Sys) returns (events: seq<Event>)
    requires Init(s)
    ensures IsRun(s, events)
    ensures var t := Reached(s, events);
      && t.log == Renewed(0) && t.floor == 0 && t.members.Keys == {1} && Alive(t, 1) && t.uses == map[10 := 1]
      && t.members[1].inc == E.New(ONE).(minted := {10})
  {
    var a, b, c := Start(1, ONE), Event.Campaign(1, 10), Land(CAMPAIGN);
    var t := Next(s, a);
    var u := Next(t, b);
    ThreeSteps(s, a, b, c);
    events := [a, b, c];
    assert Renewed(0) == [CAMPAIGN];
  }

  lemma Wins(s: Sys) returns (events: seq<Event>)
    requires s.log == Renewed(0) && s.floor == 0 && s.members.Keys == {1} && Alive(s, 1) && s.uses == map[10 := 1]
    requires s.members[1].inc == E.New(ONE).(minted := {10})
    ensures IsRun(s, events) && Leads(Reached(s, events), 0)
  {
    var i := s.members[1].inc;
    assert Renewed(0) == [CAMPAIGN];
    PagedOne(i, CAMPAIGN, 0, 1);
    var a, b, c := Page(1, [CAMPAIGN]), Settle(1, 0), Event.Renew(1);
    var t := Next(s, a);
    assert t.members[1].inc == Leader(0).(leading := None);
    var u := Next(t, b);
    assert u.members[1].inc == Leader(0);
    ThreeSteps(s, a, b, c);
    events := [a, b, c];
  }

  lemma LeaderReads(n: nat)
    ensures E.Paged(Leader(n), [RENEWAL], 0, n + 2) == Leader(n + 1)
  {
    PagedOne(Leader(n), RENEWAL, 0, n + 2);
  }

  lemma RenewalLands(s: Sys, n: nat)
    requires Leads(s, n)
    ensures Enabled(s, Land(RENEWAL)) && Enabled(Next(s, Land(RENEWAL)), Page(1, [RENEWAL]))
    ensures var t := Next(Next(s, Land(RENEWAL)), Page(1, [RENEWAL]));
      && t == s.(log := Renewed(n + 1), members := t.members)
      && t.members.Keys == {1} && Alive(t, 1) && t.members[1].inc == Leader(n + 1)
  {
    RenewedMore(n);
    LeaderReads(n);
    assert F.PageAt(Next(s, Land(RENEWAL)).log, n + 1, [RENEWAL]);
  }

  lemma RenewalAnchors(s: Sys, n: nat)
    requires s.log == Renewed(n) && s.floor == 0
    requires s.members.Keys == {1} && Alive(s, 1) && s.members[1].inc == Leader(n)
    requires s.uses == map[10 := 1] && RENEWAL in s.sent && forall f :: 1 <= f < n ==> f in s.truncations
    ensures Enabled(s, Event.Truncate(1)) && Leads(Next(s, Event.Truncate(1)), n)
  {
    assert Next(s, Event.Truncate(1)).truncations == s.truncations + {n};
  }

  /** One more renewal lands and is read, and the leader asks to truncate to it. */
  lemma Renews(s: Sys, n: nat) returns (events: seq<Event>)
    requires Leads(s, n)
    ensures IsRun(s, events) && Leads(Reached(s, events), n + 1)
  {
    var a, b, c := Land(RENEWAL), Page(1, [RENEWAL]), Event.Truncate(1);
    RenewalLands(s, n);
    RenewalAnchors(Next(Next(s, a), b), n + 1);
    ThreeSteps(s, a, b, c);
    events := [a, b, c];
  }

  /** Candidate 2's first incarnation, having read the campaign and `n` renewals of two. */
  function Watcher(n: nat): E.Inc { E.Inc(TWO, FoldAt(n), {}, None, None, None, false, n == 2, 0) }

  ghost predicate Watched(s: Sys, n: nat) {
    && s.log == Renewed(2) && s.floor == 0 && s.members.Keys == {1, 2} && Alive(s, 1) && Alive(s, 2)
    && s.members[1].inc == Leader(2) && s.members[2].inc == Watcher(n) && s.members[2].born <= 3
    && s.uses == map[10 := 1] && 1 in s.truncations && 2 in s.truncations
  }

  lemma Watches(s: Sys) returns (events: seq<Event>)
    requires Leads(s, 2)
    ensures IsRun(s, events) && Watched(Reached(s, events), 0)
  {
    RenewedMore(2);
    PagedOne(E.New(TWO), CAMPAIGN, 0, 3);
    var a, b := Event.Start(2, TWO), Page(2, [CAMPAIGN]);
    var t := Next(s, a);
    var u := Next(t, b);
    assert u.members[2].inc == Watcher(0);
    OneStep(t, b);
    OneStep(s, a);
    RunBoth(s, [a], [b]);
    events := [a] + [b];
  }

  lemma WatchesOn(s: Sys, n: nat) returns (events: seq<Event>)
    requires n < 2 && Watched(s, n)
    ensures IsRun(s, events) && Watched(Reached(s, events), n + 1)
  {
    RenewedMore(2);
    PagedOne(Watcher(n), RENEWAL, 0, 3);
    var a := Page(2, [RENEWAL]);
    assert F.PageAt(s.log, n + 1, [RENEWAL]);
    OneStep(s, a);
    events := [a];
    assert Next(s, a).members[2].inc == Watcher(n + 1);
  }

  function HandOffLog(): seq<F.Record> { Renewed(2) + [HANDOFF] }

  lemma HandOffSize()
    ensures |HandOffLog()| == 4 && HandOffLog()[3] == HANDOFF
  {
    RenewedMore(2);
  }

  /** Candidate 1 led term 1 up to the hand-off of term 2 to candidate 2; the renewals are floors it may truncate to. */
  lemma HandOffRules()
    ensures var log := HandOffLog();
      && |log| == 4 && F.Full(log).leader == Some(F.Leader(2, TWO, 11, 3, 3)) && F.Full(log).term == 2
      && F.Legit(log, 1) && F.Legit(log, 2) && E.HandsTo(log, 3, 2, 11)
  {
    var log := HandOffLog();
    RenewedMore(0);
    RenewedMore(1);
    RenewedRules(0);
    RenewedRules(1);
    RenewedRules(2);
    assert log[..1] == Renewed(0) && log[..2] == Renewed(1) && log[..3] == Renewed(2) && log[..4] == log;
    F.FullStep(log, 3);
  }

  /** The hand-off landed; the watcher has not read it yet. */
  ghost predicate HandedOver(s: Sys) {
    && s.log == HandOffLog() && s.floor == 0 && s.members.Keys == {1, 2} && s.members[1].inc.me.id == 1 && Alive(s, 2)
    && s.members[2].inc == Watcher(2) && s.members[2].born <= 3
    && 1 in s.truncations && 2 in s.truncations
  }

  lemma HandsOver(s: Sys) returns (events: seq<Event>)
    requires Watched(s, 2)
    ensures IsRun(s, events) && HandedOver(Reached(s, events))
  {
    var a, b := Event.Resign(1, Some(TWO), 11), Land(HANDOFF);
    assert E.Resigned(Leader(2), Some(TWO), 11).1 == Some(HANDOFF);
    var t := Next(s, a);
    OneStep(t, b);
    OneStep(s, a);
    RunBoth(s, [a], [b]);
    events := [a] + [b];
  }

  /** The first incarnation leads term 2, and dies. */
  ghost predicate LedOnce(s: Sys) {
    && s.log == HandOffLog() && s.floor == 0 && s.members.Keys == {1, 2} && s.members[1].inc.me.id == 1
    && s.members[2].died.Some? && s.members[2].inc.me.id == 2
    && 1 in s.truncations && 2 in s.truncations && WasLed(s, 2)
  }

  ghost predicate WasLed(s: Sys, who: nat) {
    exists e {:trigger e in s.led} :: e in s.led && e.who == who && e.term == 2 && e.uuid == 11
  }

  /** The watcher, having read the hand-off. */
  function Heir(): E.Inc {
    Watcher(2).(fold := F.NEW.(term := 2, leader := Some(F.Leader(2, TWO, 11, 3, 3)), next := 4), handed := Some(11))
  }

  lemma HeirReads()
    ensures E.Paged(Watcher(2), [HANDOFF], 0, 4) == Heir()
  {
    PagedOne(Watcher(2), HANDOFF, 0, 4);
  }

  ghost predicate Inherits(s: Sys) {
    && s.log == HandOffLog() && s.floor == 0 && s.members.Keys == {1, 2} && s.members[1].inc.me.id == 1 && Alive(s, 2)
    && s.members[2].inc == Heir() && s.members[2].born <= 3
    && 1 in s.truncations && 2 in s.truncations
  }

  lemma ReadsHandOff(s: Sys) returns (events: seq<Event>)
    requires HandedOver(s)
    ensures IsRun(s, events) && Inherits(Reached(s, events))
  {
    HandOffSize();
    HeirReads();
    var a := Page(2, [HANDOFF]);
    assert F.PageAt(s.log, 3, [HANDOFF]);
    OneStep(s, a);
    events := [a];
  }

  lemma HeirHolds()
    ensures E.Held(Heir()) == Some(2) && E.Settled(Heir()) == Heir().(leading := Some(2))
  {
  }

  lemma HeirLeads(s: Sys)
    requires Inherits(s)
    ensures Enabled(s, Settle(2, 3)) && Led(2, 2, 11, 4, Some(3)) in Next(s, Settle(2, 3)).led
    ensures var t := Next(s, Settle(2, 3));
      t == s.(members := s.members[2 := t.members[2]], led := t.led) && Alive(t, 2) && t.members[2].inc.me.id == 2
  {
    HandOffRules();
    HeirHolds();
    assert Window(s, s.members[2], 3);
    assert LedNow(s, 2, 3) == {Led(2, 2, 11, 4, Some(3))};
  }

  lemma HeirDies(s: Sys)
    requires s.log == HandOffLog() && s.floor == 0 && s.members.Keys == {1, 2} && s.members[1].inc.me.id == 1
    requires Alive(s, 2) && s.members[2].inc.me.id == 2 && 1 in s.truncations && 2 in s.truncations
    requires Led(2, 2, 11, 4, Some(3)) in s.led
    ensures Enabled(s, Event.Die(2)) && LedOnce(Next(s, Event.Die(2)))
  {
    assert Led(2, 2, 11, 4, Some(3)) in Next(s, Event.Die(2)).led;
  }

  lemma TakesOver(s: Sys) returns (events: seq<Event>)
    requires Inherits(s)
    ensures IsRun(s, events) && LedOnce(Reached(s, events))
  {
    var a, b := Settle(2, 3), Event.Die(2);
    HeirLeads(s);
    var t := Next(s, a);
    HeirDies(t);
    OneStep(s, a);
    OneStep(t, b);
    RunBoth(s, [a], [b]);
    events := [a] + [b];
  }

  /** The second incarnation, overtaken once: it waits at the floor, which moved on. */
  ghost predicate Overtaken(s: Sys) {
    && s.log == HandOffLog() && s.floor == 1 && Alive(s, 3) && 2 in s.truncations && WasLed(s, 2)
    && s.members[3].inc == E.New(TWO).(fold := F.NEW.(next := 1, known := false, floor := Some(1)), floor := 1)
  }

  ghost predicate Restarted(s: Sys) {
    && s.log == HandOffLog() && s.floor == 1 && Alive(s, 3) && 2 in s.truncations && WasLed(s, 2)
    && s.members[3].inc == E.New(TWO)
  }

  lemma StartsAgain(s: Sys)
    requires LedOnce(s)
    ensures Enabled(s, Event.Start(3, TWO))
    ensures var t := Next(s, Event.Start(3, TWO));
      Alive(t, 3) && t.members[3].inc == E.New(TWO) && t == s.(members := t.members)
  {
  }

  lemma FloorMoves(s: Sys, f: nat)
    requires s.log == HandOffLog() && s.floor <= f <= 2 && f in s.truncations && WasLed(s, 2)
    ensures Enabled(s, Floor(f)) && Next(s, Floor(f)) == s.(floor := f) && WasLed(Next(s, Floor(f)), 2)
  {
    HandOffSize();
    assert Next(s, Floor(f)) == s.(floor := f);
  }

  lemma Restarts(s: Sys) returns (events: seq<Event>)
    requires LedOnce(s)
    ensures IsRun(s, events) && Restarted(Reached(s, events))
  {
    var a, b := Event.Start(3, TWO), Floor(1);
    StartsAgain(s);
    var t := Next(s, a);
    FloorMoves(t, 1);
    OneStep(s, a);
    OneStep(t, b);
    RunBoth(s, [a], [b]);
    events := [a] + [b];
  }

  lemma OvertakenOnce(s: Sys) returns (events: seq<Event>)
    requires Restarted(s)
    ensures IsRun(s, events) && Overtaken(Reached(s, events))
  {
    OneStep(s, Chase(3, false));
    events := [Chase(3, false)];
  }

  /** The second incarnation, overtaken twice: it stands at the tail, knowing nothing. */
  function AtTail(): E.Inc {
    E.New(TWO).(fold := F.NEW.(next := 4, known := false, tailTerm := Some(0)), floor := 2)
  }

  lemma GoesToTail(s: Sys) returns (events: seq<Event>)
    requires Overtaken(s)
    ensures IsRun(s, events)
    ensures var t := Reached(s, events);
      t.log == HandOffLog() && t.floor == 2 && Alive(t, 3) && t.members[3].inc == AtTail() && WasLed(t, 2)
  {
    HandOffRules();
    var a, b := Floor(2), Chase(3, true);
    FloorMoves(s, 2);
    var t := Next(s, a);
    OneStep(s, a);
    OneStep(t, b);
    RunBoth(s, [a], [b]);
    events := [a] + [b];
  }

  lemma OvertakenAgain(s: Sys) returns (events: seq<Event>)
    requires s.log == HandOffLog() && s.floor == 2 && Alive(s, 3) && s.members[3].inc == AtTail() && WasLed(s, 2)
    ensures IsRun(s, events) && BlindAt(Reached(s, events), 3, 3, 11) && WasLed(Reached(s, events), 2)
    ensures Reached(s, events).log == HandOffLog()
  {
    HandOffRules();
    var a := Page(3, []);
    assert E.Paged(AtTail(), [], 2, 4) == AtTail().(caughtUp := true);
    OneStep(s, a);
    events := [a];
  }

  lemma ReachesRenewed(s: Sys) returns (events: seq<Event>)
    requires Init(s)
    ensures IsRun(s, events) && Leads(Reached(s, events), 2)
  {
    events := Campaigns(s);
    var more := Wins(Reached(s, events));
    RunBoth(s, events, more);
    events := events + more;
    more := Renews(Reached(s, events), 0);
    RunBoth(s, events, more);
    events := events + more;
    more := Renews(Reached(s, events), 1);
    RunBoth(s, events, more);
    events := events + more;
  }

  lemma ReachesWatched(s: Sys) returns (events: seq<Event>)
    requires Leads(s, 2)
    ensures IsRun(s, events) && Watched(Reached(s, events), 2)
  {
    events := Watches(s);
    var more := WatchesOn(Reached(s, events), 0);
    RunBoth(s, events, more);
    events := events + more;
    more := WatchesOn(Reached(s, events), 1);
    RunBoth(s, events, more);
    events := events + more;
  }

  lemma ReachesHandOff(s: Sys) returns (events: seq<Event>)
    requires Init(s)
    ensures IsRun(s, events) && Watched(Reached(s, events), 2)
  {
    events := ReachesRenewed(s);
    var more := ReachesWatched(Reached(s, events));
    RunBoth(s, events, more);
    events := events + more;
  }

  lemma ReachesLed(s: Sys) returns (events: seq<Event>)
    requires Watched(s, 2)
    ensures IsRun(s, events) && LedOnce(Reached(s, events))
  {
    events := HandsOver(s);
    var more := ReadsHandOff(Reached(s, events));
    RunBoth(s, events, more);
    events := events + more;
    more := TakesOver(Reached(s, events));
    RunBoth(s, events, more);
    events := events + more;
  }

  lemma ReachesBlind(s: Sys) returns (events: seq<Event>)
    requires LedOnce(s)
    ensures IsRun(s, events) && BlindAt(Reached(s, events), 3, 3, 11) && WasLed(Reached(s, events), 2)
    ensures Reached(s, events).log == HandOffLog()
  {
    events := Restarts(s);
    var more := OvertakenOnce(Reached(s, events));
    RunBoth(s, events, more);
    events := events + more;
    more := GoesToTail(Reached(s, events));
    RunBoth(s, events, more);
    events := events + more;
    more := OvertakenAgain(Reached(s, events));
    RunBoth(s, events, more);
    events := events + more;
  }

  /** A run in which two incarnations of candidate 2 lead term 2: at most one a term is false of the code. */
  lemma TwoIncarnationsLead(s: Sys) returns (events: seq<Event>, a: Led, b: Led)
    requires Init(s)
    ensures IsRun(s, events)
    ensures var t := Reached(s, events);
      && a in t.led && b in t.led && a.term == b.term == 2 && a.uuid == b.uuid && a.who != b.who
      && a.who in t.members && b.who in t.members && t.members[a.who].inc.me.id == t.members[b.who].inc.me.id
  {
    events := ReachesHandOff(s);
    var more := ReachesLed(Reached(s, events));
    RunBoth(s, events, more);
    events := events + more;
    more := ReachesBlind(Reached(s, events));
    RunBoth(s, events, more);
    events := events + more;
    Reachable(s, events);
    var t := Reached(s, events);
    HandOffRules();
    more := BlindLeads(t, 3, 3, 11);
    RunBoth(s, events, more);
    events := events + more;
    Reachable(s, events);
    var u := Reached(s, events);
    var e :| e in t.led && e.who == 2 && e.term == 2 && e.uuid == 11;
    a := e;
    b :| b in u.led && b.who == 3 && b.term == 2 && b.uuid == 11;
    assert LedOk(u, a) && LedOk(u, b);
    SameLeadership(u, a, b);
  }
}
