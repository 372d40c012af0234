/**
  Whole runs of one election: incarnations of candidates start and die, read any
  part of the journal, campaign, renew, resign, and truncate; a record or a
  truncation may land at any later time, more than once, or never.
  */
module ElectionRuns {
  import opened Common
  import F = ElectionFold
  import E = Election

  /** Where the interface a candidate's records name came from. */
  datatype Origin = Given(value: Value) | Cleared | Publication(epoch: nat, value: Value)

  /**
    One incarnation: the journal's length when it started and when it died, whether
    its fold knew the term when it first caught up, and the terms it began leading.
    */
  datatype Member = Member(inc: E.Inc, born: nat, died: Option<nat>, clean: bool, origin: Origin, began: seq<nat>)

  /** `who` led `term` under `uuid`: the log's length when it did, and the hand-off it had it from, if one. */
  datatype Led = Led(who: nat, term: nat, uuid: F.Uuid, at: nat, handed: Option<nat>)

  /** A campaign or renewal as it was sent. */
  datatype Carried = Carried(record: F.Record, origin: Origin, began: seq<nat>)

  datatype Sys = Sys(
    log: seq<F.Record>,
    floor: nat,
    members: map<nat, Member>,
    sent: set<F.Record>,
    truncations: set<nat>,
    uses: map<F.Uuid, nat>,
    led: set<Led>,
    carried: set<Carried>)

  datatype Event =
    | Start(id: nat, me: F.Candidate)
    | Die(id: nat)
    | Page(id: nat, records: seq<F.Record>)
    | Chase(id: nat, chased: bool)
    | Rewind(id: nat)
    | Publish(id: nat, interface: Value)
    | Campaign(id: nat, mint: F.Uuid)
    | Settle(id: nat, hand: nat)
    | Renew(id: nat)
    | Truncate(id: nat)
    | Told(id: nat)
    | Resign(id: nat, successor: Option<F.Candidate>, mint: F.Uuid)
    | StepDown(id: nat)
    | Land(record: F.Record)
    | Floor(upTo: nat)

  ghost predicate Alive(s: Sys, k: nat) { k in s.members && s.members[k].died == None }

  ghost predicate Enabled(s: Sys, ev: Event) {
    match ev
    case Start(k, me) =>
      && k !in s.members && me.id != 0
      && forall a {:trigger s.members[a]} :: Alive(s, a) ==> s.members[a].inc.me.id != me.id
    case Die(k) => Alive(s, k)
    case Page(k, page) => Alive(s, k) && E.Served(s.log, s.floor, s.members[k].inc, page)
    case Chase(k, _) => Alive(s, k) && s.members[k].inc.fold.next < s.floor
    case Rewind(k) => Alive(s, k) && s.members[k].inc.caughtUp && s.members[k].inc.leading == None
    case Publish(k, _) => Alive(s, k)
    case Campaign(k, mint) => Alive(s, k) && mint != 0 && mint !in s.uses
    case Settle(k, hand) =>
      && Alive(s, k)
      && var i := s.members[k].inc;
      (i.handed.Some? ==> E.HandsTo(s.log, hand, i.me.id, i.handed.value) && Window(s, s.members[k], hand))
    case Renew(k) => Alive(s, k) && E.Leading(s.members[k].inc).Some?
    case Truncate(k) => Alive(s, k) && E.Leading(s.members[k].inc).Some?
    case Told(k) => Alive(s, k) && E.Leading(s.members[k].inc).Some?
    case Resign(k, _, mint) =>
      Alive(s, k) && mint != 0 && mint !in s.uses && E.Leading(s.members[k].inc).Some?
    case StepDown(k) => Alive(s, k)
    case Land(r) => r in s.sent || r == F.Other
    case Floor(f) => f in s.truncations
  }

  function SetInc(s: Sys, k: nat, i: E.Inc): Sys
    requires k in s.members
  {
    s.(members := s.members[k := s.members[k].(inc := i)])
  }

  function Send(s: Sys, m: Member, r: F.Record): Sys {
    s.(sent := s.sent + {r}, carried := s.carried + {Carried(r, m.origin, m.began)})
  }

  function ClearedBy(m: Member): Origin { if m.inc.published then Cleared else m.origin }

  /** It settles on what its fold says: a term it begins is noted, and nothing is published in it yet. */
  function SettledMember(m: Member): Member {
    var j := E.Settled(m.inc);
    if j.leading.Some? && j.leading != m.inc.leading then
      m.(inc := j, origin := ClearedBy(m), began := m.began + [j.leading.value])
    else m.(inc := j)
  }

  function LedNow(s: Sys, k: nat, hand: nat): set<Led>
    requires k in s.members
  {
    var i := s.members[k].inc;
    if E.Held(i).Some? then
      var l := i.fold.leader.value;
      {Led(k, l.term, l.uuid, i.fold.next, if l.uuid in i.minted then None else Some(hand))}
    else {}
  }

  /** Member `m` after it read a page and became `j`. */
  function ReadBy(m: Member, j: E.Inc): Member {
    m.(inc := j, clean := m.clean && (m.inc.caughtUp || !j.caughtUp || j.fold.known))
  }

  function Next(s: Sys, ev: Event): Sys
    requires Enabled(s, ev)
  {
    match ev
    case Start(k, me) =>
      s.(members := s.members[k := Member(E.New(me), |s.log|, None, true, Given(me.interface), [])])
    case Die(k) => s.(members := s.members[k := s.members[k].(died := Some(|s.log|))])
    case Page(k, page) =>
      s.(members := s.members[k := ReadBy(s.members[k], E.Paged(s.members[k].inc, page, s.floor, |s.log|))])
    case Chase(k, chased) => SetInc(s, k, E.Chased(s.members[k].inc, s.floor, |s.log|, chased))
    case Rewind(k) =>
      var i := s.members[k].inc;
      SetInc(s, k, i.(fold := F.Rewound(i.fold, i.floor)))
    case Publish(k, v) =>
      var m := s.members[k];
      s.(members := s.members[k := m.(inc := E.Published(m.inc, v), origin := Publication(|m.began|, v))])
    case Campaign(k, mint) =>
      var m := s.members[k];
      var (j, r) := E.Campaigned(m.inc, mint);
      var m' := m.(inc := j, origin := ClearedBy(m));
      Send(s, m', r).(members := s.members[k := m'], uses := s.uses[mint := r.term])
    case Settle(k, hand) =>
      s.(members := s.members[k := SettledMember(s.members[k])], led := s.led + LedNow(s, k, hand))
    case Renew(k) => Send(s, s.members[k], E.RenewalOf(s.members[k].inc).value)
    case Truncate(k) => s.(truncations := s.truncations + {E.Leading(s.members[k].inc).value.anchor})
    case Told(k) => SetInc(s, k, E.Told(s.members[k].inc, s.floor))
    case Resign(k, successor, mint) =>
      var (j, r) := E.Resigned(s.members[k].inc, successor, mint);
      SetInc(s, k, j).(sent := s.sent + {r.value},
                       uses := if r.value.successor.Some? then s.uses[mint := r.value.term + 1] else s.uses)
    case StepDown(k) => SetInc(s, k, E.SteppedDown(s.members[k].inc))
    case Land(r) => s.(log := s.log + [r])
    case Floor(f) => s.(floor := Max(s.floor, Min(f, |s.log|)))
  }

  ghost predicate Init(s: Sys) { s == Sys([], 0, map[], {}, {}, map[], {}, {}) }

  // ---- What every run keeps ----

  function EndOf(s: Sys, m: Member): nat { if m.died.Some? then m.died.value else |s.log| }

  /** A hand-off `m` may have watched: one below its death and, when it caught up knowing, past its birth. */
  ghost predicate Window(s: Sys, m: Member, p: nat) { p < EndOf(s, m) && (m.clean ==> m.born <= p) }

  /** Having caught up knowing, it never reads below its birth again. */
  ghost predicate ReadsOn(m: Member) {
    m.clean && m.inc.caughtUp ==>
      (if m.inc.fold.known then m.born <= m.inc.fold.next else m.born <= m.inc.floor)
  }

  ghost predicate HandOk(s: Sys, m: Member) {
    m.inc.handed.Some? ==> exists p: nat :: Window(s, m, p) && E.HandsTo(s.log, p, m.inc.me.id, m.inc.handed.value)
  }

  /** Its records name what `origin` says; while it leads, only what it published in this term. */
  ghost predicate NamesOk(m: Member) {
    && (m.inc.published <==> m.origin.Publication?)
    && m.inc.me.interface == (if m.origin.Cleared? then [] else m.origin.value)
    && (m.inc.leading.Some? ==>
          && m.began != [] && m.began[|m.began| - 1] == m.inc.leading.value
          && (m.origin.Publication? ==> m.origin.epoch == |m.began|))
  }

  ghost predicate GivenUpOk(i: E.Inc) { i.leading.Some? && i.resigned.Some? ==> i.leading.value > i.resigned.value }

  ghost predicate MemberOk(s: Sys, m: Member) {
    && E.Reads(s.log, m.inc) && m.inc.floor <= s.floor && m.inc.me.id != 0
    && m.born <= EndOf(s, m) <= |s.log|
    && ReadsOn(m) && HandOk(s, m) && NamesOk(m) && GivenUpOk(m.inc)
  }

  /** Two incarnations of one candidate: one died before the other started. */
  ghost predicate Apart(a: Member, b: Member) {
    a.inc.me.id == b.inc.me.id ==>
      (a.died.Some? && a.died.value <= b.born) || (b.died.Some? && b.died.value <= a.born)
  }

  /** Every uuid a record names was minted for the term it names. */
  ghost predicate Signed(uses: map<F.Uuid, nat>, r: F.Record) {
    match r
    case Campaign(term, _, u) => u in uses && uses[u] == term
    case Renew(term, _, u) => u in uses && uses[u] == term
    case Resign(term, _, next) => next.Some? ==> next.value.1 in uses && uses[next.value.1] == term + 1
    case Other => true
  }

  /** A hand-off's uuid was minted by the candidate that resigned, for another. */
  ghost predicate Passed(s: Sys, r: F.Record) {
    r.Resign? && r.successor.Some? ==>
      exists k :: k in s.members && r.successor.value.1 in s.members[k].inc.minted
                  && s.members[k].inc.me.id == r.who != r.successor.value.0.id
  }

  ghost predicate LedOk(s: Sys, e: Led) {
    && e.who in s.members && e.at <= |s.log|
    && var m := s.members[e.who]; var r := F.Full(s.log[..e.at]);
    && r.leader.Some? && r.term == e.term && r.leader.value.uuid == e.uuid
    && r.leader.value.candidate.id == m.inc.me.id
    && (e.handed == None ==> e.uuid in m.inc.minted)
    && (e.handed.Some? ==> Window(s, m, e.handed.value) && E.HandsTo(s.log, e.handed.value, m.inc.me.id, e.uuid))
  }

  ghost predicate CarriedOk(c: Carried) {
    && (c.record.Campaign? || c.record.Renew?)
    && c.record.candidate.interface == (if c.origin.Cleared? then [] else c.origin.value)
    && (c.record.Campaign? ==> !c.origin.Publication?)
    && (c.record.Renew? && c.origin.Publication? ==>
          c.began != [] && c.origin.epoch == |c.began| && c.began[|c.began| - 1] == c.record.term)
  }

  ghost predicate Floors(s: Sys) {
    && (s.floor == 0 || F.Legit(s.log, s.floor))
    && forall f {:trigger F.Legit(s.log, f)} :: f in s.truncations ==> F.Legit(s.log, f)
  }

  ghost predicate Members(s: Sys) {
    && (forall k {:trigger s.members[k]} :: k in s.members ==> MemberOk(s, s.members[k]))
    && (forall a, b {:trigger Apart(s.members[a], s.members[b])} ::
          a in s.members && b in s.members && a != b ==> Apart(s.members[a], s.members[b]))
  }

  ghost predicate Mints(s: Sys) {
    && 0 !in s.uses
    && (forall k {:trigger s.members[k]} :: k in s.members ==> s.members[k].inc.minted <= s.uses.Keys)
    && (forall a, b {:trigger s.members[a], s.members[b]} ::
          a in s.members && b in s.members && a != b ==> s.members[a].inc.minted !! s.members[b].inc.minted)
  }

  ghost predicate Records(s: Sys) {
    && (forall r {:trigger r in s.sent} :: r in s.sent ==> Signed(s.uses, r) && Passed(s, r))
    && (forall r {:trigger r in s.log} :: r in s.log ==> r in s.sent || r == F.Other)
  }

  ghost predicate Histories(s: Sys) {
    && (forall e {:trigger LedOk(s, e)} :: e in s.led ==> LedOk(s, e))
    && (forall c {:trigger CarriedOk(c)} :: c in s.carried ==> CarriedOk(c))
  }

  ghost predicate Inv(s: Sys) { Floors(s) && Members(s) && Mints(s) && Records(s) && Histories(s) }

  // ---- The log grows ----

  lemma HandsToGrows(log: seq<F.Record>, more: seq<F.Record>, p: nat, id: nat, uuid: F.Uuid)
    requires E.HandsTo(log, p, id, uuid) && log <= more
    ensures E.HandsTo(more, p, id, uuid)
  {
    assert more[..p] == log[..p] && more[..p + 1] == log[..p + 1];
  }

  lemma MemberGrows(s: Sys, t: Sys, m: Member)
    requires MemberOk(s, m) && s.log <= t.log && s.floor <= t.floor
    ensures MemberOk(t, m)
  {
    F.AgreesGrows(s.log, t.log, m.inc.floor, m.inc.fold);
    if m.inc.floor != 0 {
      F.LegitGrows(s.log, t.log, m.inc.floor);
    }
    if m.inc.handed.Some? {
      var p: nat :| Window(s, m, p) && E.HandsTo(s.log, p, m.inc.me.id, m.inc.handed.value);
      HandsToGrows(s.log, t.log, p, m.inc.me.id, m.inc.handed.value);
      assert Window(t, m, p);
    }
  }

  lemma LedGrows(s: Sys, t: Sys, e: Led)
    requires LedOk(s, e) && s.log <= t.log && e.who in t.members && Later(s.members[e.who], t.members[e.who])
    requires EndOf(s, s.members[e.who]) <= EndOf(t, t.members[e.who])
    ensures LedOk(t, e)
  {
    assert t.log[..e.at] == s.log[..e.at];
    if e.handed.Some? {
      HandsToGrows(s.log, t.log, e.handed.value, s.members[e.who].inc.me.id, e.uuid);
    }
  }

  /** The same incarnation, later. */
  ghost predicate Later(m: Member, n: Member) {
    && n.inc.me.id == m.inc.me.id && n.born == m.born && m.inc.minted <= n.inc.minted && (n.clean ==> m.clean)
  }

  lemma GrowKeeps(s: Sys, t: Sys)
    requires Inv(s) && s.log <= t.log && s.floor <= t.floor && t == s.(log := t.log, floor := t.floor)
    requires t.floor == 0 || F.Legit(t.log, t.floor)
    requires forall r {:trigger r in t.log} :: r in t.log ==> r in s.log || r in s.sent || r == F.Other
    ensures Inv(t)
  {
    forall f | f in t.truncations
      ensures F.Legit(t.log, f)
    {
      F.LegitGrows(s.log, t.log, f);
    }
    forall k | k in t.members
      ensures MemberOk(t, t.members[k])
    {
      MemberGrows(s, t, s.members[k]);
    }
    forall e | e in t.led
      ensures LedOk(t, e)
    {
      assert LedOk(s, e);
      LedGrows(s, t, e);
    }
    forall r | r in t.sent
      ensures Signed(t.uses, r) && Passed(t, r)
    {
      PassedStays(s, t, r);
    }
  }

  lemma PassedStays(s: Sys, t: Sys, r: F.Record)
    requires Passed(s, r)
    requires forall k {:trigger s.members[k]} :: k in s.members ==> k in t.members && Later(s.members[k], t.members[k])
    ensures Passed(t, r)
  {
    if r.Resign? && r.successor.Some? {
      var k :| k in s.members && r.successor.value.1 in s.members[k].inc.minted
               && s.members[k].inc.me.id == r.who != r.successor.value.0.id;
      assert Later(s.members[k], t.members[k]);
    }
  }

  // ---- One member moves ----

  lemma RecordsKeep(s: Sys, t: Sys)
    requires Records(s) && Histories(s) && t.log == s.log && t.sent == s.sent && t.uses == s.uses
    requires t.led == s.led && t.carried == s.carried
    requires forall k {:trigger s.members[k]} :: k in s.members ==>
      k in t.members && Later(s.members[k], t.members[k]) && EndOf(s, s.members[k]) <= EndOf(t, t.members[k])
    ensures Records(t) && Histories(t)
  {
    forall e | e in t.led
      ensures LedOk(t, e)
    {
      assert LedOk(s, e);
      assert Later(s.members[e.who], t.members[e.who]);
      LedGrows(s, t, e);
    }
    forall r | r in t.sent
      ensures Signed(t.uses, r) && Passed(t, r)
    {
      PassedStays(s, t, r);
    }
  }

  lemma MemberMoves(s: Sys, k: nat, m: Member)
    requires Members(s) && k in s.members && MemberOk(s, m) && Later(s.members[k], m)
    requires s.members[k].died.Some? ==> m.died == s.members[k].died
    ensures Members(s.(members := s.members[k := m]))
  {
    var t := s.(members := s.members[k := m]);
    forall a | a in t.members
      ensures MemberOk(t, t.members[a])
    {
      MemberSame(s, t, t.members[a]);
    }
    ApartStays(s, k, m);
  }

  lemma MintsStay(s: Sys, k: nat, m: Member)
    requires Mints(s) && k in s.members && m.inc.minted == s.members[k].inc.minted
    ensures Mints(s.(members := s.members[k := m]))
  {
    var t := s.(members := s.members[k := m]);
    forall a, b | a in t.members && b in t.members && a != b
      ensures t.members[a].inc.minted !! t.members[b].inc.minted
    {
      assert s.members[a].inc.minted !! s.members[b].inc.minted;
    }
  }

  /** Member `k` became `m`, with nothing minted and nothing else moved. */
  lemma MemberKeeps(s: Sys, k: nat, m: Member)
    requires Inv(s) && k in s.members && MemberOk(s, m) && Later(s.members[k], m)
    requires m.inc.minted == s.members[k].inc.minted && EndOf(s, s.members[k]) == EndOf(s, m)
    requires s.members[k].died.Some? ==> m.died == s.members[k].died
    ensures Inv(s.(members := s.members[k := m]))
  {
    MemberMoves(s, k, m);
    MintsStay(s, k, m);
    RecordsKeep(s, s.(members := s.members[k := m]));
  }

  lemma MemberSame(s: Sys, t: Sys, m: Member)
    requires MemberOk(s, m) && t.log == s.log && t.floor == s.floor
    ensures MemberOk(t, m)
  {
    MemberGrows(s, t, m);
  }

  lemma ApartStays(s: Sys, k: nat, m: Member)
    requires Members(s) && k in s.members && Later(s.members[k], m)
    requires s.members[k].died.Some? ==> m.died == s.members[k].died
    ensures forall a, b {:trigger Apart(s.members[k := m][a], s.members[k := m][b])} ::
      a in s.members[k := m] && b in s.members[k := m] && a != b ==> Apart(s.members[k := m][a], s.members[k := m][b])
  {
    var ms := s.members[k := m];
    forall a, b | a in ms && b in ms && a != b
      ensures Apart(ms[a], ms[b])
    {
      assert Apart(s.members[a], s.members[b]);
    }
  }

  // ---- Reading ----

  lemma PageReadsOn(s: Sys, m: Member, n: nat, j: E.Inc)
    requires MemberOk(s, m) && m.died == None && E.ReadTo(s.log, s.floor, m.inc, n, j)
    ensures ReadsOn(ReadBy(m, j))
  {
  }

  lemma PageHand(s: Sys, m: Member, n: nat, j: E.Inc)
    requires MemberOk(s, m) && m.died == None && E.ReadTo(s.log, s.floor, m.inc, n, j) && m.inc.fold.next + n <= |s.log|
    requires m.inc.floor <= m.inc.fold.next
    ensures HandOk(s, ReadBy(m, j))
  {
    var from := m.inc.fold.next;
    var m' := ReadBy(m, j);
    if j.handed != m.inc.handed {
      var p: nat :| from <= p < from + n && E.HandsTo(s.log, p, m.inc.me.id, j.handed.value);
      assert Window(s, m', p);
    } else if j.handed.Some? {
      var p: nat :| Window(s, m, p) && E.HandsTo(s.log, p, m.inc.me.id, m.inc.handed.value);
      assert Window(s, m', p);
    }
  }

  lemma PageJoins(s: Sys, k: nat, n: nat, j: E.Inc)
    requires Inv(s) && Alive(s, k) && s.members[k].inc.fold.next + n <= |s.log|
    requires s.members[k].inc.floor <= s.members[k].inc.fold.next
    requires E.ReadTo(s.log, s.floor, s.members[k].inc, n, j)
    ensures Inv(s.(members := s.members[k := ReadBy(s.members[k], j)]))
  {
    PageReadsOn(s, s.members[k], n, j);
    PageHand(s, s.members[k], n, j);
    MemberKeeps(s, k, ReadBy(s.members[k], j));
  }

  lemma PageKeeps(s: Sys, k: nat, page: seq<F.Record>)
    requires Inv(s) && Enabled(s, Page(k, page))
    ensures Inv(Next(s, Page(k, page)))
  {
    assert MemberOk(s, s.members[k]);
    E.PagedReadsTo(s.log, s.floor, s.members[k].inc, page);
    PageJoins(s, k, |page|, E.Paged(s.members[k].inc, page, s.floor, |s.log|));
  }

  /** A new fold of member `k`, which stays on the log. */
  lemma RefoldKeeps(s: Sys, k: nat, i: E.Inc)
    requires Inv(s) && Alive(s, k) && E.Reads(s.log, i) && i.floor <= s.floor
    requires i == s.members[k].inc.(fold := i.fold, floor := i.floor) && ReadsOn(s.members[k].(inc := i))
    ensures Inv(SetInc(s, k, i))
  {
    var m := s.members[k];
    var m' := m.(inc := i);
    assert HandOk(s, m') by {
      if i.handed.Some? {
        var p: nat :| Window(s, m, p) && E.HandsTo(s.log, p, m.inc.me.id, m.inc.handed.value);
        assert Window(s, m', p);
      }
    }
    MemberKeeps(s, k, m');
  }

  lemma ChaseKeeps(s: Sys, k: nat, chased: bool)
    requires Inv(s) && Enabled(s, Chase(k, chased))
    ensures Inv(Next(s, Chase(k, chased)))
  {
    var i := s.members[k].inc;
    E.ChasedReads(s.log, s.floor, i, chased);
    E.ChasedPast(s.log, s.floor, i, chased);
    RefoldKeeps(s, k, E.Chased(i, s.floor, |s.log|, chased));
  }

  lemma RewindKeeps(s: Sys, k: nat)
    requires Inv(s) && Enabled(s, Rewind(k))
    ensures Inv(Next(s, Rewind(k)))
  {
    var i := s.members[k].inc;
    E.RewindAgrees(s.log, i.floor, i.fold);
    E.RewindPast(s.log, i.floor, i.fold);
    RefoldKeeps(s, k, i.(fold := F.Rewound(i.fold, i.floor)));
  }

  // ---- Living and dying ----

  lemma DieKeeps(s: Sys, k: nat)
    requires Inv(s) && Enabled(s, Die(k))
    ensures Inv(Next(s, Die(k)))
  {
    var m := s.members[k];
    var m' := m.(died := Some(|s.log|));
    assert HandOk(s, m') by {
      if m.inc.handed.Some? {
        var p: nat :| Window(s, m, p) && E.HandsTo(s.log, p, m.inc.me.id, m.inc.handed.value);
        assert Window(s, m', p);
      }
    }
    MemberKeeps(s, k, m');
  }

  lemma StartMembers(s: Sys, k: nat, m: Member)
    requires Members(s) && k !in s.members && MemberOk(s, m) && m.born == |s.log| && m.died == None
    requires forall a {:trigger s.members[a]} :: Alive(s, a) ==> s.members[a].inc.me.id != m.inc.me.id
    ensures Members(s.(members := s.members[k := m]))
  {
    var t := s.(members := s.members[k := m]);
    forall a | a in t.members
      ensures MemberOk(t, t.members[a])
    {
      MemberSame(s, t, t.members[a]);
    }
    forall a, b | a in t.members && b in t.members && a != b
      ensures Apart(t.members[a], t.members[b])
    {
      if a != k && b != k {
        assert Apart(s.members[a], s.members[b]);
      } else {
        var other := if a == k then b else a;
        assert MemberOk(s, s.members[other]);
        assert !Alive(s, other) || s.members[other].inc.me.id != m.inc.me.id;
      }
    }
  }

  lemma StartKeeps(s: Sys, k: nat, me: F.Candidate)
    requires Inv(s) && Enabled(s, Start(k, me))
    ensures Inv(Next(s, Start(k, me)))
  {
    var m := Member(E.New(me), |s.log|, None, true, Given(me.interface), []);
    F.NewAgrees(s.log);
    assert MemberOk(s, m);
    StartMembers(s, k, m);
    RecordsKeep(s, s.(members := s.members[k := m]));
  }

  // ---- Acting ----

  /** Member `k` changed only what its records name or which term it leads. */
  lemma ActKeeps(s: Sys, k: nat, m: Member)
    requires Inv(s) && Alive(s, k) && NamesOk(m) && GivenUpOk(m.inc)
    requires m == s.members[k].(inc := m.inc, origin := m.origin, began := m.began)
    requires var i := s.members[k].inc;
      m.inc == i.(me := m.inc.me, leading := m.inc.leading, resigned := m.inc.resigned, published := m.inc.published)
      && m.inc.me.id == i.me.id
    ensures Inv(s.(members := s.members[k := m]))
  {
    var was := s.members[k];
    assert HandOk(s, m) by {
      if m.inc.handed.Some? {
        var p: nat :| Window(s, was, p) && E.HandsTo(s.log, p, was.inc.me.id, was.inc.handed.value);
        assert Window(s, m, p);
      }
    }
    MemberKeeps(s, k, m);
  }

  lemma PublishKeeps(s: Sys, k: nat, v: Value)
    requires Inv(s) && Enabled(s, Publish(k, v))
    ensures Inv(Next(s, Publish(k, v)))
  {
    assert MemberOk(s, s.members[k]);
    ActKeeps(s, k, Next(s, Publish(k, v)).members[k]);
  }

  lemma StepDownKeeps(s: Sys, k: nat)
    requires Inv(s) && Enabled(s, StepDown(k))
    ensures Inv(Next(s, StepDown(k)))
  {
    assert MemberOk(s, s.members[k]);
    ActKeeps(s, k, s.members[k].(inc := E.SteppedDown(s.members[k].inc)));
  }

  /** What it leads by is the rule's leader below its position. */
  lemma LeaderRules(s: Sys, k: nat)
    requires Inv(s) && k in s.members && s.members[k].inc.fold.leader.Some?
    ensures var f := s.members[k].inc.fold;
      && f.known && f.next <= |s.log| && F.Same(F.RuledOf(f), F.Full(s.log[..f.next]))
      && f.leader.value.term == f.term
      && f.leader.value.uuid in s.uses && s.uses[f.leader.value.uuid] == f.leader.value.term
      && F.Legit(s.log, f.leader.value.anchor)
  {
    assert MemberOk(s, s.members[k]);
    var f := s.members[k].inc.fold;
    F.FullLeader(s.log[..f.next]);
    F.AnchorIsLegit(s.log, f.next);
    LeaderSigned(s.uses, s.log, f.next);
  }

  lemma {:induction false} LeaderSigned(uses: map<F.Uuid, nat>, log: seq<F.Record>, p: nat)
    requires p <= |log| && forall r {:trigger r in log} :: r in log ==> Signed(uses, r)
    ensures var r := F.Full(log[..p]);
      r.leader.Some? ==> r.leader.value.uuid in uses && uses[r.leader.value.uuid] == r.leader.value.term
    decreases p
  {
    if p > 0 {
      LeaderSigned(uses, log, p - 1);
      F.FullStep(log, p - 1);
      F.FullLeader(log[..p - 1]);
      assert log[p - 1] in log;
    }
  }

  lemma SettledOk(m: Member)
    requires NamesOk(m) && GivenUpOk(m.inc)
    ensures var n := SettledMember(m);
      && NamesOk(n) && GivenUpOk(n.inc) && n == m.(inc := n.inc, origin := n.origin, began := n.began)
      && n.inc == m.inc.(me := n.inc.me, leading := n.inc.leading, published := n.inc.published)
      && n.inc.me.id == m.inc.me.id
  {
  }

  lemma LedNowOk(s: Sys, k: nat, hand: nat, e: Led)
    requires Inv(s) && Enabled(s, Settle(k, hand)) && e in LedNow(s, k, hand)
    ensures LedOk(s, e)
  {
    LeaderRules(s, k);
  }

  lemma SettleKeeps(s: Sys, k: nat, hand: nat)
    requires Inv(s) && Enabled(s, Settle(k, hand))
    ensures Inv(Next(s, Settle(k, hand)))
  {
    var m := s.members[k];
    assert MemberOk(s, m);
    var t := s.(led := s.led + LedNow(s, k, hand));
    forall e | e in t.led
      ensures LedOk(t, e)
    {
      if e !in s.led {
        LedNowOk(s, k, hand, e);
      }
      assert LedOk(s, e);
    }
    HistoryFrame(s, t);
    SettledOk(m);
    ActKeeps(t, k, SettledMember(m));
  }

  /** Only the history grew. */
  lemma HistoryFrame(t: Sys, u: Sys)
    requires Inv(t) && u == t.(led := u.led, carried := u.carried) && Histories(u)
    ensures Inv(u)
  {
    forall k | k in u.members
      ensures MemberOk(u, u.members[k])
    {
      MemberSame(t, u, t.members[k]);
    }
    forall r | r in u.sent
      ensures Passed(u, r)
    {
      PassedStays(t, u, r);
    }
  }

  // ---- Sending ----

  /** A signed record is sent, its carriage noted. */
  lemma SendKeeps(s: Sys, r: F.Record, c: set<Carried>)
    requires Inv(s) && Signed(s.uses, r) && Passed(s, r) && forall x :: x in c ==> CarriedOk(x)
    ensures Inv(s.(sent := s.sent + {r}, carried := s.carried + c))
  {
    var t := s.(sent := s.sent + {r}, carried := s.carried + c);
    forall k | k in t.members
      ensures MemberOk(t, t.members[k])
    {
      MemberSame(s, t, s.members[k]);
    }
    forall e | e in t.led
      ensures LedOk(t, e)
    {
      assert LedOk(s, e);
    }
    forall x | x in t.sent
      ensures Signed(t.uses, x) && Passed(t, x)
    {
      PassedStays(s, t, x);
    }
  }

  lemma RenewKeeps(s: Sys, k: nat)
    requires Inv(s) && Enabled(s, Renew(k))
    ensures Inv(Next(s, Renew(k)))
  {
    var m := s.members[k];
    assert MemberOk(s, m);
    LeaderRules(s, k);
    var r := E.RenewalOf(m.inc).value;
    SendKeeps(s, r, {Carried(r, m.origin, m.began)});
  }

  lemma TruncateKeeps(s: Sys, k: nat)
    requires Inv(s) && Enabled(s, Truncate(k))
    ensures Inv(Next(s, Truncate(k)))
  {
    LeaderRules(s, k);
    var t := Next(s, Truncate(k));
    forall a | a in t.members
      ensures MemberOk(t, t.members[a])
    {
      MemberSame(s, t, s.members[a]);
    }
    forall e | e in t.led
      ensures LedOk(t, e)
    {
      assert LedOk(s, e);
    }
    forall r | r in t.sent
      ensures Passed(t, r)
    {
      PassedStays(s, t, r);
    }
  }

  lemma ToldKeeps(s: Sys, k: nat)
    requires Inv(s) && Enabled(s, Told(k))
    ensures Inv(Next(s, Told(k)))
  {
    assert MemberOk(s, s.members[k]);
    RefoldKeeps(s, k, E.Told(s.members[k].inc, s.floor));
  }

  function Minted(s: Sys, k: nat, mint: F.Uuid, term: nat): Sys
    requires k in s.members
  {
    var i := s.members[k].inc;
    SetInc(s, k, i.(minted := i.minted + {mint})).(uses := s.uses[mint := term])
  }

  lemma MintMember(s: Sys, t: Sys, m: Member, mint: F.Uuid)
    requires MemberOk(s, m) && t.log == s.log && t.floor == s.floor
    ensures MemberOk(t, m.(inc := m.inc.(minted := m.inc.minted + {mint})))
  {
    var m' := m.(inc := m.inc.(minted := m.inc.minted + {mint}));
    if m.inc.handed.Some? {
      var p: nat :| Window(s, m, p) && E.HandsTo(s.log, p, m.inc.me.id, m.inc.handed.value);
      assert Window(t, m', p);
    }
  }

  lemma MintMembers(s: Sys, k: nat, mint: F.Uuid, term: nat)
    requires Members(s) && Alive(s, k)
    ensures Members(Minted(s, k, mint, term))
  {
    var t := Minted(s, k, mint, term);
    MintMember(s, t, s.members[k], mint);
    forall a | a in t.members
      ensures MemberOk(t, t.members[a])
    {
      if a != k {
        MemberSame(s, t, s.members[a]);
      }
    }
    ApartStays(s, k, t.members[k]);
  }

  lemma MintRecords(s: Sys, k: nat, mint: F.Uuid, term: nat)
    requires Inv(s) && Alive(s, k) && mint !in s.uses
    ensures Records(Minted(s, k, mint, term)) && Histories(Minted(s, k, mint, term))
  {
    var t := Minted(s, k, mint, term);
    forall e | e in t.led
      ensures LedOk(t, e)
    {
      assert LedOk(s, e);
      LedGrows(s, t, e);
    }
    forall r | r in t.sent
      ensures Signed(t.uses, r) && Passed(t, r)
    {
      PassedStays(s, t, r);
    }
  }

  lemma MintSets(s: Sys, k: nat, mint: F.Uuid, term: nat)
    requires Mints(s) && Alive(s, k) && mint != 0 && mint !in s.uses
    ensures Mints(Minted(s, k, mint, term))
  {
    var t := Minted(s, k, mint, term);
    forall a, b | a in t.members && b in t.members && a != b
      ensures t.members[a].inc.minted !! t.members[b].inc.minted
    {
      assert s.members[a].inc.minted !! s.members[b].inc.minted;
      assert s.members[a].inc.minted <= s.uses.Keys && s.members[b].inc.minted <= s.uses.Keys;
    }
  }

  /** Member `k` mints a new uuid for `term`. */
  lemma MintKeeps(s: Sys, k: nat, mint: F.Uuid, term: nat)
    requires Inv(s) && Alive(s, k) && mint != 0 && mint !in s.uses
    ensures Inv(Minted(s, k, mint, term))
  {
    MintMembers(s, k, mint, term);
    MintRecords(s, k, mint, term);
    MintSets(s, k, mint, term);
  }

  /** The member that campaigns, its publication forgotten. */
  lemma CampaignNames(m: Member, mint: F.Uuid)
    requires NamesOk(m)
    ensures var (j, r) := E.Campaigned(m.inc, mint); var m' := m.(inc := j, origin := ClearedBy(m));
      && NamesOk(m') && CarriedOk(Carried(r, m'.origin, m'.began))
      && j == m.inc.(me := j.me, published := false, minted := m.inc.minted + {mint}) && j.me.id == m.inc.me.id
  {
  }

  /** `m` is member `was` acting: only its names, its leadership and its uuids changed. */
  ghost predicate ActsAs(was: Member, m: Member, minted: set<F.Uuid>) {
    && NamesOk(m) && GivenUpOk(m.inc) && m.inc.me.id == was.inc.me.id
    && m == was.(inc := m.inc, origin := m.origin, began := m.began)
    && m.inc == was.inc.(me := m.inc.me, leading := m.inc.leading, resigned := m.inc.resigned,
                         published := m.inc.published, minted := minted)
  }

  /** The state after member `k` acted as `m` and its record was sent. */
  function Acted(s: Sys, k: nat, m: Member, uses: map<F.Uuid, nat>, r: F.Record, c: set<Carried>): Sys {
    s.(members := s.members[k := m], uses := uses, sent := s.sent + {r}, carried := s.carried + c)
  }

  lemma ActSends(s: Sys, k: nat, m: Member, r: F.Record, c: set<Carried>)
    requires Inv(s) && Alive(s, k) && ActsAs(s.members[k], m, s.members[k].inc.minted)
    requires Signed(s.uses, r) && Passed(s.(members := s.members[k := m]), r) && forall x :: x in c ==> CarriedOk(x)
    ensures Inv(Acted(s, k, m, s.uses, r, c))
  {
    ActKeeps(s, k, m);
    SendKeeps(s.(members := s.members[k := m]), r, c);
  }

  lemma MintSends(s: Sys, k: nat, mint: F.Uuid, term: nat, m: Member, r: F.Record, c: set<Carried>)
    requires Inv(s) && Alive(s, k) && mint != 0 && mint !in s.uses
    requires ActsAs(s.members[k], m, s.members[k].inc.minted + {mint})
    requires Signed(s.uses[mint := term], r) && Passed(s.(members := s.members[k := m]), r)
    requires forall x :: x in c ==> CarriedOk(x)
    ensures Inv(Acted(s, k, m, s.uses[mint := term], r, c))
  {
    MintKeeps(s, k, mint, term);
    var t := Minted(s, k, mint, term);
    assert t.members[k := m] == s.members[k := m];
    assert Passed(t.(members := t.members[k := m]), r) by {
      PassedStays(s.(members := s.members[k := m]), t.(members := t.members[k := m]), r);
    }
    ActSends(t, k, m, r, c);
    assert Acted(t, k, m, t.uses, r, c) == Acted(s, k, m, s.uses[mint := term], r, c);
  }

  lemma CampaignIs(s: Sys, k: nat, mint: F.Uuid)
    requires Enabled(s, Campaign(k, mint))
    ensures var m := s.members[k]; var (j, r) := E.Campaigned(m.inc, mint);
      var m' := m.(inc := j, origin := ClearedBy(m));
      Next(s, Campaign(k, mint)) == Acted(s, k, m', s.uses[mint := r.term], r, {Carried(r, m'.origin, m'.began)})
  {
  }

  lemma CampaignKeeps(s: Sys, k: nat, mint: F.Uuid)
    requires Inv(s) && Enabled(s, Campaign(k, mint))
    ensures Inv(Next(s, Campaign(k, mint)))
  {
    var m := s.members[k];
    assert MemberOk(s, m);
    CampaignNames(m, mint);
    CampaignIs(s, k, mint);
    var (j, r) := E.Campaigned(m.inc, mint);
    var m' := m.(inc := j, origin := ClearedBy(m));
    MintSends(s, k, mint, r.term, m', r, {Carried(r, m'.origin, m'.began)});
  }

  lemma ResignActs(m: Member, successor: Option<F.Candidate>, mint: F.Uuid)
    requires NamesOk(m) && GivenUpOk(m.inc) && E.Leading(m.inc).Some?
    ensures var (j, o) := E.Resigned(m.inc, successor, mint);
      && o.Some? && o.value.Resign? && o.value.who == m.inc.me.id
      && ActsAs(m, m.(inc := j), if o.value.successor.Some? then m.inc.minted + {mint} else m.inc.minted)
      && (o.value.successor.Some? ==> o.value.successor.value.1 == mint && o.value.successor.value.0.id != m.inc.me.id)
  {
  }

  lemma ResignPasses(s: Sys, k: nat, m: Member, r: F.Record)
    requires k in s.members && r.Resign? && r.who == m.inc.me.id
    requires r.successor.Some? ==> r.successor.value.1 in m.inc.minted && r.successor.value.0.id != m.inc.me.id
    ensures Passed(s.(members := s.members[k := m]), r)
  {
    var t := s.(members := s.members[k := m]);
    assert k in t.members && t.members[k] == m;
  }

  function UsesAfter(s: Sys, r: F.Record, mint: F.Uuid): map<F.Uuid, nat>
    requires r.Resign?
  {
    if r.successor.Some? then s.uses[mint := r.term + 1] else s.uses
  }

  lemma ResignSends(s: Sys, k: nat, mint: F.Uuid, m: Member, r: F.Record)
    requires Inv(s) && Alive(s, k) && mint != 0 && mint !in s.uses && r.Resign? && r.who == m.inc.me.id
    requires ActsAs(s.members[k], m,
                    if r.successor.Some? then s.members[k].inc.minted + {mint} else s.members[k].inc.minted)
    requires r.successor.Some? ==> r.successor.value.1 == mint && r.successor.value.0.id != m.inc.me.id
    ensures Inv(Acted(s, k, m, UsesAfter(s, r, mint), r, {}))
  {
    ResignPasses(s, k, m, r);
    if r.successor.Some? {
      MintSends(s, k, mint, r.term + 1, m, r, {});
    } else {
      ActSends(s, k, m, r, {});
    }
  }

  lemma ResignIs(s: Sys, k: nat, successor: Option<F.Candidate>, mint: F.Uuid)
    requires Enabled(s, Resign(k, successor, mint))
    ensures var (j, o) := E.Resigned(s.members[k].inc, successor, mint);
      && o.Some? && o.value.Resign?
      && Next(s, Resign(k, successor, mint)) ==
         Acted(s, k, s.members[k].(inc := j), UsesAfter(s, o.value, mint), o.value, {})
  {
  }

  lemma ResignKeeps(s: Sys, k: nat, successor: Option<F.Candidate>, mint: F.Uuid)
    requires Inv(s) && Enabled(s, Resign(k, successor, mint))
    ensures Inv(Next(s, Resign(k, successor, mint)))
  {
    assert MemberOk(s, s.members[k]);
    ResignActs(s.members[k], successor, mint);
    ResignIs(s, k, successor, mint);
    var (j, o) := E.Resigned(s.members[k].inc, successor, mint);
    ResignSends(s, k, mint, s.members[k].(inc := j), o.value);
  }

  // ---- Landing ----

  lemma LandKeeps(s: Sys, r: F.Record)
    requires Inv(s) && Enabled(s, Land(r))
    ensures Inv(Next(s, Land(r)))
  {
    var t := Next(s, Land(r));
    if s.floor != 0 {
      F.LegitGrows(s.log, t.log, s.floor);
    }
    GrowKeeps(s, t);
  }

  lemma FloorKeeps(s: Sys, f: nat)
    requires Inv(s) && Enabled(s, Floor(f))
    ensures Inv(Next(s, Floor(f)))
  {
    assert F.Legit(s.log, f);
    GrowKeeps(s, Next(s, Floor(f)));
  }

  /** The steps that read, start, die and land. */
  lemma ReadingKeeps(s: Sys, ev: Event)
    requires Inv(s) && Enabled(s, ev)
    requires ev.Start? || ev.Die? || ev.Page? || ev.Chase? || ev.Rewind? || ev.Land? || ev.Floor?
    ensures Inv(Next(s, ev))
  {
    match ev
    case Start(k, me) => StartKeeps(s, k, me);
    case Die(k) => DieKeeps(s, k);
    case Page(k, page) => PageKeeps(s, k, page);
    case Chase(k, chased) => ChaseKeeps(s, k, chased);
    case Rewind(k) => RewindKeeps(s, k);
    case Land(r) => LandKeeps(s, r);
    case Floor(f) => FloorKeeps(s, f);
  }

  /** The steps of a leader. */
  lemma LeadingKeeps(s: Sys, ev: Event)
    requires Inv(s) && Enabled(s, ev) && (ev.Renew? || ev.Truncate? || ev.Told? || ev.Resign? || ev.StepDown?)
    ensures Inv(Next(s, ev))
  {
    match ev
    case Renew(k) => RenewKeeps(s, k);
    case Truncate(k) => TruncateKeeps(s, k);
    case Told(k) => ToldKeeps(s, k);
    case Resign(k, successor, mint) => ResignKeeps(s, k, successor, mint);
    case StepDown(k) => StepDownKeeps(s, k);
  }

  lemma NextKeeps(s: Sys, ev: Event)
    requires Inv(s) && Enabled(s, ev)
    ensures Inv(Next(s, ev))
  {
    if ev.Publish? {
      PublishKeeps(s, ev.id, ev.interface);
    } else if ev.Campaign? {
      CampaignKeeps(s, ev.id, ev.mint);
    } else if ev.Settle? {
      SettleKeeps(s, ev.id, ev.hand);
    } else if ev.Renew? || ev.Truncate? || ev.Told? || ev.Resign? || ev.StepDown? {
      LeadingKeeps(s, ev);
    } else {
      ReadingKeeps(s, ev);
    }
  }

  // ---- Runs ----

  ghost predicate IsRun(s: Sys, events: seq<Event>)
    decreases |events|
  {
    events == [] || (Enabled(s, events[0]) && IsRun(Next(s, events[0]), events[1..]))
  }

  ghost function Reached(s: Sys, events: seq<Event>): Sys
    requires IsRun(s, events)
    decreases |events|
  {
    if events == [] then s else Reached(Next(s, events[0]), events[1..])
  }

  lemma {:induction false} RunKeepsInv(s: Sys, events: seq<Event>)
    requires Inv(s) && IsRun(s, events)
    ensures Inv(Reached(s, events))
    decreases |events|
  {
    if events != [] {
      NextKeeps(s, events[0]);
      RunKeepsInv(Next(s, events[0]), events[1..]);
    }
  }

  lemma Reachable(s: Sys, events: seq<Event>)
    requires Init(s) && IsRun(s, events)
    ensures Inv(Reached(s, events))
  {
    RunKeepsInv(s, events);
  }

  /** Any candidate may settle at any time: the hand-off it holds is one it watched. */
  lemma MaySettle(s: Sys, k: nat) returns (hand: nat)
    requires Inv(s) && Alive(s, k)
    ensures Enabled(s, Settle(k, hand))
  {
    var m := s.members[k];
    assert MemberOk(s, m);
    hand := 0;
    if m.inc.handed.Some? {
      hand :| Window(s, m, hand) && E.HandsTo(s.log, hand, m.inc.me.id, m.inc.handed.value);
    }
  }

  /**
    What a candidate asks of its fold is always allowed, in every run: the fold is sane,
    the term it leads lies above any it gave up, and neither going back to the floor nor
    any page the journal may serve it next leaves a fold with nowhere to go back to. So
    no assertion of the candidate or of its fold can fail.
    */
  lemma CandidateIsAllowed(s: Sys, events: seq<Event>, k: nat)
    requires Init(s) && IsRun(s, events) && k in Reached(s, events).members
    ensures var t := Reached(s, events); var i := t.members[k].inc;
      && F.Sane(i.fold) && GivenUpOk(i) && E.Rewindable(i.fold, i.floor)
      && forall page :: E.Served(t.log, t.floor, i, page) ==> E.Rewindable(E.PageFold(i, page, t.floor), t.floor)
  {
    Reachable(s, events);
    var t := Reached(s, events);
    var i := t.members[k].inc;
    assert MemberOk(t, t.members[k]);
    F.AgreesSane(t.log, i.floor, i.fold);
    forall page | E.Served(t.log, t.floor, i, page)
      ensures E.Rewindable(E.PageFold(i, page, t.floor), t.floor)
    {
      E.PageFoldAgrees(t.log, t.floor, i, page);
    }
  }

  /**
    Truncation is harmless: any fold that knows, however it got to its position and
    however late a deposed leader truncated, names the term and leader the rule from
    position 0 names there.
    */
  lemma FoldsAgree(s: Sys, events: seq<Event>, k: nat)
    requires Init(s) && IsRun(s, events)
    ensures var t := Reached(s, events);
      k in t.members && t.members[k].inc.fold.known ==>
        var f := t.members[k].inc.fold;
        f.next <= |t.log| && F.Same(F.RuledOf(f), F.Full(t.log[..f.next]))
    ensures var t := Reached(s, events);
      k in t.members && !t.members[k].inc.fold.known && t.members[k].inc.fold.floor.Some? ==>
        var f := t.members[k].inc.fold;
        f.next < |t.log| && F.Absorbed(f, f.next, t.log[f.next]).0.known
  {
    Reachable(s, events);
    var t := Reached(s, events);
    if k in t.members {
      assert MemberOk(t, t.members[k]);
      var i := t.members[k].inc;
      if !i.fold.known && i.fold.floor.Some? {
        F.FloorAbsorbs(t.log, i.floor, i.fold);
      }
    }
  }

  /** No candidate leads a term it gave up, or one below it, whatever became of its resignation. */
  lemma GivenUpForGood(s: Sys, events: seq<Event>, k: nat)
    requires Init(s) && IsRun(s, events) && k in Reached(s, events).members
    ensures var i := Reached(s, events).members[k].inc;
      i.leading.Some? && i.resigned.Some? ==> i.leading.value > i.resigned.value
  {
    Reachable(s, events);
    var t := Reached(s, events);
    assert MemberOk(t, t.members[k]);
  }

  /** From `s`, where member `k` gave `term` up, to `t`: all it has begun to lead since is above it. */
  ghost predicate Since(s: Sys, t: Sys, k: nat, term: nat) {
    && k in s.members && k in t.members
    && s.members[k].began <= t.members[k].began
    && (forall p :: |s.members[k].began| <= p < |t.members[k].began| ==> t.members[k].began[p] > term)
    && (forall e {:trigger e in t.led} :: e in t.led && e.who == k && e !in s.led ==> e.term > term)
  }

  ghost predicate HasGivenUp(i: E.Inc, term: nat) { i.resigned.Some? && i.resigned.value >= term }

  lemma SinceStays(s: Sys, t: Sys, ev: Event, k: nat, term: nat)
    requires Since(s, t, k, term) && HasGivenUp(t.members[k].inc, term) && Enabled(t, ev)
    ensures Since(s, Next(t, ev), k, term) && HasGivenUp(Next(t, ev).members[k].inc, term)
  {
    if ev.Settle? {
      SinceSettles(s, t, ev.id, ev.hand, k, term);
    }
  }

  lemma SinceSettles(s: Sys, t: Sys, id: nat, hand: nat, k: nat, term: nat)
    requires Since(s, t, k, term) && HasGivenUp(t.members[k].inc, term) && Enabled(t, Settle(id, hand))
    ensures var u := Next(t, Settle(id, hand)); Since(s, u, k, term) && HasGivenUp(u.members[k].inc, term)
  {
    if id == k {
      GivenUpSettles(t.members[k], term);
    }
  }

  lemma GivenUpSettles(m: Member, term: nat)
    requires HasGivenUp(m.inc, term)
    ensures var n := SettledMember(m);
      && HasGivenUp(n.inc, term) && (E.Held(m.inc).Some? ==> E.Held(m.inc).value > term)
      && (n.began == m.began || (|n.began| == |m.began| + 1 && m.began <= n.began && n.began[|m.began|] > term))
  {
  }

  lemma {:induction false} SinceRuns(s: Sys, t: Sys, more: seq<Event>, k: nat, term: nat)
    requires Since(s, t, k, term) && HasGivenUp(t.members[k].inc, term) && IsRun(t, more)
    ensures Since(s, Reached(t, more), k, term) && HasGivenUp(Reached(t, more).members[k].inc, term)
    decreases |more|
  {
    if more != [] {
      SinceStays(s, t, more[0], k, term);
      SinceRuns(s, Next(t, more[0]), more[1..], k, term);
    }
  }

  /** The event by which a candidate that leads gives its term up: it resigns, or steps down without a record. */
  ghost predicate GivesUp(s: Sys, ev: Event) {
    (ev.Resign? || ev.StepDown?) && Enabled(s, ev) && E.Leading(s.members[ev.id].inc).Some?
  }

  lemma GivingUp(s: Sys, ev: Event)
    requires GivesUp(s, ev)
    ensures var term := E.Leading(s.members[ev.id].inc).value.term; var t := Next(s, ev);
      && Since(t, t, ev.id, term) && HasGivenUp(t.members[ev.id].inc, term)
      && (ev.Resign? ==> exists r :: r in t.sent && r.Resign? && r.term == term && r.who == s.members[ev.id].inc.me.id)
  {
    if ev.Resign? {
      ResignIs(s, ev.id, ev.successor, ev.mint);
      var r := E.Resigned(s.members[ev.id].inc, ev.successor, ev.mint).1.value;
      assert r in Next(s, ev).sent && r.Resign? && r.who == s.members[ev.id].inc.me.id;
    }
  }

  /** What it leads, would come to lead and would renew is above `term`. */
  ghost predicate ActsAbove(i: E.Inc, term: nat) {
    && (i.leading.Some? ==> i.leading.value > term)
    && (E.Held(i).Some? ==> E.Held(i).value > term)
    && (E.RenewalOf(i).Some? ==> E.RenewalOf(i).value.term > term)
  }

  lemma GivenUpActs(i: E.Inc, term: nat)
    requires GivenUpOk(i) && HasGivenUp(i, term)
    ensures ActsAbove(i, term)
  {
  }

  lemma GivenUpFrom(t: Sys, ev: Event, more: seq<Event>)
    requires Inv(t) && GivesUp(t, ev) && IsRun(Next(t, ev), more)
    ensures var term := E.Leading(t.members[ev.id].inc).value.term; var g := Next(t, ev); var u := Reached(g, more);
      && (ev.Resign? ==> exists r :: r in g.sent && r.Resign? && r.term == term && r.who == t.members[ev.id].inc.me.id)
      && Since(g, u, ev.id, term) && ActsAbove(u.members[ev.id].inc, term)
  {
    var term := E.Leading(t.members[ev.id].inc).value.term;
    var g := Next(t, ev);
    NextKeeps(t, ev);
    GivingUp(t, ev);
    SinceRuns(g, g, more, ev.id, term);
    RunKeepsInv(g, more);
    var u := Reached(g, more);
    GivenUpActs(u.members[ev.id].inc, term);
  }

  /**
    What a candidate led when it resigned or stepped down is given up for good: in every
    state of every run that goes on from there it leads nothing at or below that term, has
    begun no such term since, would begin none, and would renew none.
    */
  lemma GivenUpStaysSo(s: Sys, events: seq<Event>, ev: Event, more: seq<Event>)
    requires Init(s) && IsRun(s, events) && GivesUp(Reached(s, events), ev)
    requires IsRun(Next(Reached(s, events), ev), more)
    ensures var t := Reached(s, events); var term := E.Leading(t.members[ev.id].inc).value.term;
      var g := Next(t, ev); var u := Reached(g, more);
      && (ev.Resign? ==> exists r :: r in g.sent && r.Resign? && r.term == term && r.who == t.members[ev.id].inc.me.id)
      && Since(g, u, ev.id, term) && ActsAbove(u.members[ev.id].inc, term)
  {
    Reachable(s, events);
    GivenUpFrom(Reached(s, events), ev, more);
  }

  /** A campaign names no interface a term published; a renewal only one published since its term began. */
  lemma InterfacesAreTheTerms(s: Sys, events: seq<Event>, c: Carried)
    requires Init(s) && IsRun(s, events) && c in Reached(s, events).carried
    ensures CarriedOk(c)
  {
    Reachable(s, events);
  }

  // ---- One incarnation a term ----

  /** What a hand-off says of the term it begins. */
  lemma HandOffBegins(s: Sys, p: nat, id: nat, uuid: F.Uuid)
    requires Inv(s) && E.HandsTo(s.log, p, id, uuid)
    ensures var l := F.Full(s.log[..p + 1]).leader.value;
      && uuid in s.uses && l.term == s.uses[uuid] == F.Full(s.log[..p + 1]).term && l.since == p
      && s.log[p].Resign? && s.log[p].successor.Some?
      && s.log[p].successor.value.1 == uuid && s.log[p].successor.value.0.id == id
  {
    F.FullStep(s.log, p);
    LeaderSigned(s.uses, s.log, p + 1);
    F.FullLeader(s.log[..p + 1]);
  }

  /** A handed term's uuid was minted by a candidate of another id. */
  lemma HandedByAnother(s: Sys, p: nat, id: nat, uuid: F.Uuid, k: nat)
    requires Inv(s) && E.HandsTo(s.log, p, id, uuid) && k in s.members && uuid in s.members[k].inc.minted
    ensures s.members[k].inc.me.id != id
  {
    HandOffBegins(s, p, id, uuid);
    var r := s.log[p];
    assert r in s.log;
    assert Passed(s, r);
    var a :| a in s.members && r.successor.value.1 in s.members[a].inc.minted
             && s.members[a].inc.me.id == r.who != r.successor.value.0.id;
  }

  /** So of two leaderships of one term, both were campaigned for or both were handed. */
  lemma MintedAndHanded(s: Sys, a: Led, b: Led)
    requires Inv(s) && LedOk(s, a) && LedOk(s, b) && a.uuid == b.uuid
    requires s.members[a.who].inc.me.id == s.members[b.who].inc.me.id
    requires a.handed == None
    ensures b.handed == None
  {
    if b.handed.Some? {
      HandedByAnother(s, b.handed.value, s.members[b.who].inc.me.id, b.uuid, a.who);
    }
  }

  /** The two leaderships of one term are one: the same candidate under the same uuid. */
  lemma SameLeadership(s: Sys, a: Led, b: Led)
    requires Inv(s) && LedOk(s, a) && LedOk(s, b) && a.term == b.term
    ensures a.uuid == b.uuid && s.members[a.who].inc.me.id == s.members[b.who].inc.me.id
  {
    if a.at <= b.at {
      F.OneLeaderATerm(s.log, a.at, b.at);
    } else {
      F.OneLeaderATerm(s.log, b.at, a.at);
    }
  }

  /** A uuid is handed over at one position. */
  lemma OneHandOff(s: Sys, p: nat, q: nat, id: nat, uuid: F.Uuid)
    requires Inv(s) && p <= q && E.HandsTo(s.log, p, id, uuid) && E.HandsTo(s.log, q, id, uuid)
    ensures p == q
  {
    HandOffBegins(s, p, id, uuid);
    HandOffBegins(s, q, id, uuid);
    F.OneLeaderATerm(s.log, p + 1, q + 1);
  }

  /** Both were handed the term: by one hand-off, which only one incarnation was alive to watch. */
  lemma BothHanded(s: Sys, a: Led, b: Led)
    requires Inv(s) && LedOk(s, a) && LedOk(s, b) && a.uuid == b.uuid && a.handed.Some? && b.handed.Some?
    requires s.members[a.who].inc.me.id == s.members[b.who].inc.me.id
    requires s.members[a.who].clean && s.members[b.who].clean
    ensures a.who == b.who
  {
    var id := s.members[a.who].inc.me.id;
    var p, q := a.handed.value, b.handed.value;
    if p <= q {
      OneHandOff(s, p, q, id, a.uuid);
    } else {
      OneHandOff(s, q, p, id, a.uuid);
    }
    assert a.who != b.who ==> Apart(s.members[a.who], s.members[b.who]);
  }

  /**
    At most one incarnation ever leads a given term, among those whose fold knew the
    term when they first caught up.
    */
  lemma OneIncarnationATerm(s: Sys, events: seq<Event>, a: Led, b: Led)
    requires Init(s) && IsRun(s, events)
    requires var t := Reached(s, events);
      && a in t.led && b in t.led && a.term == b.term
      && (forall k :: k in t.members && (k == a.who || k == b.who) ==> t.members[k].clean)
    ensures a.who == b.who && a.uuid == b.uuid
  {
    Reachable(s, events);
    var t := Reached(s, events);
    assert LedOk(t, a) && LedOk(t, b);
    SameLeadership(t, a, b);
    if a.handed == None {
      MintedAndHanded(t, a, b);
    } else if b.handed == None {
      MintedAndHanded(t, b, a);
    } else {
      BothHanded(t, a, b);
    }
  }
}
