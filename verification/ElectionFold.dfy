/**
  The election's rule, and the fold every watcher runs over an election journal
  that its leader truncates. `Ruled` is the rule from position 0; `Fold` is what a
  watcher keeps, which may start past a truncation and know nothing for a while.
  */
module ElectionFold {
  import opened Common

  type Uuid = nat

  /** A candidate's id and the interface its records name (the address and the endpoint's reference). */
  datatype Candidate = Candidate(id: nat, interface: Value)

  datatype Record =
    | Campaign(term: nat, candidate: Candidate, uuid: Uuid)
    | Renew(term: nat, candidate: Candidate, uuid: Uuid)
    | Resign(term: nat, who: nat, successor: Option<(Candidate, Uuid)>)
    | Other

  /** A record that decodes: no term, candidate or uuid is zero. */
  predicate Readable(r: Record) {
    match r
    case Campaign(term, c, u) => term != 0 && c.id != 0 && u != 0
    case Renew(term, c, u) => term != 0 && c.id != 0 && u != 0
    case Resign(term, who, s) => term != 0 && who != 0 && (s.Some? ==> s.value.0.id != 0 && s.value.1 != 0)
    case Other => false
  }

  datatype Leader = Leader(term: nat, candidate: Candidate, uuid: Uuid, since: nat, anchor: nat)

  datatype Change =
    | Won(deposed: Option<nat>)
    | HandedOff(from: nat)
    | Renewed
    | Vacated
    | Adopted
    | Lost(candidate: nat)
    | Ignored

  // ---- The rule ----

  datatype Ruled = Ruled(term: nat, leader: Option<Leader>)

  function Lead(term: nat, c: Candidate, u: Uuid, at: nat): Ruled { Ruled(term, Some(Leader(term, c, u, at, at))) }

  predicate Leads(r: Ruled, term: nat, id: nat) {
    r.leader.Some? && r.leader.value.term == term && r.leader.value.candidate.id == id
  }

  function Rule(r: Ruled, at: nat, x: Record): (Ruled, Change) {
    if !Readable(x) then (r, Ignored)
    else
      match x
      case Campaign(term, c, u) =>
        if term != r.term + 1 then (r, Lost(c.id))
        else (Lead(term, c, u, at), Won(if r.leader.Some? then Some(r.leader.value.candidate.id) else None))
      case Renew(term, c, u) =>
        if Leads(r, term, c.id) && r.leader.value.uuid == u then
          (r.(leader := Some(r.leader.value.(anchor := at, candidate := c))), Renewed)
        else if term > r.term then (Lead(term, c, u, at), Adopted)
        else (r, Ignored)
      case Resign(term, who, s) =>
        if !Leads(r, term, who) then (r, Ignored)
        else if s.Some? then (Lead(term + 1, s.value.0, s.value.1, at), HandedOff(who))
        else (r.(leader := None), Vacated)
  }

  /**
    What a record does to an election, exactly. A campaign wins if and only if it asks for
    the term right after the one in force, and deposes who led; any other is lost. A renewal
    renews the very leadership it names, or is adopted when its term is ahead. A resignation
    counts if and only if who resigns leads the term it names: it vacates the term, or hands
    the next one to the successor it names. Nothing else changes anything.
    */
  lemma RuleMeans(r: Ruled, at: nat, x: Record)
    ensures var (n, change) := Rule(r, at, x);
      && (change.Won? || change.Lost? <==> x.Campaign? && Readable(x))
      && (change.Won? <==> x.Campaign? && Readable(x) && x.term == r.term + 1)
      && (change.Won? ==>
            && n == Lead(x.term, x.candidate, x.uuid, at)
            && change.deposed == if r.leader.Some? then Some(r.leader.value.candidate.id) else None)
      && (change.Lost? ==> change.candidate == x.candidate.id)
      && (change.Renewed? <==>
            x.Renew? && Readable(x) && Leads(r, x.term, x.candidate.id) && r.leader.value.uuid == x.uuid)
      && (change.Adopted? <==> x.Renew? && Readable(x) && x.term > r.term && !change.Renewed?)
      && (change.Adopted? ==> n == Lead(x.term, x.candidate, x.uuid, at))
      && (change.Vacated? || change.HandedOff? <==> x.Resign? && Readable(x) && Leads(r, x.term, x.who))
      && (change.Vacated? ==> x.successor == None && n == Ruled(r.term, None))
      && (change.HandedOff? ==>
            x.successor.Some? && change.from == x.who
            && n == Lead(x.term + 1, x.successor.value.0, x.successor.value.1, at))
      && (change.Ignored? || change.Lost? ==> n == r)
  {
  }

  /** The rule over the whole log, from position 0. */
  function Full(log: seq<Record>): Ruled {
    if log == [] then Ruled(0, None) else Rule(Full(log[..|log| - 1]), |log| - 1, log[|log| - 1]).0
  }

  function ChangeAt(log: seq<Record>, p: nat): Change
    requires p < |log|
  {
    Rule(Full(log[..p]), p, log[p]).1
  }

  lemma FullStep(log: seq<Record>, p: nat)
    requires p < |log|
    ensures Full(log[..p + 1]) == Rule(Full(log[..p]), p, log[p]).0
  {
    assert log[..p + 1][..p] == log[..p];
  }

  /** The leader leads the fold's term, and its records lie below. */
  lemma {:induction false} FullLeader(log: seq<Record>)
    ensures var r := Full(log);
      r.leader.Some? ==> r.leader.value.term == r.term > 0 && r.leader.value.since <= r.leader.value.anchor < |log|
                         && r.leader.value.uuid != 0
    decreases |log|
  {
    if log != [] {
      FullLeader(log[..|log| - 1]);
    }
  }

  lemma {:induction false} TermGrows(log: seq<Record>, p: nat, q: nat)
    requires p <= q <= |log|
    ensures Full(log[..p]).term <= Full(log[..q]).term
    decreases q
  {
    if p < q {
      TermGrows(log, p, q - 1);
      FullStep(log, q - 1);
      FullLeader(log[..q - 1]);
    }
  }

  /** While the term stands, its leader is one candidate under one uuid. */
  lemma {:induction false} OneLeaderATerm(log: seq<Record>, p: nat, q: nat)
    requires p <= q <= |log| && Full(log[..p]).leader.Some? && Full(log[..q]).leader.Some?
    requires Full(log[..p]).term == Full(log[..q]).term
    ensures var a, b := Full(log[..p]).leader.value, Full(log[..q]).leader.value;
      a.uuid == b.uuid && a.candidate.id == b.candidate.id && a.since == b.since
    decreases q
  {
    if p < q {
      FullStep(log, q - 1);
      FullLeader(log[..q - 1]);
      FullLeader(log[..p]);
      TermGrows(log, p, q - 1);
      OneLeaderATerm(log, p, q - 1);
    }
  }

  /** The record at `f` is the one its leader's fold counted last: where a leader truncates to. */
  ghost predicate Legit(log: seq<Record>, f: nat) {
    f < |log| && Full(log[..f + 1]).leader.Some? && Full(log[..f + 1]).leader.value.anchor == f
  }

  lemma {:induction false} AnchorIsLegit(log: seq<Record>, p: nat)
    requires p <= |log| && Full(log[..p]).leader.Some?
    ensures Legit(log, Full(log[..p]).leader.value.anchor) && Full(log[..p]).leader.value.anchor < p
    decreases p
  {
    FullLeader(log[..p]);
    FullStep(log, p - 1);
    if Full(log[..p]).leader.value.anchor != p - 1 {
      AnchorIsLegit(log, p - 1);
    }
  }

  lemma LegitGrows(log: seq<Record>, more: seq<Record>, f: nat)
    requires Legit(log, f) && log <= more
    ensures Legit(more, f) && Full(more[..f + 1]) == Full(log[..f + 1])
  {
    assert more[..f + 1] == log[..f + 1];
  }

  // ---- Agreement ----

  /** The same term and leader; only where its term began may differ. */
  ghost predicate Same(a: Ruled, b: Ruled) {
    && a.term == b.term && (a.leader.Some? <==> b.leader.Some?)
    && (a.leader.Some? ==> a.leader.value == b.leader.value.(since := a.leader.value.since))
  }

  lemma RuleAgrees(a: Ruled, b: Ruled, at: nat, x: Record)
    requires Same(a, b)
    ensures Same(Rule(a, at, x).0, Rule(b, at, x).0) && Rule(a, at, x).1 == Rule(b, at, x).1
  {
  }

  // ---- The watcher's fold ----

  datatype Fold = Fold(
    term: nat,
    leader: Option<Leader>,
    known: bool,
    floor: Option<nat>,
    tailTerm: Option<nat>,
    tail: seq<(nat, Record)>,
    next: nat)

  const NEW := Fold(0, None, true, None, None, [], 0)

  function RuledOf(f: Fold): Ruled { Ruled(f.term, f.leader) }

  function Gapped(f: Fold, floor: nat): Fold {
    if floor <= f.next then f else f.(next := floor, known := false, floor := Some(floor), leader := None)
  }

  function AtTail(f: Fold, floor: nat, tail: nat): Fold {
    if tail <= floor then Gapped(f, floor)
    else if tail <= f.next then f
    else
      f.(next := tail, known := false, floor := None, leader := None,
         tailTerm := Some(if f.tailTerm.Some? then f.tailTerm.value else f.term), tail := [])
  }

  function Led(f: Fold, r: Ruled): Fold {
    f.(term := r.term, leader := r.leader, known := true, floor := None, tailTerm := None, tail := [])
  }

  /** The leadership a record at the floor describes, if it describes one. */
  function Described(x: Record, at: nat): Option<Ruled> {
    match x
    case Campaign(term, c, u) => Some(Lead(term, c, u, at))
    case Renew(term, c, u) => Some(Lead(term, c, u, at))
    case Resign(term, _, s) => if s.Some? then Some(Lead(term + 1, s.value.0, s.value.1, at)) else None
    case Other => None
  }

  function Anchored(f: Fold, at: nat, x: Record): (Fold, Change)
    requires Readable(x)
  {
    var d := Described(x, at);
    if f.floor == Some(at) && d.Some? && d.value.term >= f.term then (Led(f, d.value), Adopted)
    else (f.(term := Max(f.term, x.term)), Ignored)
  }

  function Absorbed(f: Fold, at: nat, x: Record): (Fold, Change) {
    var g := f.(
      next := at + 1,
      tail := if f.known then f.tail else if f.floor == None then f.tail + [(at, x)] else []);
    if !Readable(x) then (g, Ignored)
    else if g.known then
      var (r, change) := Rule(RuledOf(g), at, x);
      (if change.Won? || change.HandedOff? || change.Adopted? then Led(g, r) else g.(leader := r.leader), change)
    else Anchored(g, at, x)
  }

  /**
    A fold that does not know comes to know exactly by a record at the floor it awaits that
    describes a leadership no older than the terms it saw; any other readable record only
    raises the term it saw, and none gives it a leader.
    */
  lemma UnknownAbsorbs(f: Fold, at: nat, x: Record)
    requires !f.known && f.leader == None
    ensures var (g, change) := Absorbed(f, at, x); var d := Described(x, at);
      && (g.known <==> Readable(x) && f.floor == Some(at) && d.Some? && d.value.term >= f.term)
      && (g.known <==> change.Adopted?) && (g.known ==> RuledOf(g) == d.value && g.tail == [])
      && (!g.known ==> g.leader == None && g.term == (if Readable(x) then Max(f.term, x.term) else f.term))
      && (!g.known && f.floor == None ==> g.tail == f.tail + [(at, x)])
  {
  }

  /** Overtaken a second time, a fold stands at the tail, holding nothing; at the floor when nothing lies past it. */
  lemma AtTailMeans(f: Fold, floor: nat, tail: nat)
    requires f.next < floor
    ensures var g := AtTail(f, floor, tail);
      && !g.known && g.leader == None && g.term == f.term
      && g.next == Max(floor, tail) && g.floor == (if tail <= floor then Some(floor) else None)
      && (floor < tail ==> g.tail == [] && g.tailTerm == Some(if f.tailTerm.Some? then f.tailTerm.value else f.term))
  {
  }

  /** The records held from `floor` on, folded again. */
  function Refolded(f: Fold, held: seq<(nat, Record)>, floor: nat): Fold
    decreases |held|
  {
    if held == [] then f
    else Refolded(if held[0].0 >= floor then Absorbed(f, held[0].0, held[0].1).0 else f, held[1..], floor)
  }

  /** Back at `floor`, with the term known before the tail. */
  function BackAt(f: Fold, floor: nat): Fold {
    f.(next := floor, floor := Some(floor), leader := None,
       term := if f.tailTerm.Some? then f.tailTerm.value else f.term, tailTerm := None)
  }

  function Replayed(f: Fold, floor: nat): Fold { Refolded(BackAt(f, floor).(tail := []), f.tail, floor) }

  function FloorSeen(f: Fold, floor: nat): Fold {
    if f.known then f
    else if f.tail == [] then if f.floor == None && floor > f.next then Replayed(f, floor) else f
    else
      var start, end := f.tail[0].0, f.tail[|f.tail| - 1].0 + 1;
      if floor < start || (floor >= end && f.floor.Some?) then f else Replayed(f, floor)
  }

  /** Whether seeing the floor anchored the fold. */
  predicate Anchors(f: Fold, floor: nat) { !f.known && f.tail != [] && FloorSeen(f, floor).known }

  function Rewound(f: Fold, floor: nat): Fold {
    if f.known then f
    else
      var g := FloorSeen(f, floor);
      if g.known || g.floor.Some? then g else BackAt(g, floor)
  }

  // ---- Every fold agrees with the rule ----

  /** The records held are the log's, dense up to the fold's position. */
  ghost predicate Holds(log: seq<Record>, tail: seq<(nat, Record)>) {
    forall k :: 0 <= k < |tail| ==> tail[k].0 == tail[0].0 + k < |log| && tail[k].1 == log[tail[k].0]
  }

  /**
    The fold over a log whose floor was last reported at `floor`: one that knows
    agrees with the rule; one that does not stands at a floor that will anchor it,
    or at the tail, remembering a term no later than the floor's.
    */
  ghost predicate Agrees(log: seq<Record>, floor: nat, f: Fold) {
    && f.next <= |log|
    && if f.known then
         Same(RuledOf(f), Full(log[..f.next])) && f.floor == None && f.tailTerm == None && f.tail == []
       else
         && f.leader == None && Legit(log, floor) && Holds(log, f.tail)
         && (f.floor.Some? ==>
               f.next == f.floor.value == floor && f.tailTerm == None && f.term <= Full(log[..floor + 1]).term)
         && (f.floor == None ==>
               && f.tailTerm.Some? && f.tailTerm.value <= Full(log[..floor + 1]).term && f.tailTerm.value <= f.term
               && floor <= f.next && (f.tail != [] ==> f.tail[0].0 + |f.tail| == f.next))
  }

  lemma NewAgrees(log: seq<Record>)
    ensures Agrees(log, 0, NEW)
  {
    assert log[..0] == [];
  }

  lemma AgreesGrows(log: seq<Record>, more: seq<Record>, floor: nat, f: Fold)
    requires Agrees(log, floor, f) && log <= more
    ensures Agrees(more, floor, f)
  {
    assert more[..f.next] == log[..f.next];
    if !f.known {
      LegitGrows(log, more, floor);
    }
  }

  /** The record at a legitimate floor describes the leadership the rule has there. */
  lemma LegitDescribes(log: seq<Record>, f: nat)
    requires Legit(log, f)
    ensures Readable(log[f]) && Described(log[f], f).Some?
    ensures Same(Described(log[f], f).value, Full(log[..f + 1]))
  {
    FullStep(log, f);
    FullLeader(log[..f]);
  }

  lemma KnownAbsorbs(log: seq<Record>, floor: nat, f: Fold)
    requires Agrees(log, floor, f) && f.known && f.next < |log|
    ensures var (g, change) := Absorbed(f, f.next, log[f.next]);
      Agrees(log, floor, g) && g.known && g.next == f.next + 1 && change == ChangeAt(log, f.next)
  {
    FullStep(log, f.next);
    RuleAgrees(RuledOf(f), Full(log[..f.next]), f.next, log[f.next]);
  }

  /** A fold that awaits its floor's record anchors on it. */
  lemma FloorAbsorbs(log: seq<Record>, floor: nat, f: Fold)
    requires Agrees(log, floor, f) && !f.known && f.floor.Some?
    ensures f.next == floor < |log|
    ensures var (g, change) := Absorbed(f, f.next, log[f.next]);
      Agrees(log, floor, g) && g.known && g.next == floor + 1 && change == Adopted
  {
    LegitDescribes(log, floor);
  }

  lemma TailAbsorbs(log: seq<Record>, floor: nat, f: Fold)
    requires Agrees(log, floor, f) && !f.known && f.floor == None && f.next < |log|
    ensures var (g, change) := Absorbed(f, f.next, log[f.next]);
      Agrees(log, floor, g) && !g.known && g.next == f.next + 1 && change == Ignored && g.floor == None
  {
  }

  lemma AbsorbAgrees(log: seq<Record>, floor: nat, f: Fold)
    requires Agrees(log, floor, f) && f.next < |log|
    ensures var (g, change) := Absorbed(f, f.next, log[f.next]);
      && Agrees(log, floor, g) && g.next == f.next + 1
      && (change.HandedOff? ==> f.known && change == ChangeAt(log, f.next))
      && (f.known || f.floor.Some? ==> g.known)
      && (!f.known && f.floor == None ==> !g.known && g.floor == None && |g.tail| == |f.tail| + 1)
  {
    if f.known {
      KnownAbsorbs(log, floor, f);
    } else if f.floor.Some? {
      FloorAbsorbs(log, floor, f);
    } else {
      TailAbsorbs(log, floor, f);
    }
  }

  function AbsorbAll(f: Fold, records: seq<Record>): Fold
    decreases |records|
  {
    if records == [] then f else AbsorbAll(Absorbed(f, f.next, records[0]).0, records[1..])
  }

  /** `page` is what the log holds from `from` on. */
  ghost predicate PageAt(log: seq<Record>, from: nat, page: seq<Record>) {
    from + |page| <= |log| && forall k :: 0 <= k < |page| ==> page[k] == log[from + k]
  }

  lemma PageRest(log: seq<Record>, from: nat, page: seq<Record>)
    requires PageAt(log, from, page) && page != []
    ensures page[0] == log[from] && PageAt(log, from + 1, page[1..])
  {
    forall k | 0 <= k < |page[1..]|
      ensures page[1..][k] == log[from + 1 + k]
    {
      assert page[k + 1] == log[from + (k + 1)];
    }
  }

  /** A page of the log keeps the fold right; at the tail it is held. */
  lemma {:induction false} PageAgrees(log: seq<Record>, floor: nat, f: Fold, page: seq<Record>)
    requires Agrees(log, floor, f) && PageAt(log, f.next, page)
    ensures var g := AbsorbAll(f, page);
      && Agrees(log, floor, g) && g.next == f.next + |page|
      && (f.known || (f.floor.Some? && page != []) ==> g.known)
      && (!f.known && f.floor == None ==> !g.known && g.floor == None && |g.tail| == |f.tail| + |page|)
    decreases |page|
  {
    if page != [] {
      PageRest(log, f.next, page);
      AbsorbAgrees(log, floor, f);
      PageAgrees(log, floor, Absorbed(f, f.next, page[0]).0, page[1..]);
    }
  }

  /** A known fold refolds the records held past its position. */
  lemma {:induction false} RefoldAgrees(log: seq<Record>, floor: nat, f: Fold, held: seq<(nat, Record)>)
    requires Agrees(log, floor, f) && Holds(log, held) && f.known
    requires held != [] ==> held[0].0 <= f.next <= held[0].0 + |held|
    ensures var g := Refolded(f, held, f.next); Agrees(log, floor, g) && g.known
    ensures held != [] ==> Refolded(f, held, f.next).next == held[0].0 + |held|
    decreases |held|
  {
    if held != [] {
      var rest := held[1..];
      HoldsRest(log, held);
      if held[0].0 >= f.next {
        KnownAbsorbs(log, floor, f);
        var g := Absorbed(f, f.next, held[0].1).0;
        RefoldFrom(g, rest, f.next, g.next);
        RefoldAgrees(log, floor, g, rest);
      } else {
        RefoldAgrees(log, floor, f, rest);
      }
    }
  }

  lemma HoldsRest(log: seq<Record>, held: seq<(nat, Record)>)
    requires Holds(log, held) && held != []
    ensures Holds(log, held[1..]) && (|held| > 1 ==> held[1..][0].0 == held[0].0 + 1)
  {
    var rest := held[1..];
    forall k | 0 <= k < |rest|
      ensures rest[k].0 == rest[0].0 + k < |log| && rest[k].1 == log[rest[k].0]
    {
      assert rest[k] == held[k + 1];
    }
  }

  /** Records all at or past `b` are folded from `a` as from `b`. */
  lemma {:induction false} RefoldFrom(f: Fold, held: seq<(nat, Record)>, a: nat, b: nat)
    requires forall k :: 0 <= k < |held| ==> held[k].0 >= a && held[k].0 >= b
    ensures Refolded(f, held, a) == Refolded(f, held, b)
    decreases |held|
  {
    if held != [] {
      RefoldFrom(Absorbed(f, held[0].0, held[0].1).0, held[1..], a, b);
    }
  }

  /** Records below the floor are passed over. */
  lemma {:induction false} RefoldSkips(f: Fold, held: seq<(nat, Record)>, floor: nat, k: nat)
    requires k <= |held| && forall i :: 0 <= i < k ==> held[i].0 < floor
    ensures Refolded(f, held, floor) == Refolded(f, held[k..], floor)
    decreases k
  {
    if k > 0 {
      RefoldSkips(f, held[1..], floor, k - 1);
      assert held[1..][k - 1..] == held[k..];
    }
  }

  /** Going back to a legitimate floor at or past the one last reported keeps the fold right. */
  lemma BackAgrees(log: seq<Record>, last: nat, f: Fold, floor: nat)
    requires Agrees(log, last, f) && !f.known && Legit(log, floor) && last <= floor
    ensures Agrees(log, floor, BackAt(f, floor)) && Agrees(log, floor, BackAt(f, floor).(tail := []))
  {
    TermGrows(log, last + 1, floor + 1);
  }

  lemma ReplayAgrees(log: seq<Record>, last: nat, f: Fold, floor: nat)
    requires Agrees(log, last, f) && !f.known && Legit(log, floor) && last <= floor
    requires f.tail != [] ==> f.tail[0].0 <= floor
    ensures Agrees(log, floor, Replayed(f, floor))
    ensures Replayed(f, floor).known || Replayed(f, floor).floor == Some(floor)
    ensures Replayed(f, floor).known ==> f.tail != [] && floor <= Replayed(f, floor).next == f.tail[0].0 + |f.tail|
  {
    BackAgrees(log, last, f, floor);
    var b := BackAt(f, floor).(tail := []);
    var held := f.tail;
    if held != [] && floor < held[0].0 + |held| {
      var k := floor - held[0].0;
      RefoldSkips(b, held, floor, k);
      HoldsSlice(log, held, k);
      FloorRefolds(log, floor, b, held[k..]);
    } else {
      RefoldSkips(b, held, floor, |held|);
    }
  }

  /** A replay onto a record held anchors. */
  lemma HeldReplays(log: seq<Record>, last: nat, f: Fold)
    requires Agrees(log, last, f) && !f.known && f.tail != [] && f.tail[0].0 <= last < f.tail[0].0 + |f.tail|
    ensures Replayed(f, last).known
  {
    BackAgrees(log, last, f, last);
    var k := last - f.tail[0].0;
    RefoldSkips(BackAt(f, last).(tail := []), f.tail, last, k);
    assert f.tail[k].0 == last && f.tail[k].1 == log[last];
    HoldsSlice(log, f.tail, k);
    FloorRefolds(log, last, BackAt(f, last).(tail := []), f.tail[k..]);
  }

  /** A fold at its floor refolds the floor's record and those past it, and knows. */
  lemma FloorRefolds(log: seq<Record>, floor: nat, b: Fold, held: seq<(nat, Record)>)
    requires Agrees(log, floor, b) && !b.known && b.floor.Some? && Holds(log, held) && held != [] && held[0].0 == floor
    ensures var g := Refolded(b, held, floor);
      Agrees(log, floor, g) && g.known && g.next == floor + |held|
  {
    FloorAbsorbs(log, floor, b);
    var g := Absorbed(b, floor, log[floor]).0;
    var rest := held[1..];
    HoldsSlice(log, held, 1);
    RefoldFrom(g, rest, floor, g.next);
    RefoldAgrees(log, floor, g, rest);
  }

  lemma HoldsSlice(log: seq<Record>, held: seq<(nat, Record)>, k: nat)
    requires Holds(log, held) && k <= |held|
    ensures Holds(log, held[k..])
    ensures forall i :: 0 <= i < |held[k..]| ==> held[k..][i].0 == held[0].0 + k + i
  {
    var rest := held[k..];
    forall i | 0 <= i < |rest|
      ensures rest[i].0 == held[0].0 + k + i < |log| && rest[i].1 == log[rest[i].0]
    {
      assert rest[i] == held[k + i];
    }
  }

  /** A floor reported to the fold: the fold moves onto it, or stays as it was. */
  lemma FloorSeenAgrees(log: seq<Record>, last: nat, f: Fold, floor: nat)
    requires Agrees(log, last, f) && (!f.known ==> Legit(log, floor) && last <= floor)
    ensures var g := FloorSeen(f, floor);
      g == f || (Agrees(log, floor, g) && (g.known || g.floor == Some(floor)))
  {
    if FloorSeen(f, floor) != f {
      ReplayAgrees(log, last, f, floor);
    }
  }

  /** A fold that knows once it saw the floor stands at or past it, when it stood there before. */
  lemma FloorSeenPast(log: seq<Record>, f: Fold, floor: nat)
    requires Agrees(log, floor, f) && !f.known && floor <= f.next
    ensures Agrees(log, floor, FloorSeen(f, floor))
    ensures FloorSeen(f, floor).known ==> floor <= FloorSeen(f, floor).next
    ensures FloorSeen(f, floor) == f || FloorSeen(f, floor).known || FloorSeen(f, floor).floor.Some?
  {
    if FloorSeen(f, floor) != f {
      ReplayAgrees(log, floor, f, floor);
    }
  }

  // ---- The fold, updated in place ----

  /** The records held are dense and end at a fold at the tail; a term raised there only grew. */
  ghost predicate Sane(f: Fold) {
    && (forall k :: 0 <= k < |f.tail| ==> f.tail[k].0 == f.tail[0].0 + k)
    && (f.known ==> f.tail == [] && f.floor == None && f.tailTerm == None)
    && (f.leader.Some? ==> f.leader.value.term == f.term)
    && (!f.known ==> f.leader == None && (f.tailTerm.Some? ==> f.tailTerm.value <= f.term))
    && (!f.known && f.floor == None && f.tail != [] ==> f.tail[0].0 + |f.tail| == f.next)
  }

  /** A fold that agrees with the rule is sane. */
  lemma AgreesSane(log: seq<Record>, floor: nat, f: Fold)
    requires Agrees(log, floor, f)
    ensures Sane(f)
  {
    FullLeader(log[..f.next]);
  }

  class ElectionFold {
    var term: nat
    var leader: Option<Leader>
    var known: bool
    var floor: Option<nat>
    var tailTerm: Option<nat>
    var tail: seq<(nat, Record)>
    var next: nat

    ghost function View(): Fold
      reads this
    {
      Fold(term, leader, known, floor, tailTerm, tail, next)
    }

    /** What the fold's own assertions rest on. */
    ghost predicate Valid()
      reads this
    {
      Sane(View())
    }

    constructor ()
      ensures Valid() && View() == NEW
    {
      term, leader, known, floor, tailTerm, tail, next := 0, None, true, None, None, [], 0;
    }

    method Gap(at: nat)
      requires Valid()
      modifies this
      ensures Valid() && View() == Gapped(old(View()), at)
    {
      if at <= next {
        return;
      }
      next, known, floor, leader := at, false, Some(at), None;
    }

    method ResumeAtTail(at: nat, end: nat)
      requires Valid()
      modifies this
      ensures Valid() && View() == AtTail(old(View()), at, end)
    {
      if end <= at {
        Gap(at);
        return;
      }
      if end <= next {
        return;
      }
      next, known, floor, leader := end, false, None, None;
      if tailTerm == None {
        tailTerm := Some(term);
      }
      tail := [];
    }

    method SetLeader(r: Ruled)
      requires r.term >= term && r.leader.Some? && r.leader.value.term == r.term && r.leader.value.uuid != 0
      modifies this
      ensures Valid() && View() == Led(old(View()), r)
    {
      term, leader := r.term, r.leader;
      known, floor, tailTerm, tail := true, None, None, [];
    }

    method Absorb(at: nat, x: Record) returns (change: Change)
      requires Valid() && at == next
      modifies this
      ensures Valid() && (View(), change) == Absorbed(old(View()), at, x)
      ensures !old(known) && old(floor).Some? ==> (known <==> floor == None)
    {
      next := at + 1;
      if !known && floor == None {
        tail := tail + [(at, x)];
      } else if !known {
        tail := [];
      }
      if !Readable(x) {
        return Ignored;
      }
      if !known {
        var d := Described(x, at);
        if floor == Some(at) && d.Some? && d.value.term >= term {
          SetLeader(d.value);
          return Adopted;
        }
        term := Max(term, x.term);
        return Ignored;
      }
      var r, c := Rule(Ruled(term, leader), at, x).0, Rule(Ruled(term, leader), at, x).1;
      if c.Won? || c.HandedOff? || c.Adopted? {
        SetLeader(r);
      } else {
        leader := r.leader;
      }
      change := c;
    }

    /** One record held: folded again when it lies at `at` or past it. */
    method Retake(held: seq<(nat, Record)>, i: nat, at: nat)
      requires Valid() && i < |held| && (held[i].0 >= at ==> held[i].0 == next)
      requires !known ==> floor.Some?
      modifies this
      ensures Valid() && (known <==> floor == None)
      ensures Refolded(View(), held[i + 1..], at) == Refolded(old(View()), held[i..], at)
      ensures next == if held[i].0 >= at then old(next) + 1 else old(next)
    {
      assert held[i..][1..] == held[i + 1..];
      if held[i].0 >= at {
        var change := Absorb(held[i].0, held[i].1);
      }
    }

    /** Each record held at `at` or later is absorbed once more, in order; those below are passed over. */
    method Replay(at: nat)
      requires Valid() && !known && (tail != [] ==> tail[0].0 <= at)
      modifies this
      ensures Valid() && View() == Replayed(old(View()), at)
      ensures known <==> floor == None
    {
      var held := tail;
      tail := [];
      next, floor, leader := at, Some(at), None;
      if tailTerm.Some? {
        assert tailTerm.value <= term;
        term, tailTerm := tailTerm.value, None;
      }
      for i := 0 to |held|
        invariant Valid() && (known <==> floor == None)
        invariant Replayed(old(View()), at) == Refolded(View(), held[i..], at)
        invariant next == Max(at, if held == [] then 0 else held[0].0 + i)
      {
        Retake(held, i, at);
      }
    }

    /** A fold that knows stays; another moves onto the floor when it can, `anchored` by a record it held. */
    method SeeFloor(at: nat) returns (anchored: bool)
      requires Valid()
      modifies this
      ensures Valid() && View() == FloorSeen(old(View()), at) && anchored == Anchors(old(View()), at)
      ensures !old(known) && !anchored ==> !known
      ensures !known && !anchored && floor == None ==>
        View() == old(View()) && if tail == [] then at <= next else at < tail[0].0
    {
      if known {
        return false;
      }
      if tail == [] {
        if floor == None && at > next {
          Replay(at);
        }
        return false;
      }
      var start, end := tail[0].0, tail[|tail| - 1].0 + 1;
      if at < start || (at >= end && floor.Some?) {
        return false;
      }
      Replay(at);
      assert (floor == None) == known;
      anchored := known;
    }

    /** After it the fold knows, or waits at `at` for the record there. */
    method Rewind(at: nat) returns (unknown: bool)
      requires Valid() && (!known && floor == None && tail == [] ==> at != next)
      modifies this
      ensures Valid() && View() == Rewound(old(View()), at)
      ensures unknown <==> !known
      ensures unknown ==> floor.Some?
    {
      if known {
        return false;
      }
      var anchored := SeeFloor(at);
      if anchored {
        return false;
      }
      if floor == None {
        assert at < next;
        next, floor, leader := at, Some(at), None;
        if tailTerm.Some? {
          term, tailTerm := tailTerm.value, None;
        }
      }
      unknown := true;
    }
  }
}
