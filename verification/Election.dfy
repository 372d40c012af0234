/**
  One candidate of an election, as one incarnation of its process: what it folded,
  which uuids are its own, which term it leads, and which interface its records name.
  Clocks are left out: when a renewal is due and when a lease ran out are the
  caller's free choice here.
  */
module Election {
  import opened Common
  import F = ElectionFold

  const TAIL_WAITS: nat := 2

  datatype Inc = Inc(
    me: F.Candidate,
    fold: F.Fold,
    minted: set<F.Uuid>,
    handed: Option<F.Uuid>,
    leading: Option<nat>,
    resigned: Option<nat>,
    published: bool,
    caughtUp: bool,
    floor: nat)

  function New(me: F.Candidate): Inc { Inc(me, F.NEW, {}, None, None, None, false, false, 0) }

  // ---- Pure reads ----

  /** `l` names its id, under a uuid it minted or was handed. */
  predicate Mine(i: Inc, l: F.Leader) {
    l.candidate.id == i.me.id && (l.uuid in i.minted || i.handed == Some(l.uuid))
  }

  /** The term of a leader that is its own, above any it gave up. */
  function Held(i: Inc): Option<nat> {
    if i.fold.leader.Some? && Mine(i, i.fold.leader.value)
       && !(i.resigned.Some? && i.fold.leader.value.term <= i.resigned.value)
    then Some(i.fold.leader.value.term) else None
  }

  /** The leadership it holds. */
  function Leading(i: Inc): Option<F.Leader> {
    if i.leading.Some? && i.fold.leader.Some? && i.fold.leader.value.term == i.leading.value then i.fold.leader
    else None
  }

  // ---- Reading ----

  function Noted(i: Inc, change: F.Change): Inc {
    if change.HandedOff? && i.caughtUp && i.fold.leader.Some? && i.fold.leader.value.candidate.id == i.me.id
    then i.(handed := Some(i.fold.leader.value.uuid)) else i
  }

  function Took(i: Inc, x: F.Record): Inc {
    var (f, change) := F.Absorbed(i.fold, i.fold.next, x);
    Noted(i.(fold := f), change)
  }

  function TookAll(i: Inc, records: seq<F.Record>): Inc
    decreases |records|
  {
    if records == [] then i else TookAll(Took(i, records[0]), records[1..])
  }

  /** The fold of a page, before the watcher decides whether it caught up. */
  function PageFold(i: Inc, records: seq<F.Record>, floor: nat): F.Fold {
    F.FloorSeen(F.AbsorbAll(i.fold, records), floor)
  }

  /** Where a page leaves the fold, and whether the watcher then counts as caught up. */
  function PageEnd(g: F.Fold, floor: nat, tail: nat): (F.Fold, bool) {
    if g.next < tail then (g, false)
    else if |g.tail| >= TAIL_WAITS then (F.Rewound(g, floor), g.known || F.Rewound(g, floor).known)
    else (g, true)
  }

  /** A page of `records` read at the fold's position, served with the journal's floor and tail. */
  function Paged(i: Inc, records: seq<F.Record>, floor: nat, tail: nat): Inc {
    var (f, done) := PageEnd(PageFold(i, records, floor), floor, tail);
    i.(fold := f, handed := TookAll(i, records).handed, caughtUp := i.caughtUp || done, floor := floor)
  }

  /** The floor overtook the fold: once (`chased` false), or a second time before it caught up. */
  function Chased(i: Inc, floor: nat, tail: nat, chased: bool): Inc {
    var j := i.(floor := floor);
    var f := F.FloorSeen(j.fold, floor);
    if F.Anchors(j.fold, floor) then j.(fold := f)
    else j.(fold := if chased then F.AtTail(f, floor, tail) else F.Gapped(f, floor))
  }

  // ---- Acting ----

  function Published(i: Inc, interface: Value): Inc {
    i.(me := i.me.(interface := interface), published := true)
  }

  function Unpublished(i: Inc): Inc {
    if i.published then i.(me := i.me.(interface := []), published := false) else i
  }

  /** The campaign it appends, under the uuid it mints. */
  function Campaigned(i: Inc, uuid: F.Uuid): (Inc, F.Record) {
    var j := Unpublished(i.(minted := i.minted + {uuid}));
    (j, F.Campaign(j.fold.term + 1, j.me, uuid))
  }

  /** It leads what its fold says; a term it begins starts with nothing published. */
  function Settled(i: Inc): Inc {
    var j := i.(leading := Held(i));
    if j.leading.Some? && j.leading != i.leading then Unpublished(j) else j
  }

  function RenewalOf(i: Inc): Option<F.Record> {
    if Leading(i).Some? then Some(F.Renew(Leading(i).value.term, i.me, Leading(i).value.uuid)) else None
  }

  /** Its own truncation was applied: it knows where the floor is. */
  function Told(i: Inc, floor: nat): Inc { i.(floor := floor) }

  function GaveUp(i: Inc, term: nat): Inc {
    i.(resigned := Some(if i.resigned.Some? then Max(i.resigned.value, term) else term), leading := None)
  }

  function Resigned(i: Inc, successor: Option<F.Candidate>, uuid: F.Uuid): (Inc, Option<F.Record>) {
    if Leading(i) == None then (i, None)
    else
      var term := Leading(i).value.term;
      var next := successor.Some? && successor.value.id != 0 && successor.value.id != i.me.id;
      (GaveUp(if next then i.(minted := i.minted + {uuid}) else i, term),
       Some(F.Resign(term, i.me.id, if next then Some((successor.value, uuid)) else None)))
  }

  function SteppedDown(i: Inc): Inc {
    if Leading(i) == None then i else GaveUp(i, Leading(i).value.term)
  }

  // ---- Reading keeps the fold right ----

  /**
    Its fold agrees with the rule, and the floor it was last told of is a leader's,
    or none; a fold at the tail that holds nothing stands past it.
    */
  ghost predicate Reads(log: seq<F.Record>, i: Inc) {
    && F.Agrees(log, i.floor, i.fold) && (i.floor == 0 || F.Legit(log, i.floor))
    && (!i.fold.known && i.fold.floor == None && i.fold.tail == [] ==> i.floor < i.fold.next)
  }

  /** The rule counts a hand-off at `p`, to `id` under `uuid`. */
  ghost predicate HandsTo(log: seq<F.Record>, p: nat, id: nat, uuid: F.Uuid) {
    && p < |log| && F.ChangeAt(log, p).HandedOff?
    && F.Full(log[..p + 1]).leader.Some?
    && F.Full(log[..p + 1]).leader.value.uuid == uuid
    && F.Full(log[..p + 1]).leader.value.candidate.id == id
  }

  /** What it holds handed is a hand-off to it that lies in `[from, to)`. */
  ghost predicate HandedIn(log: seq<F.Record>, from: nat, to: nat, id: nat, handed: Option<F.Uuid>) {
    handed.Some? && exists p: nat :: from <= p < to && HandsTo(log, p, id, handed.value)
  }

  lemma {:induction false} TookFolds(i: Inc, records: seq<F.Record>)
    ensures var j := TookAll(i, records);
      j.fold == F.AbsorbAll(i.fold, records) && j == i.(fold := j.fold, handed := j.handed)
    decreases |records|
  {
    if records != [] {
      TookFolds(Took(i, records[0]), records[1..]);
    }
  }

  lemma TookNotes(log: seq<F.Record>, i: Inc)
    requires F.Agrees(log, i.floor, i.fold) && i.fold.next < |log|
    ensures Notes(log, i.fold.next, i.fold.next + 1, i, Took(i, log[i.fold.next]).handed)
    ensures F.Agrees(log, i.floor, Took(i, log[i.fold.next]).fold)
  {
    F.AbsorbAgrees(log, i.floor, i.fold);
    F.FullStep(log, i.fold.next);
    var k := Took(i, log[i.fold.next]);
    if k.handed != i.handed {
      F.KnownAbsorbs(log, i.floor, i.fold);
      assert HandsTo(log, i.fold.next, i.me.id, k.handed.value);
    }
  }

  /** What was noted between `before` and `after`, over `[from, to)`, by a candidate that had caught up. */
  ghost predicate Notes(log: seq<F.Record>, from: nat, to: nat, i: Inc, after: Option<F.Uuid>) {
    after != i.handed ==> i.caughtUp && HandedIn(log, from, to, i.me.id, after)
  }

  lemma NotesJoin(log: seq<F.Record>, from: nat, to: nat, i: Inc, k: Inc, after: Option<F.Uuid>)
    requires from < to && i.me == k.me && i.caughtUp == k.caughtUp
    requires Notes(log, from, from + 1, i, k.handed) && Notes(log, from + 1, to, k, after)
    ensures Notes(log, from, to, i, after)
  {
    if after != k.handed {
      var p: nat :| from + 1 <= p < to && HandsTo(log, p, k.me.id, after.value);
      assert from <= p < to && HandsTo(log, p, i.me.id, after.value);
    } else if after != i.handed {
      var p: nat :| from <= p < from + 1 && HandsTo(log, p, i.me.id, after.value);
      assert from <= p < to && HandsTo(log, p, i.me.id, after.value);
    }
  }

  lemma TookKeeps(i: Inc, x: F.Record)
    ensures var k := Took(i, x);
      k.me == i.me && k.caughtUp == i.caughtUp && k.floor == i.floor && k.fold.next == i.fold.next + 1
  {
  }

  /** What it notes over a page is a hand-off of the page. */
  lemma {:induction false} PageNotes(log: seq<F.Record>, i: Inc, from: nat, page: seq<F.Record>)
    requires F.Agrees(log, i.floor, i.fold) && from == i.fold.next && F.PageAt(log, from, page)
    ensures Notes(log, from, from + |page|, i, TookAll(i, page).handed)
    decreases |page|
  {
    if page != [] {
      var rest := page[1..];
      F.PageRest(log, from, page);
      TookNotes(log, i);
      TookKeeps(i, page[0]);
      PageNotes(log, Took(i, page[0]), from + 1, rest);
      NotesJoin(log, from, from + |page|, i, Took(i, page[0]), TookAll(i, page).handed);
    }
  }

  /** The journal's answer to a page read: records of the log at the fold's position, with its floor and tail. */
  ghost predicate Served(log: seq<F.Record>, floor: nat, i: Inc, page: seq<F.Record>) {
    && F.PageAt(log, i.fold.next, page) && (page == [] ==> i.fold.next == |log|)
    && i.floor <= floor <= i.fold.next && (floor == 0 || F.Legit(log, floor))
  }

  /** A newer floor that lies at or below the fold leaves it right. */
  lemma ToldFloor(log: seq<F.Record>, i: Inc, floor: nat)
    requires Reads(log, i) && i.floor <= floor <= i.fold.next && (floor == 0 || F.Legit(log, floor))
    ensures F.Agrees(log, floor, i.fold)
  {
    if !i.fold.known {
      F.TermGrows(log, i.floor + 1, floor + 1);
    }
  }

  /** Going back to the floor leaves the fold known, or awaiting the floor's record. */
  lemma RewindAgrees(log: seq<F.Record>, floor: nat, f: F.Fold)
    requires F.Agrees(log, floor, f)
    ensures var g := F.Rewound(f, floor);
      F.Agrees(log, floor, g) && (g.known || g.floor == Some(floor))
    ensures f.known ==> F.Rewound(f, floor) == f
  {
    if !f.known {
      F.FloorSeenAgrees(log, floor, f, floor);
      var g := F.FloorSeen(f, floor);
      if !g.known && g.floor == None {
        F.BackAgrees(log, floor, g, floor);
      }
    }
  }

  lemma PageFoldAgrees(log: seq<F.Record>, floor: nat, i: Inc, page: seq<F.Record>)
    requires Reads(log, i) && Served(log, floor, i, page)
    ensures var g := PageFold(i, page, floor);
      && F.Agrees(log, floor, g)
      && (i.fold.known ==> g.known && i.fold.next <= g.next)
      && (g.known ==> floor <= g.next)
      && (!g.known && g.floor == None && g.tail == [] ==> floor < g.next)
  {
    ToldFloor(log, i, floor);
    F.PageAgrees(log, floor, i.fold, page);
    var g := F.AbsorbAll(i.fold, page);
    if !g.known {
      F.FloorSeenPast(log, g, floor);
      assert page == [] ==> floor < |log| == g.next;
    }
  }

  /** The floor is not the very position of a fold at the tail that holds nothing. */
  predicate Rewindable(f: F.Fold, floor: nat) { !f.known && f.floor == None && f.tail == [] ==> floor != f.next }

  /** What a page leaves, from the fold `g` it leaves before the watcher decides. */
  lemma PagedFrom(log: seq<F.Record>, floor: nat, i: Inc, g: F.Fold, j: Inc)
    requires F.Agrees(log, floor, g) && (floor == 0 || F.Legit(log, floor))
    requires !g.known && g.floor == None && g.tail == [] ==> floor < g.next
    requires var (f, done) := PageEnd(g, floor, |log|);
      j == i.(fold := f, handed := j.handed, caughtUp := i.caughtUp || done, floor := floor)
    ensures Reads(log, j)
    ensures j.caughtUp && !i.caughtUp && j.fold.known ==> j.fold.next == |log|
    ensures if g.known then j.fold == g else j.fold.known ==> floor <= j.fold.next
  {
    PageEndAgrees(log, floor, g);
  }

  lemma PagedFold(log: seq<F.Record>, floor: nat, i: Inc, page: seq<F.Record>)
    requires Reads(log, i) && Served(log, floor, i, page)
    ensures var j := Paged(i, page, floor, |log|);
      && Reads(log, j)
      && j == i.(fold := j.fold, handed := j.handed, caughtUp := j.caughtUp, floor := floor)
      && (i.caughtUp ==> j.caughtUp)
      && (j.caughtUp && !i.caughtUp && j.fold.known ==> j.fold.next == |log|)
      && (if i.fold.known then j.fold.known && i.fold.next <= j.fold.next else j.fold.known ==> floor <= j.fold.next)
  {
    PageFoldAgrees(log, floor, i, page);
    PagedFrom(log, floor, i, PageFold(i, page, floor), Paged(i, page, floor, |log|));
  }

  lemma PageEndAgrees(log: seq<F.Record>, floor: nat, g: F.Fold)
    requires F.Agrees(log, floor, g) && (!g.known && g.floor == None && g.tail == [] ==> floor < g.next)
    ensures var (f, done) := PageEnd(g, floor, |log|);
      && F.Agrees(log, floor, f)
      && (!f.known && f.floor == None && f.tail == [] ==> floor < f.next)
      && (done && f.known ==> f.next == |log|)
      && (if g.known then f == g else f.known ==> floor <= f.next)
  {
    RewindAgrees(log, floor, g);
    RewindPast(log, floor, g);
    if !g.known && F.Rewound(g, floor).known && g.next == |log| {
      RewindEnds(log, floor, g);
    }
  }

  /** A fold at the tail that anchors on a record it holds ends at the tail again. */
  lemma RewindEnds(log: seq<F.Record>, floor: nat, f: F.Fold)
    requires F.Agrees(log, floor, f) && !f.known && F.Rewound(f, floor).known && f.next == |log|
    ensures F.Rewound(f, floor).next == |log|
  {
    if F.FloorSeen(f, floor) != f {
      F.ReplayAgrees(log, floor, f, floor);
    }
  }

  /**
    A candidate that knows the term counts as caught up after a page exactly when the page
    ends at the tail. One that does not know waits there for a record that says, for fewer
    than `TAIL_WAITS` of them; then it goes back to the floor, and has caught up only if
    that tells it the term.
    */
  lemma PageCatchesUp(log: seq<F.Record>, floor: nat, i: Inc, page: seq<F.Record>)
    requires Reads(log, i) && Served(log, floor, i, page)
    ensures var g := PageFold(i, page, floor); var (f, done) := PageEnd(g, floor, |log|);
      && (i.fold.known ==> f == g && (done <==> i.fold.next + |page| == |log|))
      && (done ==> g.next == |log|)
      && (g.next == |log| && !g.known && |g.tail| < TAIL_WAITS ==> done && f == g)
      && (g.next == |log| && !g.known && |g.tail| >= TAIL_WAITS && !done ==> !f.known && f.floor == Some(floor))
  {
    PageFoldAgrees(log, floor, i, page);
    RewindAgrees(log, floor, PageFold(i, page, floor));
    if i.fold.known {
      KnownPage(i.fold, page);
    }
  }

  lemma {:induction false} KnownPage(f: F.Fold, page: seq<F.Record>)
    requires f.known
    ensures F.AbsorbAll(f, page).known && F.AbsorbAll(f, page).next == f.next + |page|
    decreases |page|
  {
    if page != [] {
      KnownPage(F.Absorbed(f, f.next, page[0]).0, page[1..]);
    }
  }

  lemma PagedNotes(log: seq<F.Record>, floor: nat, i: Inc, page: seq<F.Record>)
    requires Reads(log, i) && Served(log, floor, i, page)
    ensures Notes(log, i.fold.next, i.fold.next + |page|, i, Paged(i, page, floor, |log|).handed)
  {
    PageNotes(log, i, i.fold.next, page);
  }

  /** A fold at the tail that is told of a floor past it goes there. */
  lemma TailSeesFloor(log: seq<F.Record>, last: nat, f: F.Fold, floor: nat)
    requires F.Agrees(log, last, f) && !f.known && f.floor == None && f.next < floor
    requires F.Legit(log, floor) && last <= floor
    ensures var g := F.FloorSeen(f, floor); F.Agrees(log, floor, g) && (g.known || g.floor == Some(floor))
  {
    F.ReplayAgrees(log, last, f, floor);
  }

  lemma ChasedTail(log: seq<F.Record>, floor: nat, i: Inc, chased: bool)
    requires Reads(log, i) && i.fold.next < floor && F.Legit(log, floor) && i.floor <= floor
    requires !i.fold.known && i.fold.floor == None
    ensures Reads(log, Chased(i, floor, |log|, chased))
  {
    TailSeesFloor(log, i.floor, i.fold, floor);
  }

  lemma ChasedFloor(log: seq<F.Record>, floor: nat, i: Inc, chased: bool)
    requires Reads(log, i) && i.fold.next < floor && F.Legit(log, floor) && i.floor <= floor
    requires !i.fold.known && i.fold.floor.Some?
    ensures Reads(log, Chased(i, floor, |log|, chased))
  {
    if F.FloorSeen(i.fold, floor) == i.fold {
      F.TermGrows(log, i.floor + 1, floor + 1);
      assert !F.Anchors(i.fold, floor);
    } else {
      F.ReplayAgrees(log, i.floor, i.fold, floor);
    }
  }

  lemma ChasedReads(log: seq<F.Record>, floor: nat, i: Inc, chased: bool)
    requires Reads(log, i) && i.fold.next < floor && F.Legit(log, floor) && i.floor <= floor
    ensures var j := Chased(i, floor, |log|, chased);
      Reads(log, j) && j == i.(fold := j.fold, floor := floor)
  {
    if i.fold.known {
      F.TermGrows(log, i.fold.next, floor + 1);
    } else if i.fold.floor == None {
      ChasedTail(log, floor, i, chased);
    } else {
      ChasedFloor(log, floor, i, chased);
    }
  }

  // ---- A fold goes back only to the floor it was told of ----

  /** Where the fold stands when it knows, and the floor it may go back to when it does not. */
  function Low(i: Inc): nat { if i.fold.known then i.fold.next else i.floor }

  lemma RewindPast(log: seq<F.Record>, floor: nat, f: F.Fold)
    requires F.Agrees(log, floor, f)
    ensures var g := F.Rewound(f, floor); g.known ==> g == f || floor <= g.next
  {
    if !f.known && F.FloorSeen(f, floor) != f {
      F.ReplayAgrees(log, floor, f, floor);
    }
  }

  lemma ChasedPast(log: seq<F.Record>, floor: nat, i: Inc, chased: bool)
    requires Reads(log, i) && i.fold.next < floor && F.Legit(log, floor) && i.floor <= floor
    ensures Low(i) <= Low(Chased(i, floor, |log|, chased))
  {
    if !i.fold.known && F.FloorSeen(i.fold, floor) != i.fold {
      F.ReplayAgrees(log, i.floor, i.fold, floor);
    }
  }

  /** All a page does to a candidate, as far as a run looks at it. */
  ghost predicate ReadTo(log: seq<F.Record>, floor: nat, i: Inc, n: nat, j: Inc) {
    && Reads(log, j) && Notes(log, i.fold.next, i.fold.next + n, i, j.handed)
    && j == i.(fold := j.fold, handed := j.handed, caughtUp := j.caughtUp, floor := floor)
    && (i.caughtUp ==> j.caughtUp)
    && (j.caughtUp && !i.caughtUp && j.fold.known ==> j.fold.next == |log|)
    && Low(i) <= Low(j)
  }

  lemma PagedReadsTo(log: seq<F.Record>, floor: nat, i: Inc, page: seq<F.Record>)
    requires Reads(log, i) && Served(log, floor, i, page)
    ensures ReadTo(log, floor, i, |page|, Paged(i, page, floor, |log|))
  {
    PagedFold(log, floor, i, page);
    PagedNotes(log, floor, i, page);
  }

  // ---- A hand-off is noted once caught up: exactly when an old one is noted too ----

  lemma {:induction false} HandedStays(i: Inc, page: seq<F.Record>)
    requires i.handed.Some?
    ensures TookAll(i, page).handed.Some?
    decreases |page|
  {
    if page != [] {
      HandedStays(Took(i, page[0]), page[1..]);
    }
  }

  /** A fold that knows, caught up, notes a hand-off to it that the page holds. */
  lemma {:induction false} PageHands(log: seq<F.Record>, i: Inc, from: nat, page: seq<F.Record>, p: nat, uuid: F.Uuid)
    requires F.Agrees(log, i.floor, i.fold) && i.fold.known && i.caughtUp && from == i.fold.next
    requires F.PageAt(log, from, page) && from <= p < from + |page| && HandsTo(log, p, i.me.id, uuid)
    ensures TookAll(i, page).handed.Some?
    decreases |page|
  {
    var rest := page[1..];
    F.PageRest(log, from, page);
    F.KnownAbsorbs(log, i.floor, i.fold);
    TookKeeps(i, page[0]);
    var k := Took(i, page[0]);
    if p == from {
      F.FullStep(log, from);
      HandedStays(k, rest);
    } else {
      PageHands(log, k, from + 1, rest, p, uuid);
    }
  }

  /** Back to the floor, and the log read again from there. */
  function Reread(i: Inc, log: seq<F.Record>): Inc
    requires F.Rewound(i.fold, i.floor).next <= |log|
  {
    var j := i.(fold := F.Rewound(i.fold, i.floor));
    TookAll(j, log[j.fold.next..])
  }

  /** The fold knew nothing when it caught up, and holds no record as low as the floor. */
  predicate Blind(i: Inc) { !i.fold.known && (i.fold.tail == [] || i.floor < i.fold.tail[0].0) }

  lemma BlindRewinds(log: seq<F.Record>, i: Inc)
    requires Reads(log, i) && i.fold.next == |log|
    ensures var f := F.Rewound(i.fold, i.floor);
      && F.Agrees(log, i.floor, f)
      && (Blind(i) <==> !f.known)
      && (f.known ==> f.next == |log|) && (!f.known ==> f.next == i.floor && f.floor == Some(i.floor))
  {
    RewindAgrees(log, i.floor, i.fold);
    if !i.fold.known {
      if F.Rewound(i.fold, i.floor).known {
        RewindEnds(log, i.floor, i.fold);
      }
      if !Blind(i) {
        HeldAnchors(log, i);
      }
    }
  }

  /** With the floor's record among those held, no second read is needed to know. */
  lemma HeldAnchors(log: seq<F.Record>, i: Inc)
    requires Reads(log, i) && i.fold.next == |log| && !i.fold.known && i.fold.tail != [] && i.floor >= i.fold.tail[0].0
    ensures F.FloorSeen(i.fold, i.floor).known
  {
    F.ReplayAgrees(log, i.floor, i.fold, i.floor);
    F.HeldReplays(log, i.floor, i.fold);
  }

  /** Read again from the floor, the record there anchors; what is noted is what follows it. */
  lemma RereadNotes(log: seq<F.Record>, j: Inc, floor: nat)
    requires F.Agrees(log, floor, j.fold) && !j.fold.known && j.fold.floor == Some(floor) && j.floor == floor
    requires j.caughtUp && j.handed == None
    ensures j.fold.next == floor < |log|
    ensures TookAll(j, log[floor..]).handed.Some? <==>
      exists p: nat, uuid: F.Uuid :: floor < p && HandsTo(log, p, j.me.id, uuid)
  {
    var page := log[floor..];
    F.FloorAbsorbs(log, floor, j.fold);
    F.PageRest(log, floor, page);
    TookKeeps(j, page[0]);
    RereadRest(log, Took(j, page[0]), floor + 1, page[1..]);
  }

  lemma RereadRest(log: seq<F.Record>, k: Inc, from: nat, rest: seq<F.Record>)
    requires F.Agrees(log, k.floor, k.fold) && k.fold.known && k.caughtUp && k.handed == None
    requires from == k.fold.next && F.PageAt(log, from, rest) && from + |rest| == |log|
    ensures TookAll(k, rest).handed.Some? <==>
      exists p: nat, uuid: F.Uuid :: from <= p && HandsTo(log, p, k.me.id, uuid)
  {
    PageNotes(log, k, from, rest);
    if p: nat, uuid: F.Uuid :| from <= p && HandsTo(log, p, k.me.id, uuid) {
      PageHands(log, k, from, rest, p, uuid);
    }
  }

  /**
    A candidate that has just caught up and was handed nothing takes an old hand-off
    for one it watched if and only if its fold knew nothing, held nothing as low as
    the floor, and a hand-off to its id lies past the floor.
    */
  lemma OldHandOffNotedIff(log: seq<F.Record>, i: Inc)
    requires Reads(log, i) && i.caughtUp && i.handed == None && i.fold.next == |log|
    ensures F.Rewound(i.fold, i.floor).next <= |log|
    ensures Reread(i, log).handed.Some? <==>
      Blind(i) && exists p: nat, uuid: F.Uuid :: i.floor < p && HandsTo(log, p, i.me.id, uuid)
  {
    BlindRewinds(log, i);
    var j := i.(fold := F.Rewound(i.fold, i.floor));
    if j.fold.known {
      assert log[j.fold.next..] == [];
    } else {
      RereadNotes(log, j, i.floor);
    }
  }

  // ---- What a record does for its candidate ----

  /** It did not give up the term after the one its fold is in. */
  predicate Willing(i: Inc) { i.resigned.Some? ==> i.resigned.value <= i.fold.term }

  /** It read the log to its tail, and knows. */
  ghost predicate UpToDate(log: seq<F.Record>, i: Inc) { Reads(log, i) && i.fold.known && i.fold.next == |log| }

  /** The rule has the leader its fold names. */
  ghost predicate LeadsBy(log: seq<F.Record>, k: Inc, term: nat, uuid: F.Uuid) {
    && k.leading == Some(term) && Leading(k).Some? && Leading(k).value.uuid == uuid
    && F.Full(log).leader.Some? && F.Full(log).leader.value == Leading(k).value && F.Full(log).term == term
  }

  lemma TookIs(log: seq<F.Record>, i: Inc, x: F.Record)
    requires UpToDate(log, i)
    ensures F.Full(log + [x]) == F.Rule(F.Full(log), |log|, x).0
    ensures F.Same(F.RuledOf(i.fold), F.Full(log))
  {
    assert (log + [x])[..|log|] == log && log[..|log|] == log;
  }

  /** A campaign that lands right after what its candidate read wins it the next term, under its new uuid. */
  lemma CampaignLeads(log: seq<F.Record>, i: Inc, mint: F.Uuid)
    requires UpToDate(log, i) && Willing(i) && i.me.id != 0 && mint != 0
    ensures var (j, x) := Campaigned(i, mint);
      LeadsBy(log + [x], Settled(Took(j, x)), i.fold.term + 1, mint)
  {
    TookIs(log, i, Campaigned(i, mint).1);
  }

  /** A hand-off of the term in force, watched by a caught-up candidate, gives it the next term with no campaign. */
  lemma HandOffLeads(log: seq<F.Record>, i: Inc, from: F.Leader, me: F.Candidate, uuid: F.Uuid)
    requires UpToDate(log, i) && Willing(i) && i.caughtUp && i.fold.leader == Some(from)
    requires from.term == i.fold.term != 0 && from.candidate.id != 0 && me.id == i.me.id != 0 && uuid != 0
    ensures var x := F.Resign(from.term, from.candidate.id, Some((me, uuid)));
      LeadsBy(log + [x], Settled(Took(i, x)), from.term + 1, uuid)
  {
    TookIs(log, i, F.Resign(from.term, from.candidate.id, Some((me, uuid))));
  }

  /** A renewal that lands keeps its leader leading its term, and is the record it may truncate to. */
  lemma RenewalKeeps(log: seq<F.Record>, i: Inc)
    requires UpToDate(log, i) && i.me.id != 0 && i.leading == Held(i) && i.leading.Some? && i.leading.value != 0
    requires i.fold.leader.value.uuid != 0
    ensures RenewalOf(i).Some?
    ensures var x := RenewalOf(i).value; var k := Settled(Took(i, x));
      && k.leading == i.leading && Leading(k).Some? && Leading(k).value.anchor == |log|
      && Leading(k).value.since == i.fold.leader.value.since && Leading(k).value.candidate == i.me
  {
    TookIs(log, i, RenewalOf(i).value);
  }
}
