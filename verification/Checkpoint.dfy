/**
  Checkpoint and truncate: what a journal's records mean, how a fold that meets
  checkpoint runs follows that meaning, and the fold itself as the source keeps
  it, an object updated record by record.
  */
module Checkpoint {
  import opened Common

  /** A record, decoded: an owner's entry, one of a run's, or one that carries the mark and does not decode. */
  datatype Record =
    | Entry(bytes: Value)
    | Begin(coversUpTo: nat)
    | Chunk(bytes: Value)
    | End(chunks: nat, checksum: nat)
    | Garbage

  /** The state an owner folds: its empty value, how it takes an entry, and how it is written down and read back. */
  datatype Codec<!S> = Codec(
    empty: S,
    good: S -> bool,
    apply: (S, nat, Value) -> S,
    encode: S -> Value,
    decode: (nat, Value) -> Option<S>,
    crc: (nat, Value) -> nat,
    size: Record -> nat)

  /** A state that entries can build is read back as it was written. */
  ghost predicate Lawful<S(!new)>(c: Codec<S>) {
    && c.good(c.empty)
    && (forall s, p: nat, b :: c.good(s) ==> c.good(c.apply(s, p, b)))
    && (forall s, p: nat :: c.good(s) ==> c.decode(p, c.encode(s)) == Some(s))
  }

  datatype OpenRun = OpenRun(begin: nat, state: Value, chunks: nat, checksum: nat)

  // ---- What a log means ----

  /** The state of every entry ever appended, in order: the runs say nothing. */
  function Meaning<S>(c: Codec<S>, log: seq<Record>): S {
    if log == [] then c.empty
    else
      var n := |log| - 1;
      var before := Meaning(c, log[..n]);
      if log[n].Entry? then c.apply(before, n, log[n].bytes) else before
  }

  /** The run still open at the end of `log`. */
  function RunOf<S>(c: Codec<S>, log: seq<Record>): Option<OpenRun> {
    if log == [] then None
    else RunStep(c, RunOf(c, log[..|log| - 1]), |log| - 1, log[|log| - 1])
  }

  function RunStep<S>(c: Codec<S>, run: Option<OpenRun>, at: nat, r: Record): Option<OpenRun> {
    match r
    case Begin(covers) => if covers == at then Some(OpenRun(at, [], 0, 0)) else None
    case Chunk(bytes) =>
      if run == None then None
      else Some(run.value.(state := run.value.state + bytes, chunks := run.value.chunks + 1,
                           checksum := c.crc(run.value.checksum, bytes)))
    case _ => None
  }

  /** Whether `end` commits `run`. */
  predicate Commits(run: OpenRun, end: Record) {
    end.End? && run.chunks == end.chunks && run.checksum == end.checksum
  }

  /** A checkpoint run begins at `b` and its valid `End` is at `e`. */
  ghost predicate Complete<S>(c: Codec<S>, log: seq<Record>, b: nat, e: nat) {
    && b < e < |log|
    && var run := RunOf(c, log[..e]);
    && run.Some? && run.value.begin == b && Commits(run.value, log[e])
  }

  ghost predicate CompleteFrom<S>(c: Codec<S>, log: seq<Record>, b: nat) {
    exists e: nat :: Complete(c, log, b, e)
  }

  /** Every checkpoint in the log holds the meaning of the log below it. */
  ghost predicate Sound<S>(c: Codec<S>, log: seq<Record>) {
    forall b: nat, e: nat {:trigger Complete(c, log, b, e)} ::
      Complete(c, log, b, e) ==> RunOf(c, log[..e]).value.state == c.encode(Meaning(c, log[..b]))
  }

  lemma {:induction false} MeaningGood<S(!new)>(c: Codec<S>, log: seq<Record>)
    requires Lawful(c)
    ensures c.good(Meaning(c, log))
    decreases |log|
  {
    if log != [] {
      MeaningGood(c, log[..|log| - 1]);
    }
  }

  /** An open run's records lie right behind its `Begin`, and no entry is among them. */
  lemma {:induction false} RunHasNoEntry<S>(c: Codec<S>, log: seq<Record>)
    requires RunOf(c, log).Some?
    ensures var r := RunOf(c, log).value;
      && r.begin + 1 + r.chunks == |log|
      && Meaning(c, log) == Meaning(c, log[..r.begin])
      && (forall p :: r.begin < p < |log| ==> log[p].Chunk?)
    decreases |log|
  {
    var n := |log| - 1;
    var r := RunOf(c, log).value;
    if log[n].Chunk? {
      RunHasNoEntry(c, log[..n]);
      assert log[..n][..r.begin] == log[..r.begin];
      assert forall p :: r.begin < p < n ==> log[p] == log[..n][p];
    }
  }

  lemma CompleteGrows<S>(c: Codec<S>, log: seq<Record>, more: seq<Record>, b: nat, e: nat)
    requires Complete(c, log, b, e) && log <= more
    ensures Complete(c, more, b, e)
  {
    assert more[..e] == log[..e];
  }

  lemma CompleteWithin<S>(c: Codec<S>, log: seq<Record>, more: seq<Record>, b: nat, e: nat)
    requires Complete(c, more, b, e) && log <= more && e < |log|
    ensures Complete(c, log, b, e) && more[..e] == log[..e] && more[..b] == log[..b]
  {
    assert more[..e] == log[..e];
    assert more[..b] == log[..b];
  }

  // ---- The fold ----

  datatype Fold<S> = Fold(
    state: S,
    next: nat,
    whole: bool,
    run: Option<OpenRun>,
    sinceEntries: nat,
    sinceBytes: nat)

  datatype Folded =
    | Applied
    | Checkpointed(coversUpTo: nat, verified: Option<bool>)
    | InRun
    | Skipped
    | Unreadable
    | Past

  function NewFold<S>(c: Codec<S>): Fold<S> { Fold(c.empty, 0, true, None, 0, 0) }

  function Jumped<S>(f: Fold<S>, floor: nat): Fold<S> {
    if floor > f.next then f.(next := floor, whole := false, run := None) else f
  }

  function Restored<S>(c: Codec<S>, f: Fold<S>, begin: nat, state: Value): (Fold<S>, Folded) {
    var verified := if f.whole then Some(c.encode(f.state) == state) else None;
    if verified == Some(true) then
      (f.(sinceEntries := 0, sinceBytes := 0), Checkpointed(begin, verified))
    else
      var back := c.decode(begin, state);
      if back.Some? then
        (f.(state := back.value, whole := true, sinceEntries := 0, sinceBytes := 0), Checkpointed(begin, verified))
      else (f, Unreadable)
  }

  function Taken<S>(c: Codec<S>, f: Fold<S>, at: nat, r: Record): (Fold<S>, Folded) {
    if at < f.next then (f, Past)
    else
      var g := Jumped(f, at).(next := at + 1);
      var run := g.run;
      match r
      case Garbage => (g.(run := None), Unreadable)
      case Begin(covers) =>
        if covers != at then (g.(run := None), Unreadable)
        else (g.(run := Some(OpenRun(at, [], 0, 0))), InRun)
      case Chunk(_) => (g.(run := RunStep(c, run, at, r)), InRun)
      case End(_, _) =>
        if run == None || !Commits(run.value, r) then (g.(run := None), Unreadable)
        else Restored(c, g.(run := None), run.value.begin, run.value.state)
      case Entry(bytes) =>
        var h := g.(run := None);
        if !h.whole then (h, Skipped)
        else
          (h.(state := c.apply(h.state, at, bytes), sinceEntries := h.sinceEntries + 1,
              sinceBytes := h.sinceBytes + |bytes|), Applied)
  }

  /** The fold after the records `rs`, the first at its next position. */
  function FoldAll<S>(c: Codec<S>, f: Fold<S>, rs: seq<Record>): Fold<S>
    decreases |rs|
  {
    if rs == [] then f else FoldAll(c, Taken(c, f, f.next, rs[0]).0, rs[1..])
  }

  lemma {:induction false} FoldAllBoth<S>(c: Codec<S>, f: Fold<S>, a: seq<Record>, b: seq<Record>)
    ensures FoldAll(c, f, a + b) == FoldAll(c, FoldAll(c, f, a), b)
    ensures FoldAll(c, f, a).next == f.next + |a|
    decreases |a|
  {
    if a == [] {
      assert a + b == b;
    } else {
      assert (a + b)[1..] == a[1..] + b;
      FoldAllBoth(c, Taken(c, f, f.next, a[0]).0, a[1..], b);
    }
  }

  /**
    What the fold says of a record tells what became of it. A record below is past. An entry
    is applied by a fold that is whole there, and skipped by another. A run's `End` is a
    checkpoint exactly when it names the chunks and the checksum collected since its
    `Begin`, and either its state is the fold's own or it reads back; then the fold is
    whole, holds that state, and has no entry since. Anything unreadable changes no state.
    */
  lemma TakenTells<S>(c: Codec<S>, f: Fold<S>, at: nat, r: Record)
    ensures var (g, folded) := Taken(c, f, at, r); var whole := f.whole && at <= f.next;
      var run := if at <= f.next then f.run else None;
      && (folded.Past? <==> at < f.next) && (folded.Past? ==> g == f)
      && (at >= f.next ==>
            && g.next == at + 1
            && (folded.Applied? <==> r.Entry? && whole) && (folded.Skipped? <==> r.Entry? && !whole)
            && (r.Chunk? || r == Begin(at) <==> folded.InRun?)
            && (folded.Checkpointed? <==>
                  && r.End? && run.Some? && r.chunks == run.value.chunks && r.checksum == run.value.checksum
                  && ((whole && c.encode(f.state) == run.value.state)
                      || c.decode(run.value.begin, run.value.state).Some?)))
  {
  }

  lemma TakenState<S>(c: Codec<S>, f: Fold<S>, at: nat, r: Record)
    requires at >= f.next
    ensures var (g, folded) := Taken(c, f, at, r); var whole := f.whole && at <= f.next;
      && (folded.Applied? ==>
            g.state == c.apply(f.state, at, r.bytes)
            && g.sinceEntries == f.sinceEntries + 1 && g.sinceBytes == f.sinceBytes + |r.bytes|)
      && (folded.Checkpointed? ==>
            && f.run.Some? && folded.coversUpTo == f.run.value.begin
            && g.whole && g.sinceEntries == 0 && g.sinceBytes == 0
            && (folded.verified.Some? <==> whole)
            && (whole ==> (folded.verified == Some(true) <==> c.encode(f.state) == f.run.value.state))
            && (if folded.verified == Some(true) then g.state == f.state
                else Some(g.state) == c.decode(f.run.value.begin, f.run.value.state)))
      && (!folded.Applied? && !folded.Checkpointed? ==>
            g.state == f.state && g.whole == whole
            && g.sinceEntries == f.sinceEntries && g.sinceBytes == f.sinceBytes)
  {
  }

  /** The entries among `rs`. */
  function Entries(rs: seq<Record>): seq<Value> {
    if rs == [] then []
    else Entries(rs[..|rs| - 1]) + if rs[|rs| - 1].Entry? then [rs[|rs| - 1].bytes] else []
  }

  function Total(values: seq<Value>): nat {
    if values == [] then 0 else Total(values[..|values| - 1]) + |values[|values| - 1]|
  }

  lemma TotalGrows(values: seq<Value>, more: seq<Value>)
    requires |more| <= 1
    ensures Total(values + more) == Total(values) + if more == [] then 0 else |more[0]|
  {
    if more == [] {
      assert values + more == values;
    } else {
      assert (values + more)[..|values|] == values;
    }
  }

  /** Between two checkpoints a whole fold counts the entries it took and their bytes: what a checkpoint is due by. */
  lemma {:induction false} SinceCounts<S>(c: Codec<S>, f: Fold<S>, rs: seq<Record>)
    requires f.whole && forall k :: 0 <= k < |rs| ==> !rs[k].End?
    ensures var g := FoldAll(c, f, rs);
      && g.whole && g.sinceEntries == f.sinceEntries + |Entries(rs)|
      && g.sinceBytes == f.sinceBytes + Total(Entries(rs))
    decreases |rs|
  {
    if rs != [] {
      var n := |rs| - 1;
      assert rs == rs[..n] + [rs[n]];
      SinceCounts(c, f, rs[..n]);
      FoldAllBoth(c, f, rs[..n], [rs[n]]);
      var g := FoldAll(c, f, rs[..n]);
      TakenTells(c, g, g.next, rs[n]);
      TakenState(c, g, g.next, rs[n]);
      TotalGrows(Entries(rs[..n]), if rs[n].Entry? then [rs[n].bytes] else []);
    }
  }

  // ---- A fold follows the log ----

  /** A checkpoint lies ahead, begun at or below `p`, and `p` has not passed its `End`. */
  ghost predicate Healing<S>(c: Codec<S>, log: seq<Record>, p: nat) {
    exists b: nat, e: nat :: Complete(c, log, b, e) && b <= p <= e
  }

  /**
    The fold stands in the log, its state means what the log below it means
    whenever it claims to, and when it does not a checkpoint is about to heal it.
    */
  ghost predicate FollowsLog<S>(c: Codec<S>, log: seq<Record>, f: Fold<S>) {
    && f.next <= |log|
    && (f.whole ==> f.state == Meaning(c, log[..f.next]))
    && (f.run == RunOf(c, log[..f.next]) || (f.run == None && f.next < |log| && log[f.next] == Begin(f.next)))
    && (!f.whole ==> Healing(c, log, f.next))
  }

  lemma NewFollows<S>(c: Codec<S>, log: seq<Record>)
    ensures FollowsLog(c, log, NewFold(c))
  {
    assert log[..0] == [];
  }

  lemma JumpFollows<S>(c: Codec<S>, log: seq<Record>, f: Fold<S>, floor: nat)
    requires FollowsLog(c, log, f) && (floor > f.next ==> CompleteFrom(c, log, floor))
    ensures FollowsLog(c, log, Jumped(f, floor))
  {
    if floor > f.next {
      var e: nat :| Complete(c, log, floor, e);
      RunBegins(c, log, floor, e);
    }
  }

  /** A complete run's first record is its `Begin`. */
  lemma {:induction false} RunBegins<S>(c: Codec<S>, log: seq<Record>, b: nat, e: nat)
    requires b < e <= |log| && RunOf(c, log[..e]).Some? && RunOf(c, log[..e]).value.begin == b
    ensures log[b] == Begin(b)
    decreases e
  {
    assert log[..e][..e - 1] == log[..e - 1];
    if log[e - 1].Chunk? {
      RunHasNoEntry(c, log[..e - 1]);
      RunBegins(c, log, b, e - 1);
    }
  }

  lemma FollowsGrows<S>(c: Codec<S>, log: seq<Record>, more: seq<Record>, f: Fold<S>)
    requires FollowsLog(c, log, f) && log <= more
    ensures FollowsLog(c, more, f)
  {
    assert more[..f.next] == log[..f.next];
    if !f.whole {
      var b: nat, e: nat :| Complete(c, log, b, e) && b <= f.next <= e;
      CompleteGrows(c, log, more, b, e);
    }
  }

  lemma StepPrefix<S>(c: Codec<S>, log: seq<Record>, p: nat)
    requires p < |log|
    ensures var up := log[..p + 1]; up[..p] == log[..p] && up[p] == log[p]
    ensures RunOf(c, log[..p + 1]) == RunStep(c, RunOf(c, log[..p]), p, log[p])
    ensures !log[p].Entry? ==> Meaning(c, log[..p + 1]) == Meaning(c, log[..p])
    ensures log[p].Entry? ==> Meaning(c, log[..p + 1]) == c.apply(Meaning(c, log[..p]), p, log[p].bytes)
  {
    assert log[..p + 1][..p] == log[..p];
  }

  /** The next record read from a sound log keeps the fold on it, and never finds it diverged. */
  lemma StepFollows<S(!new)>(c: Codec<S>, log: seq<Record>, f: Fold<S>)
    requires Lawful(c) && Sound(c, log) && FollowsLog(c, log, f) && f.next < |log|
    ensures var (g, folded) := Taken(c, f, f.next, log[f.next]);
      && FollowsLog(c, log, g) && g.next == f.next + 1
      && !(folded.Checkpointed? && folded.verified == Some(false))
  {
    var p := f.next;
    var r := log[p];
    StepPrefix(c, log, p);
    if r.End? && f.run.Some? && Commits(f.run.value, r) {
      EndFollows(c, log, f);
    } else {
      var g := Taken(c, f, p, r).0;
      if !f.whole {
        StillHealing(c, log, f);
      }
    }
  }

  lemma StillHealing<S>(c: Codec<S>, log: seq<Record>, f: Fold<S>)
    requires FollowsLog(c, log, f) && !f.whole && f.next < |log|
    requires !(log[f.next].End? && f.run.Some? && Commits(f.run.value, log[f.next]))
    ensures Healing(c, log, f.next + 1)
  {
    var b: nat, e: nat :| Complete(c, log, b, e) && b <= f.next <= e;
    assert f.next < e;
  }

  lemma EndFollows<S(!new)>(c: Codec<S>, log: seq<Record>, f: Fold<S>)
    requires Lawful(c) && Sound(c, log) && FollowsLog(c, log, f) && f.next < |log|
    requires log[f.next].End? && f.run.Some? && Commits(f.run.value, log[f.next])
    ensures var (g, folded) := Taken(c, f, f.next, log[f.next]);
      && FollowsLog(c, log, g) && g.whole && folded.Checkpointed? && folded.verified != Some(false)
  {
    var p := f.next;
    var b := f.run.value.begin;
    RunHasNoEntry(c, log[..p]);
    assert log[..p][..b] == log[..b];
    assert Complete(c, log, b, p);
    StepPrefix(c, log, p);
    MeaningGood(c, log[..b]);
  }

  /** `page` is what the log holds from `from` on. */
  ghost predicate PageAt(log: seq<Record>, from: nat, page: seq<Record>) {
    from + |page| <= |log| && forall k :: 0 <= k < |page| ==> page[k] == log[from + k]
  }

  lemma PageRest(log: seq<Record>, from: nat, page: seq<Record>)
    requires PageAt(log, from, page) && page != []
    ensures page[0] == log[from] && PageAt(log, from + 1, page[1..])
  {
    forall k | 0 <= k < |page[1..]|
      ensures page[1..][k] == log[from + 1 + k]
    {
      assert page[k + 1] == log[from + (k + 1)];
    }
  }

  /** Any page of a sound log keeps the fold on it. */
  lemma {:induction false} PageFollows<S(!new)>(c: Codec<S>, log: seq<Record>, f: Fold<S>, page: seq<Record>)
    requires Lawful(c) && Sound(c, log) && FollowsLog(c, log, f) && PageAt(log, f.next, page)
    ensures FollowsLog(c, log, FoldAll(c, f, page)) && FoldAll(c, f, page).next == f.next + |page|
    decreases |page|
  {
    if page != [] {
      PageRest(log, f.next, page);
      StepFollows(c, log, f);
      PageFollows(c, log, Taken(c, f, f.next, page[0]).0, page[1..]);
    }
  }

  /** At the tail the fold is whole: no checkpoint is left ahead to wait for. */
  lemma WholeAtTail<S>(c: Codec<S>, log: seq<Record>, f: Fold<S>)
    requires FollowsLog(c, log, f) && f.next == |log|
    ensures f.whole && f.state == Meaning(c, log)
  {
    assert log[..|log|] == log;
  }

  /**
    Checkpoint and truncate preserve meaning: a new fold that starts at the floor
    ends in the state of every entry ever appended.
    */
  lemma LoadFromFloor<S(!new)>(c: Codec<S>, log: seq<Record>, floor: nat)
    requires Lawful(c) && Sound(c, log) && (floor == 0 || CompleteFrom(c, log, floor))
    ensures floor <= |log|
    ensures var f := FoldAll(c, Jumped(NewFold(c), floor), log[floor..]);
      f.whole && f.next == |log| && f.state == Meaning(c, log)
  {
    if floor != 0 {
      var e: nat :| Complete(c, log, floor, e);
    }
    NewFollows(c, log);
    JumpFollows(c, log, NewFold(c), floor);
    PageFollows(c, log, Jumped(NewFold(c), floor), log[floor..]);
    WholeAtTail(c, log, FoldAll(c, Jumped(NewFold(c), floor), log[floor..]));
  }

  // ---- Runs ----

  function Pieces(state: Value, size: nat): seq<Value>
    requires size > 0
    decreases |state|
  {
    if state == [] then [] else if |state| <= size then [state]
    else [state[..size]] + Pieces(state[size..], size)
  }

  function Joined(pieces: seq<Value>): Value {
    if pieces == [] then [] else Joined(pieces[..|pieces| - 1]) + pieces[|pieces| - 1]
  }

  function Checksum<S>(c: Codec<S>, pieces: seq<Value>): nat {
    if pieces == [] then 0 else c.crc(Checksum(c, pieces[..|pieces| - 1]), pieces[|pieces| - 1])
  }

  /** One `Begin` at `at`, a chunk for each piece of `state`, and the `End` that commits them. */
  function Run<S>(c: Codec<S>, at: nat, state: Value, chunk: nat): seq<Record> {
    var pieces := Pieces(state, Max(chunk, 1));
    [Begin(at)] + seq(|pieces|, i requires 0 <= i < |pieces| => Chunk(pieces[i]))
      + [End(|pieces|, Checksum(c, pieces))]
  }

  lemma {:induction false} JoinedBoth(a: seq<Value>, b: seq<Value>)
    ensures Joined(a + b) == Joined(a) + Joined(b)
    decreases |b|
  {
    if b == [] {
      assert a + b == a;
    } else {
      var n := |b| - 1;
      JoinedBoth(a, b[..n]);
      assert (a + b)[..|a + b| - 1] == a + b[..n];
    }
  }

  lemma JoinedOne(p: Value)
    ensures Joined([p]) == p
  {
    assert [p][..0] == [];
    assert Joined([]) + p == p;
  }

  /** Cutting loses nothing. */
  lemma {:induction false} PiecesJoin(state: Value, size: nat)
    requires size > 0
    ensures Joined(Pieces(state, size)) == state
    decreases |state|
  {
    if |state| > size {
      var rest := Pieces(state[size..], size);
      PiecesJoin(state[size..], size);
      JoinedBoth([state[..size]], rest);
      JoinedOne(state[..size]);
      assert state[..size] + state[size..] == state;
    } else if state != [] {
      JoinedOne(state);
    }
  }

  /** No piece is empty, or larger than asked. */
  lemma {:induction false} PieceSizes(state: Value, size: nat, p: Value)
    requires size > 0 && p in Pieces(state, size)
    ensures 0 < |p| <= size
    decreases |state|
  {
    if |state| > size && p != state[..size] {
      PieceSizes(state[size..], size, p);
    }
  }

  /** What a fold of the run's first `k` records collects. */
  function Collected<S>(c: Codec<S>, at: nat, state: Value, chunk: nat, k: nat): OpenRun
    requires 0 < k < |Run(c, at, state, chunk)|
  {
    var pieces := Pieces(state, Max(chunk, 1))[..k - 1];
    OpenRun(at, Joined(pieces), k - 1, Checksum(c, pieces))
  }

  lemma CollectsOne<S>(c: Codec<S>, log: seq<Record>, at: nat, state: Value, chunk: nat, k: nat)
    requires at + k <= |log| && 0 < k < |Run(c, at, state, chunk)|
    requires log[at + k - 1] == Run(c, at, state, chunk)[k - 1]
    requires k > 1 ==> RunOf(c, log[..at + k - 1]) == Some(Collected(c, at, state, chunk, k - 1))
    ensures RunOf(c, log[..at + k]) == Some(Collected(c, at, state, chunk, k))
  {
    StepPrefix(c, log, at + k - 1);
    if k > 1 {
      var pieces := Pieces(state, Max(chunk, 1));
      assert pieces[..k - 1][..k - 2] == pieces[..k - 2];
    }
  }

  lemma {:induction false} RunCollects<S>(c: Codec<S>, log: seq<Record>, at: nat, state: Value, chunk: nat, k: nat)
    requires at + k <= |log| && 0 < k < |Run(c, at, state, chunk)|
    requires log[at..at + k] == Run(c, at, state, chunk)[..k]
    ensures RunOf(c, log[..at + k]) == Some(Collected(c, at, state, chunk, k))
    decreases k
  {
    var run := Run(c, at, state, chunk);
    assert log[at + k - 1] == run[k - 1] by {
      assert log[at..at + k][k - 1] == run[..k][k - 1];
    }
    if k > 1 {
      assert log[at..at + (k - 1)] == run[..k - 1] by {
        assert log[at..at + (k - 1)] == log[at..at + k][..k - 1];
        assert run[..k][..k - 1] == run[..k - 1];
      }
      RunCollects(c, log, at, state, chunk, k - 1);
    }
    CollectsOne(c, log, at, state, chunk, k);
  }

  /** The `End` commits exactly what the run collects: the state it was cut from. */
  lemma RunCommits<S>(c: Codec<S>, at: nat, state: Value, chunk: nat)
    ensures var run := Run(c, at, state, chunk); var n := |run| - 1;
      n > 0 && Collected(c, at, state, chunk, n).state == state && Commits(Collected(c, at, state, chunk, n), run[n])
  {
    var pieces := Pieces(state, Max(chunk, 1));
    PiecesJoin(state, Max(chunk, 1));
    assert pieces[..|pieces|] == pieces;
  }

  // ---- The fold, updated in place ----

  class Folder<S> {
    const codec: Codec<S>
    var state: S
    var next: nat
    var whole: bool
    var run: Option<OpenRun>
    var sinceEntries: nat
    var sinceBytes: nat

    ghost function View(): Fold<S>
      reads this
    {
      Fold(state, next, whole, run, sinceEntries, sinceBytes)
    }

    /** Nothing but its own chunks lies between an open run's `Begin` and `next`. */
    ghost predicate Valid()
      reads this
    {
      run.Some? ==> run.value.begin + 1 + run.value.chunks == next
    }

    constructor (c: Codec<S>)
      ensures Valid() && codec == c && View() == NewFold(c)
    {
      codec := c;
      state, next, whole, run, sinceEntries, sinceBytes := c.empty, 0, true, None, 0, 0;
    }

    method Jump(floor: nat)
      requires Valid()
      modifies this
      ensures Valid() && View() == Jumped(old(View()), floor)
    {
      if floor > next {
        next := floor;
        whole := false;
        run := None;
      }
    }

    method Take(at: nat, r: Record) returns (folded: Folded)
      requires Valid()
      modifies this
      ensures Valid() && (View(), folded) == Taken(codec, old(View()), at, r)
    {
      if at < next {
        return Past;
      }
      Jump(at);
      assert at == next;
      next := at + 1;
      match r {
        case Garbage =>
          run := None;
          folded := Unreadable;
        case Entry(bytes) =>
          run := None;
          if !whole {
            return Skipped;
          }
          sinceEntries := sinceEntries + 1;
          sinceBytes := sinceBytes + |bytes|;
          state := codec.apply(state, at, bytes);
          folded := Applied;
        case Begin(covers) =>
          run := None;
          if covers != at {
            return Unreadable;
          }
          run := Some(OpenRun(at, [], 0, 0));
          folded := InRun;
        case Chunk(bytes) =>
          if run.Some? {
            assert run.value.begin + 1 + run.value.chunks == at;
            run := Some(OpenRun(run.value.begin, run.value.state + bytes, run.value.chunks + 1,
                                codec.crc(run.value.checksum, bytes)));
          }
          folded := InRun;
        case End(chunks, checksum) =>
          var taken := run;
          run := None;
          if taken == None || taken.value.chunks != chunks || taken.value.checksum != checksum {
            return Unreadable;
          }
          assert taken.value.begin + 1 + taken.value.chunks == at;
          folded := Restore(taken.value.begin, taken.value.state);
      }
    }

    method Restore(begin: nat, bytes: Value) returns (folded: Folded)
      requires run == None && begin < next
      modifies this
      ensures (View(), folded) == Restored(codec, old(View()), begin, bytes)
      ensures run == None
    {
      var verified := if whole then Some(codec.encode(state) == bytes) else None;
      if verified == Some(true) {
        sinceEntries, sinceBytes := 0, 0;
        return Checkpointed(begin, verified);
      }
      var back := codec.decode(begin, bytes);
      if back.None? {
        return Unreadable;
      }
      state, whole := back.value, true;
      sinceEntries, sinceBytes := 0, 0;
      folded := Checkpointed(begin, verified);
    }
  }
}
