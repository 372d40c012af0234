/** Types shared by every module. */
module Common {
  datatype Option<+T> = None | Some(value: T)

  newtype byte = x: int | 0 <= x < 256

  /** A record: opaque bytes. */
  type Value = seq<byte>

  function Max(a: nat, b: nat): nat { if a < b then b else a }

  function Min(a: nat, b: nat): nat { if a < b then a else b }
}

/**
  The journal state machine: four calls, judged one decided command at a time.
  A `Journal` is the four scalars the source folds, plus its log: `held`, every
  accepted write in order (what a retry is answered from), and `led`, every uuid
  that ever led. `held` and `led` only record the past; no verdict reads `led`.
  */
module Journal {
  import opened Common

  /** A leader uuid; 0 is unset and never leads. */
  type Uuid = nat

  /** A `Write`: records asked for at position `at` under `leader`. */
  datatype Entry = Entry(leader: Uuid, at: nat, records: seq<Value>) {
    function End(): nat { at + |records| }

    predicate Covers(p: nat) { at <= p < End() }

    /** The two share a position. */
    predicate Overlaps(other: Entry) { Max(at, other.at) < Min(End(), other.End()) }
  }

  datatype Mode = Single | Multi

  datatype Command =
    | Write(entry: Entry)
    | Truncate(who: Uuid, upTo: nat)
    | SetLeader(mint: Uuid, prior: Option<Uuid>)
    | Noop

  datatype State = State(leader: Option<Uuid>, term: nat, nextSeq: nat, firstSeq: nat)

  /** What a client learns of the state: everything but the term. */
  datatype View = View(leader: Option<Uuid>, nextSeq: nat, firstSeq: nat)

  datatype Outcome =
    | Accepted(at: nat, count: nat)
    | Duplicate(at: nat, count: nat)
    | Refused(view: View)
    | Truncated(view: View)
    | Leader(view: View)
    | LeaderRefused(view: View)
    | Trimmed(view: View)
    | TruncateRefused(view: View)
    | WrongMode(view: View)
    | NoEffect

  datatype Journal = Journal(state: State, held: seq<Entry>, led: set<Uuid>)

  const EMPTY := Journal(State(None, 0, 0, 0), [], {})

  function ViewOf(s: State): View { View(s.leader, s.nextSeq, s.firstSeq) }

  /** The last batch of `held` that starts at `p`. */
  function AcceptedAt(held: seq<Entry>, p: nat): Option<Entry> {
    if held == [] then None
    else if held[|held| - 1].at == p then Some(held[|held| - 1])
    else AcceptedAt(held[..|held| - 1], p)
  }

  /** Every record the journal holds, by position. */
  function Content(held: seq<Entry>): seq<Value> {
    if held == [] then [] else Content(held[..|held| - 1]) + held[|held| - 1].records
  }

  // ---- The judgement ----

  function ApplyWrite(j: Journal, e: Entry): (Journal, Outcome) {
    var s := j.state;
    if e.at < s.firstSeq then (j, Truncated(ViewOf(s)))
    else if e.at < s.nextSeq then
      if AcceptedAt(j.held, e.at) == Some(e) then (j, Duplicate(e.at, |e.records|))
      else (j, Refused(ViewOf(s)))
    else if s.leader != Some(e.leader) || e.at != s.nextSeq || e.records == [] then
      (j, Refused(ViewOf(s)))
    else
      (j.(state := s.(nextSeq := e.End()), held := j.held + [e]), Accepted(e.at, |e.records|))
  }

  /** A multi-writer write takes the next position, whatever position it names. */
  function ApplyAppend(j: Journal, e: Entry): (Journal, Outcome) {
    var s := j.state;
    if e.records == [] then (j, Refused(ViewOf(s)))
    else
      var placed := e.(at := s.nextSeq);
      (j.(state := s.(nextSeq := placed.End()), held := j.held + [placed]), Accepted(s.nextSeq, |e.records|))
  }

  function ApplySetLeader(j: Journal, mint: Uuid, prior: Option<Uuid>): (Journal, Outcome) {
    var s := j.state;
    if prior != s.leader || mint == 0 || Some(mint) == s.leader then (j, LeaderRefused(ViewOf(s)))
    else
      var after := s.(leader := Some(mint), term := s.term + 1);
      (j.(state := after, led := j.led + {mint}), Leader(ViewOf(after)))
  }

  function Trim(j: Journal, upTo: nat): (Journal, Outcome) {
    var after := j.state.(firstSeq := Max(j.state.firstSeq, Min(upTo, j.state.nextSeq)));
    (j.(state := after), Trimmed(ViewOf(after)))
  }

  function ApplyTruncate(j: Journal, who: Uuid, upTo: nat): (Journal, Outcome) {
    if j.state.leader != Some(who) then (j, TruncateRefused(ViewOf(j.state))) else Trim(j, upTo)
  }

  function Apply(mode: Mode, j: Journal, c: Command): (Journal, Outcome) {
    match (mode, c)
    case (_, Noop) => (j, NoEffect)
    case (Single, Write(e)) =>
      if e.leader == 0 then (j, WrongMode(ViewOf(j.state))) else ApplyWrite(j, e)
    case (Single, SetLeader(mint, prior)) => ApplySetLeader(j, mint, prior)
    case (Single, Truncate(who, upTo)) =>
      if who == 0 then (j, WrongMode(ViewOf(j.state))) else ApplyTruncate(j, who, upTo)
    case (Multi, Write(e)) =>
      if e.leader == 0 then ApplyAppend(j, e) else (j, WrongMode(ViewOf(j.state)))
    case (Multi, Truncate(who, upTo)) =>
      if who == 0 then Trim(j, upTo) else (j, WrongMode(ViewOf(j.state)))
    case (Multi, SetLeader(_, _)) => (j, WrongMode(ViewOf(j.state)))
  }

  // ---- What every reachable journal keeps ----

  /** The log tiles `[0, next)`: no hole, no overlap, no empty batch. */
  ghost predicate Tiled(held: seq<Entry>, next: nat) {
    if held == [] then next == 0
    else
      var last := held[|held| - 1];
      last.records != [] && last.End() == next && Tiled(held[..|held| - 1], last.at)
  }

  ghost predicate Valid(j: Journal) {
    && Tiled(j.held, j.state.nextSeq)
    && j.state.firstSeq <= j.state.nextSeq
    && (j.state.leader.Some? <==> j.state.term > 0)
    && (j.state.leader.Some? ==> j.state.leader.value in j.led && j.state.leader.value != 0)
    && 0 !in j.led
  }

  lemma ApplyKeepsValid(mode: Mode, j: Journal, c: Command)
    requires Valid(j)
    ensures Valid(Apply(mode, j, c).0)
  {
    var j' := Apply(mode, j, c).0;
    if j'.held != j.held {
      assert j'.held[..|j'.held| - 1] == j.held;
    }
  }

  /**
    The negative space of one call: nothing moves back, the log only grows at
    its end, and each outcome moves its own scalars and no other.
    */
  lemma ApplyMoves(mode: Mode, j: Journal, c: Command)
    requires Valid(j)
    ensures var (j', o) := Apply(mode, j, c);
      && j.held <= j'.held && j.led <= j'.led
      && j.state.term <= j'.state.term
      && j.state.nextSeq <= j'.state.nextSeq
      && j.state.firstSeq <= j'.state.firstSeq
      && (j'.state.leader != j.state.leader <==> o.Leader?)
      && (j'.held != j.held <==> o.Accepted?)
      && (o.Leader? ==> j'.state == j.state.(leader := j'.state.leader, term := j.state.term + 1))
      && (o.Accepted? ==> o.at == j.state.nextSeq && o.count > 0
                          && j'.state == j.state.(nextSeq := o.at + o.count))
      && (o.Trimmed? ==> j'.state == j.state.(firstSeq := j'.state.firstSeq))
      && (!(o.Leader? || o.Accepted? || o.Trimmed?) ==> j' == j)
  {
  }

  // ---- The log by position ----

  lemma {:induction false} TiledBelow(held: seq<Entry>, next: nat, i: nat)
    requires Tiled(held, next) && i < |held|
    ensures held[i].End() <= next && held[i].records != []
    decreases |held|
  {
    if i < |held| - 1 {
      TiledBelow(held[..|held| - 1], held[|held| - 1].at, i);
    }
  }

  /** Every position below the tail lies in one held batch. */
  lemma {:induction false} TiledCovers(held: seq<Entry>, next: nat, p: nat) returns (i: nat)
    requires Tiled(held, next) && p < next
    ensures i < |held| && held[i].Covers(p)
    decreases |held|
  {
    var last := held[|held| - 1];
    if last.at <= p {
      i := |held| - 1;
    } else {
      i := TiledCovers(held[..|held| - 1], last.at, p);
    }
  }

  /** A position names at most one held batch, so the lookup is membership. */
  lemma {:induction false} AcceptedAtIsHeld(held: seq<Entry>, next: nat, e: Entry)
    requires Tiled(held, next)
    ensures AcceptedAt(held, e.at) == Some(e) <==> e in held
    decreases |held|
  {
    if held != [] {
      var n := |held| - 1;
      var last := held[n];
      assert held == held[..n] + [last];
      AcceptedAtIsHeld(held[..n], last.at, e);
      if e in held[..n] {
        var i :| 0 <= i < n && held[i] == e;
        TiledBelow(held[..n], last.at, i);
      }
    }
  }

  /** The call is one its mode has: fenced by a uuid in single-writer mode, by none in multi-writer mode. */
  predicate OfMode(mode: Mode, c: Command) {
    match c
    case Write(e) => mode.Single? <==> e.leader != 0
    case Truncate(who, _) => mode.Single? <==> who != 0
    case SetLeader(_, _) => mode.Single?
    case Noop => true
  }

  /** Who may change a journal: in single-writer mode the leader in force, in multi-writer mode anyone. */
  predicate Entitled(mode: Mode, j: Journal, u: Uuid) { mode.Multi? || j.state.leader == Some(u) }

  /**
    What each call is answered, exactly: a write is accepted at the tail from whoever is
    entitled, and in multi-writer mode wherever it asked to be; a write held is a
    duplicate, one below the floor is gone; a claim is won over the leader in force; a
    truncation moves the floor as far as there are records.
    */
  lemma JudgedWhen(mode: Mode, j: Journal, c: Command)
    requires Valid(j)
    ensures var (j', o) := Apply(mode, j, c); var s := j.state; var ok := OfMode(mode, c);
      && (o.WrongMode? <==> !ok) && (o.NoEffect? <==> c.Noop?)
      && (o.Accepted? <==>
            ok && c.Write? && c.entry.records != [] && Entitled(mode, j, c.entry.leader)
            && (mode.Single? ==> c.entry.at == s.nextSeq))
      && (o.Accepted? ==> j'.held == j.held + [c.entry.(at := s.nextSeq)])
      && (o.Duplicate? <==> ok && mode.Single? && c.Write? && c.entry in j.held && s.firstSeq <= c.entry.at)
      && (o.Truncated? <==> ok && mode.Single? && c.Write? && c.entry.at < s.firstSeq)
      && (o.Leader? <==> ok && c.SetLeader? && c.prior == s.leader && c.mint != 0 && s.leader != Some(c.mint))
      && (o.Leader? ==> j'.state.leader == Some(c.mint))
      && (o.Trimmed? <==> ok && c.Truncate? && Entitled(mode, j, c.who))
      && (o.Trimmed? ==> j'.state.firstSeq == Max(s.firstSeq, Min(c.upTo, s.nextSeq)))
  {
    if c.Write? {
      AcceptedAtIsHeld(j.held, j.state.nextSeq, c.entry);
      if c.entry in j.held {
        var i :| 0 <= i < |j.held| && j.held[i] == c.entry;
        TiledBelow(j.held, j.state.nextSeq, i);
      }
    }
  }

  lemma {:induction false} ContentLength(held: seq<Entry>, next: nat)
    requires Tiled(held, next)
    ensures |Content(held)| == next
    decreases |held|
  {
    if held != [] {
      ContentLength(held[..|held| - 1], held[|held| - 1].at);
    }
  }

  /** A held batch's records are the journal's records at its positions. */
  lemma {:induction false} ContentOfBatch(held: seq<Entry>, next: nat, i: nat)
    requires Tiled(held, next) && i < |held|
    ensures held[i].End() <= next == |Content(held)|
    ensures Content(held)[held[i].at..held[i].End()] == held[i].records
    decreases |held|
  {
    ContentLength(held, next);
    TiledBelow(held, next, i);
    var n := |held| - 1;
    ContentLength(held[..n], held[n].at);
    if i < n {
      ContentOfBatch(held[..n], held[n].at, i);
      assert Content(held)[held[i].at..held[i].End()] == Content(held[..n])[held[i].at..held[i].End()];
    }
  }

  // ---- Runs ----

  /** The journal after the decided commands `cs`, in order. */
  function After(j: Journal, cs: seq<Command>): Journal
    decreases |cs|
  {
    if cs == [] then j else After(Apply(Single, j, cs[0]).0, cs[1..])
  }

  /** The clients' one promise: a uuid that wins never led before. */
  ghost predicate FreshStep(j: Journal, c: Command) {
    Apply(Single, j, c).1.Leader? ==> c.SetLeader? && c.mint !in j.led
  }

  ghost predicate FreshRun(j: Journal, cs: seq<Command>)
    decreases |cs|
  {
    cs == [] || (FreshStep(j, cs[0]) && FreshRun(Apply(Single, j, cs[0]).0, cs[1..]))
  }

  lemma {:induction false} RunKeeps(j: Journal, cs: seq<Command>)
    requires Valid(j)
    ensures var k := After(j, cs);
      && Valid(k)
      && j.held <= k.held && j.led <= k.led
      && j.state.nextSeq <= k.state.nextSeq
      && j.state.firstSeq <= k.state.firstSeq
    decreases |cs|
  {
    if cs != [] {
      ApplyKeepsValid(Single, j, cs[0]);
      ApplyMoves(Single, j, cs[0]);
      RunKeeps(Apply(Single, j, cs[0]).0, cs[1..]);
    }
  }

  lemma {:induction false} AfterBoth(j: Journal, a: seq<Command>, b: seq<Command>)
    ensures After(j, a + b) == After(After(j, a), b)
    ensures FreshRun(j, a + b) <==> FreshRun(j, a) && FreshRun(After(j, a), b)
    decreases |a|
  {
    if a == [] {
      assert a + b == b;
    } else {
      assert (a + b)[1..] == a[1..] + b;
      AfterBoth(Apply(Single, j, a[0]).0, a[1..], b);
    }
  }

  // ---- Writes that can never land ----

  /**
    `e` is not in the log and no run can put it there: its position is taken,
    or its uuid led and another leader followed it.
    */
  ghost predicate Dead(j: Journal, e: Entry) {
    && e !in j.held
    && (e.at < j.state.nextSeq || (e.leader in j.led && j.state.leader != Some(e.leader)))
  }

  lemma DeadStays(j: Journal, c: Command, e: Entry)
    requires Valid(j) && Dead(j, e) && FreshStep(j, c)
    ensures Dead(Apply(Single, j, c).0, e)
  {
    ApplyMoves(Single, j, c);
  }

  lemma {:induction false} DeadForever(j: Journal, cs: seq<Command>, e: Entry)
    requires Valid(j) && Dead(j, e) && FreshRun(j, cs)
    ensures Dead(After(j, cs), e)
    decreases |cs|
  {
    if cs != [] {
      DeadStays(j, cs[0], e);
      ApplyKeepsValid(Single, j, cs[0]);
      DeadForever(Apply(Single, j, cs[0]).0, cs[1..], e);
    }
  }

  /** A held write is answered from the log for ever, or truncated away. */
  lemma HeldIsDuplicate(j: Journal, cs: seq<Command>, e: Entry)
    requires Valid(j) && e in j.held && e.leader != 0
    ensures var k := After(j, cs);
      && e in k.held
      && Apply(Single, k, Write(e)) ==
         (k, if e.at < k.state.firstSeq then Truncated(ViewOf(k.state)) else Duplicate(e.at, |e.records|))
  {
    RunKeeps(j, cs);
    var k := After(j, cs);
    var i :| 0 <= i < |j.held| && j.held[i] == e;
    assert k.held[i] == e;
    TiledBelow(k.held, k.state.nextSeq, i);
    AcceptedAtIsHeld(k.held, k.state.nextSeq, e);
  }

  // ---- A uuid leads one term ----

  /**
    `u` was seen to lead with the tail at `from`. While it leads still, every
    position from there on holds its writes only.
    */
  ghost predicate LedSince(j: Journal, u: Uuid, from: nat) {
    && u in j.led
    && from <= j.state.nextSeq
    && (j.state.leader == Some(u) ==> forall e :: e in j.held && from < e.End() ==> e.leader == u)
  }

  /** A view naming `u` the leader is such a sight. */
  lemma LedSinceNow(j: Journal)
    requires Valid(j) && j.state.leader.Some?
    ensures LedSince(j, j.state.leader.value, j.state.nextSeq)
  {
    forall e | e in j.held
      ensures e.End() <= j.state.nextSeq
    {
      var i :| 0 <= i < |j.held| && j.held[i] == e;
      TiledBelow(j.held, j.state.nextSeq, i);
    }
  }

  lemma LedSinceStays(j: Journal, c: Command, u: Uuid, from: nat)
    requires Valid(j) && LedSince(j, u, from) && FreshStep(j, c)
    ensures LedSince(Apply(Single, j, c).0, u, from)
  {
    ApplyMoves(Single, j, c);
  }

  lemma {:induction false} LedSinceRun(j: Journal, cs: seq<Command>, u: Uuid, from: nat)
    requires Valid(j) && LedSince(j, u, from) && FreshRun(j, cs)
    ensures LedSince(After(j, cs), u, from)
    decreases |cs|
  {
    if cs != [] {
      LedSinceStays(j, cs[0], u, from);
      ApplyKeepsValid(Single, j, cs[0]);
      LedSinceRun(Apply(Single, j, cs[0]).0, cs[1..], u, from);
    }
  }

  // ---- Merging writes refines writing them apart ----

  /** The writes at consecutive positions under one uuid, none empty. */
  ghost predicate Consecutive(parts: seq<Entry>) {
    && parts != []
    && (forall k :: 0 <= k < |parts| ==> parts[k].records != [] && parts[k].leader == parts[0].leader)
    && (forall k :: 0 < k < |parts| ==> parts[k].at == parts[k - 1].End())
  }

  function Merged(parts: seq<Entry>): Entry
    requires parts != []
  {
    Entry(parts[0].leader, parts[0].at, Content(parts))
  }

  function Writes(parts: seq<Entry>): seq<Command> {
    seq(|parts|, k requires 0 <= k < |parts| => Write(parts[k]))
  }

  lemma {:induction false} ContentOfBoth(a: seq<Entry>, b: seq<Entry>)
    ensures Content(a + b) == Content(a) + Content(b)
    decreases |b|
  {
    if b == [] {
      assert a + b == a;
    } else {
      var n := |b| - 1;
      ContentOfBoth(a, b[..n]);
      assert (a + b)[..|a + b| - 1] == a + b[..n];
    }
  }

  lemma {:induction false} ConsecutiveEnds(parts: seq<Entry>)
    requires Consecutive(parts)
    ensures Merged(parts).End() == parts[|parts| - 1].End()
    ensures |Merged(parts).records| > 0
    decreases |parts|
  {
    var n := |parts| - 1;
    if n == 0 {
      assert Content(parts[..0]) == [];
    } else {
      assert forall k :: 0 <= k < n ==> parts[..n][k] == parts[k];
      assert Consecutive(parts[..n]);
      ConsecutiveEnds(parts[..n]);
    }
  }

  /** Consecutive writes, the first at the tail, are accepted one by one. */
  lemma {:induction false} WritesApart(j: Journal, parts: seq<Entry>)
    requires Consecutive(parts) && parts[0].leader != 0
    requires j.state.leader == Some(parts[0].leader)
    requires j.state.firstSeq <= j.state.nextSeq == parts[0].at
    ensures After(j, Writes(parts)) ==
            j.(state := j.state.(nextSeq := parts[|parts| - 1].End()), held := j.held + parts)
    decreases |parts|
  {
    var rest := parts[1..];
    var first := Apply(Single, j, Write(parts[0])).0;
    assert Writes(parts)[1..] == Writes(rest);
    assert After(j, Writes(parts)) == After(first, Writes(rest));
    if rest != [] {
      assert forall k :: 0 <= k < |rest| ==> rest[k] == parts[k + 1];
      assert Consecutive(rest);
      WritesApart(first, rest);
      assert j.held + [parts[0]] + rest == j.held + parts;
    } else {
      assert parts == [parts[0]];
    }
  }

  /**
    The journal that accepts the merged write and the one that accepts its
    parts in order reach the same state, with the same record at every
    position; and the merged write is accepted exactly when its first part is.
    */
  lemma MergeRefines(j: Journal, parts: seq<Entry>)
    requires Valid(j) && Consecutive(parts) && parts[0].leader != 0
    ensures var alone := Apply(Single, j, Write(parts[0]));
      var whole := Apply(Single, j, Write(Merged(parts)));
      && (whole.1.Accepted? <==> alone.1.Accepted?)
      && (alone.1.Accepted? ==>
            var apart := After(j, Writes(parts));
            && whole.1 == Accepted(parts[0].at, |Merged(parts).records|)
            && whole.0.state.nextSeq == parts[|parts| - 1].End()
            && apart.state == whole.0.state && apart.led == whole.0.led
            && apart.held == j.held + parts
            && Content(apart.held) == Content(whole.0.held))
  {
    ConsecutiveEnds(parts);
    if Apply(Single, j, Write(parts[0])).1.Accepted? {
      WritesApart(j, parts);
      ContentOfBoth(j.held, parts);
      var whole := j.held + [Merged(parts)];
      assert whole[..|whole| - 1] == j.held;
    }
  }

  // ---- The fence ----

  /** `u` led, and another leader followed it. */
  ghost predicate Deposed(j: Journal, u: Uuid) { u in j.led && j.state.leader != Some(u) }

  lemma {:induction false} DeposedRun(j: Journal, cs: seq<Command>, u: Uuid)
    requires Valid(j) && Deposed(j, u) && FreshRun(j, cs)
    ensures Deposed(After(j, cs), u)
    decreases |cs|
  {
    if cs != [] {
      ApplyKeepsValid(Single, j, cs[0]);
      ApplyMoves(Single, j, cs[0]);
      DeposedRun(Apply(Single, j, cs[0]).0, cs[1..], u);
    }
  }

  /** Whatever a deposed uuid asks for, however late it lands, writes no record and moves no floor. */
  lemma DeposedIsFenced(j: Journal, cs: seq<Command>, u: Uuid, c: Command)
    requires Valid(j) && Deposed(j, u) && FreshRun(j, cs)
    requires (c.Write? && c.entry.leader == u) || (c.Truncate? && c.who == u)
    ensures Apply(Single, After(j, cs), c).0 == After(j, cs)
  {
    DeposedRun(j, cs, u);
  }

  lemma {:induction false} LeaderRun(j: Journal, cs: seq<Command>)
    requires Valid(j) && j.state.leader.Some?
    ensures After(j, cs).state.leader.Some?
    decreases |cs|
  {
    if cs != [] {
      ApplyKeepsValid(Single, j, cs[0]);
      ApplyMoves(Single, j, cs[0]);
      LeaderRun(Apply(Single, j, cs[0]).0, cs[1..]);
    }
  }

  /** Of all the claims made over one leader, one wins: once it has, no other ever does. */
  lemma OneClaimWins(j: Journal, mint: Uuid, prior: Option<Uuid>, cs: seq<Command>, rival: Uuid)
    requires Valid(j) && FreshStep(j, SetLeader(mint, prior)) && Apply(Single, j, SetLeader(mint, prior)).1.Leader?
    requires FreshRun(Apply(Single, j, SetLeader(mint, prior)).0, cs)
    ensures !Apply(Single, After(Apply(Single, j, SetLeader(mint, prior)).0, cs), SetLeader(rival, prior)).1.Leader?
  {
    var k := Apply(Single, j, SetLeader(mint, prior)).0;
    ApplyKeepsValid(Single, j, SetLeader(mint, prior));
    if prior == None {
      LeaderRun(k, cs);
    } else {
      assert Deposed(k, prior.value);
      DeposedRun(k, cs, prior.value);
    }
  }

  /** A fenced truncation is the leader's alone, and takes away exactly the positions below it that exist. */
  lemma TruncateTakes(j: Journal, who: Uuid, upTo: nat, p: nat)
    requires Valid(j)
    ensures var (k, o) := Apply(Single, j, Truncate(who, upTo));
      && (o.Trimmed? <==> j.state.leader == Some(who))
      && (o.Trimmed? ==>
            (p < k.state.firstSeq <==> p < j.state.firstSeq || (p < upTo && p < |Content(j.held)|)))
  {
    ContentLength(j.held, j.state.nextSeq);
  }
}
