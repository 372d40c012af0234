/**
  Whole runs of one checkpointed journal: any number of owners that read, write
  runs batch by batch, stop in the middle, are replaced, and truncate late. A
  batch lands only at the tail, and may land long after its owner gave it up.
  */
module CheckpointRuns {
  import opened Common
  import C = Checkpoint

  /** Records an owner asked the journal to hold from position `at` on. */
  datatype Batch = Batch(at: nat, records: seq<C.Record>)

  datatype Phase =
    | Idle
    | Writing(at: nat, records: seq<C.Record>, done: nat)

  datatype Owner<S> = Owner(fold: C.Fold<S>, phase: Phase)

  datatype Sys<S> = Sys(
    log: seq<C.Record>,
    floor: nat,
    sent: set<Batch>,
    written: set<nat>,
    owners: map<nat, Owner<S>>)

  datatype Event =
    | Append(record: C.Record)
    | Arrive(id: nat)
    | Page(id: nat, records: seq<C.Record>)
    | Jump(id: nat)
    | StartRun(id: nat, chunk: nat)
    | Send(id: nat, count: nat)
    | Accept(batch: Batch)
    | Confirm(id: nat, upTo: nat)
    | Stop(id: nat)
    | Truncate(upTo: nat)

  ghost predicate Enabled<S>(s: Sys<S>, ev: Event) {
    match ev
    case Append(r) => r.Entry? || r.Garbage?
    case Arrive(id) => id !in s.owners
    case Page(id, page) =>
      && id in s.owners && s.owners[id].phase.Idle?
      && s.floor <= s.owners[id].fold.next && C.PageAt(s.log, s.owners[id].fold.next, page)
    case Jump(id) => id in s.owners && s.owners[id].phase.Idle? && s.owners[id].fold.next < s.floor
    case StartRun(id, _) => id in s.owners && s.owners[id].phase.Idle? && s.owners[id].fold.whole
    case Send(id, n) =>
      id in s.owners && s.owners[id].phase.Writing? && s.owners[id].phase.done + n <= |s.owners[id].phase.records|
    case Accept(b) => b in s.sent && b.at == |s.log|
    case Confirm(id, upTo) =>
      && id in s.owners && s.owners[id].phase.Writing?
      && var p := s.owners[id].phase;
      && p.done <= upTo <= |p.records| && p.at + upTo <= |s.log|
      && s.log[p.at + p.done..p.at + upTo] == p.records[p.done..upTo]
    case Stop(id) => id in s.owners
    case Truncate(upTo) => upTo in s.written
  }

  function SetOwner<S>(s: Sys<S>, id: nat, o: Owner<S>): Sys<S> { s.(owners := s.owners[id := o]) }

  /** The next `n` records of the run, at the position they go to. */
  function SentBy(p: Phase, n: nat): Batch
    requires p.Writing? && p.done + n <= |p.records|
  {
    Batch(p.at + p.done, p.records[p.done..p.done + n])
  }

  /** The owner after a batch of its run was confirmed. */
  function Confirmed<S>(c: C.Codec<S>, o: Owner<S>, upTo: nat): Owner<S>
    requires o.phase.Writing? && o.phase.done <= upTo <= |o.phase.records|
  {
    var f := C.FoldAll(c, o.fold, o.phase.records[o.phase.done..upTo]);
    Owner(f, if upTo == |o.phase.records| then Idle else o.phase.(done := upTo))
  }

  function Next<S>(c: C.Codec<S>, s: Sys<S>, ev: Event): Sys<S>
    requires Enabled(s, ev)
  {
    match ev
    case Append(r) => s.(log := s.log + [r])
    case Arrive(id) => SetOwner(s, id, Owner(C.NewFold(c), Idle))
    case Page(id, page) => SetOwner(s, id, Owner(C.FoldAll(c, s.owners[id].fold, page), Idle))
    case Jump(id) => SetOwner(s, id, Owner(C.Jumped(s.owners[id].fold, s.floor), Idle))
    case StartRun(id, chunk) =>
      var f := s.owners[id].fold;
      SetOwner(s, id, Owner(f, Writing(f.next, C.Run(c, f.next, c.encode(f.state), chunk), 0)))
    case Send(id, n) => s.(sent := s.sent + {SentBy(s.owners[id].phase, n)})
    case Accept(b) => s.(log := s.log + b.records)
    case Confirm(id, upTo) =>
      var o := s.owners[id];
      var t := SetOwner(s, id, Confirmed(c, o, upTo));
      if upTo == |o.phase.records| then t.(written := s.written + {o.phase.at}) else t
    case Stop(id) => s.(owners := s.owners[id := s.owners[id].(phase := Idle)])
    case Truncate(upTo) => s.(floor := Max(s.floor, upTo))
  }

  ghost predicate Init<S(!new)>(s: Sys<S>) { s == Sys([], 0, {}, {}, map[]) }

  // ---- What every run keeps ----

  /** The run that an owner whose fold stood at `at` writes there, cut as `chunk` says. */
  function RunAt<S>(c: C.Codec<S>, log: seq<C.Record>, at: nat, chunk: nat): seq<C.Record>
    requires at <= |log|
  {
    C.Run(c, at, c.encode(C.Meaning(c, log[..at])), chunk)
  }

  /** Records `from` to `to` of the run at `at`, whose records below `from` the log holds. */
  ghost predicate PartOfRun<S>(c: C.Codec<S>, log: seq<C.Record>, at: nat, chunk: nat, from: nat, to: nat) {
    && at + from <= |log|
    && var run := RunAt(c, log, at, chunk);
    && from <= to <= |run| && log[at..at + from] == run[..from]
  }

  ghost predicate BatchOk<S>(c: C.Codec<S>, log: seq<C.Record>, b: Batch) {
    exists at: nat, chunk: nat, from: nat, to: nat {:trigger PartOfRun(c, log, at, chunk, from, to)} ::
      && PartOfRun(c, log, at, chunk, from, to)
      && b == Batch(at + from, RunAt(c, log, at, chunk)[from..to])
  }

  ghost predicate PhaseOk<S>(c: C.Codec<S>, log: seq<C.Record>, o: Owner<S>) {
    o.phase.Writing? ==>
      && o.fold.next == o.phase.at + o.phase.done
      && exists chunk: nat {:trigger PartOfRun(c, log, o.phase.at, chunk, o.phase.done, |o.phase.records|)} ::
        && PartOfRun(c, log, o.phase.at, chunk, o.phase.done, |o.phase.records|)
        && o.phase.records == RunAt(c, log, o.phase.at, chunk)
  }

  ghost predicate OwnerOk<S>(c: C.Codec<S>, log: seq<C.Record>, o: Owner<S>) {
    C.FollowsLog(c, log, o.fold) && PhaseOk(c, log, o)
  }

  ghost predicate Inv<S>(c: C.Codec<S>, s: Sys<S>) {
    && C.Sound(c, s.log)
    && (s.floor == 0 || C.CompleteFrom(c, s.log, s.floor))
    && (forall b :: b in s.written ==> C.CompleteFrom(c, s.log, b))
    && (forall b :: b in s.sent ==> BatchOk(c, s.log, b))
    && (forall id {:trigger s.owners[id]} :: id in s.owners ==> OwnerOk(c, s.log, s.owners[id]))
  }

  // ---- The log grows ----

  lemma PartGrows<S>(c: C.Codec<S>, log: seq<C.Record>, more: seq<C.Record>, at: nat, chunk: nat, from: nat, to: nat)
    requires PartOfRun(c, log, at, chunk, from, to) && log <= more
    ensures PartOfRun(c, more, at, chunk, from, to) && RunAt(c, more, at, chunk) == RunAt(c, log, at, chunk)
  {
    assert more[..at] == log[..at];
    assert more[at..at + from] == log[at..at + from];
  }

  lemma OwnerGrows<S>(c: C.Codec<S>, log: seq<C.Record>, more: seq<C.Record>, o: Owner<S>)
    requires OwnerOk(c, log, o) && log <= more
    ensures OwnerOk(c, more, o)
  {
    C.FollowsGrows(c, log, more, o.fold);
    if o.phase.Writing? {
      var p := o.phase;
      var chunk: nat :| PartOfRun(c, log, p.at, chunk, p.done, |p.records|) && p.records == RunAt(c, log, p.at, chunk);
      PartGrows(c, log, more, p.at, chunk, p.done, |p.records|);
    }
  }

  lemma BatchGrows<S>(c: C.Codec<S>, log: seq<C.Record>, more: seq<C.Record>, b: Batch)
    requires BatchOk(c, log, b) && log <= more
    ensures BatchOk(c, more, b)
  {
    var at: nat, chunk: nat, from: nat, to: nat :|
      PartOfRun(c, log, at, chunk, from, to) && b == Batch(at + from, RunAt(c, log, at, chunk)[from..to]);
    PartGrows(c, log, more, at, chunk, from, to);
  }

  lemma CompleteFromGrows<S>(c: C.Codec<S>, log: seq<C.Record>, more: seq<C.Record>, b: nat)
    requires C.CompleteFrom(c, log, b) && log <= more
    ensures C.CompleteFrom(c, more, b)
  {
    var e: nat :| C.Complete(c, log, b, e);
    C.CompleteGrows(c, log, more, b, e);
  }

  lemma GrowKeeps<S>(c: C.Codec<S>, s: Sys<S>, more: seq<C.Record>)
    requires Inv(c, s) && s.log <= more && C.Sound(c, more)
    ensures Inv(c, s.(log := more))
  {
    if s.floor != 0 {
      CompleteFromGrows(c, s.log, more, s.floor);
    }
    forall b | b in s.written
      ensures C.CompleteFrom(c, more, b)
    {
      CompleteFromGrows(c, s.log, more, b);
    }
    forall b | b in s.sent
      ensures BatchOk(c, more, b)
    {
      BatchGrows(c, s.log, more, b);
    }
    forall id | id in s.owners
      ensures OwnerOk(c, more, s.owners[id])
    {
      OwnerGrows(c, s.log, more, s.owners[id]);
    }
  }

  /** A log stays sound when each checkpoint that ends in its new part is right. */
  lemma SoundGrows<S>(c: C.Codec<S>, log: seq<C.Record>, more: seq<C.Record>)
    requires C.Sound(c, log) && log <= more
    requires forall b: nat, e: nat {:trigger C.Complete(c, more, b, e)} :: C.Complete(c, more, b, e) && |log| <= e ==>
      C.RunOf(c, more[..e]).value.state == c.encode(C.Meaning(c, more[..b]))
    ensures C.Sound(c, more)
  {
    forall b: nat, e: nat | C.Complete(c, more, b, e)
      ensures C.RunOf(c, more[..e]).value.state == c.encode(C.Meaning(c, more[..b]))
    {
      if e < |log| {
        C.CompleteWithin(c, log, more, b, e);
        assert C.Complete(c, log, b, e);
      }
    }
  }

  /** What follows the log's copy of `run[..from]` completes it to `run[..to]`. */
  lemma Spliced(log: seq<C.Record>, run: seq<C.Record>, at: nat, from: nat, to: nat)
    requires at + from == |log| && from <= to <= |run| && log[at..at + from] == run[..from]
    ensures var more := log + run[from..to]; at + to == |more| && more[at..at + to] == run[..to]
  {
    var more := log + run[from..to];
    assert |more| == at + to;
    forall k | 0 <= k < to
      ensures more[at + k] == run[k]
    {
      if k < from {
        assert log[at + k] == log[at..at + from][k];
      }
    }
  }

  /** Two adjoining stretches of the log that match the run match as one. */
  lemma Adjoined(log: seq<C.Record>, run: seq<C.Record>, at: nat, from: nat, to: nat)
    requires from <= to <= |run| && at + to <= |log|
    requires log[at..at + from] == run[..from] && log[at + from..at + to] == run[from..to]
    ensures log[at..at + to] == run[..to]
  {
    assert log[at..at + to] == log[at..at + from] + log[at + from..at + to];
    assert run[..to] == run[..from] + run[from..to];
  }

  /** A batch of a genuine run leaves the log sound. */
  lemma AcceptSound<S>(c: C.Codec<S>, log: seq<C.Record>, at: nat, chunk: nat, from: nat, to: nat)
    requires C.Sound(c, log) && PartOfRun(c, log, at, chunk, from, to) && at + from == |log|
    ensures C.Sound(c, log + RunAt(c, log, at, chunk)[from..to])
  {
    var run := RunAt(c, log, at, chunk);
    var more := log + run[from..to];
    Spliced(log, run, at, from, to);
    assert more[..at] == log[..at];
    forall b: nat, e: nat | C.Complete(c, more, b, e) && |log| <= e
      ensures C.RunOf(c, more[..e]).value.state == c.encode(C.Meaning(c, more[..b]))
    {
      var k := e - at;
      assert e == at + k;
      EndOfRun(c, more, at, c.encode(C.Meaning(c, log[..at])), chunk, to, b, k);
    }
    SoundGrows(c, log, more);
  }

  /** The one `End` of a run's records is its last. */
  lemma EndIsLast<S>(c: C.Codec<S>, at: nat, state: Value, chunk: nat, k: nat)
    requires k < |C.Run(c, at, state, chunk)| && C.Run(c, at, state, chunk)[k].End?
    ensures k == |C.Run(c, at, state, chunk)| - 1
  {
  }

  lemma MatchUpTo(more: seq<C.Record>, run: seq<C.Record>, at: nat, to: nat, k: nat)
    requires k < to <= |run| && at + to <= |more| && more[at..at + to] == run[..to]
    ensures more[at..at + k] == run[..k] && more[at + k] == run[k]
  {
    assert more[at..at + k] == more[at..at + to][..k];
    assert more[at + k] == more[at..at + to][k];
  }

  lemma EndOfRun<S>(c: C.Codec<S>, more: seq<C.Record>, at: nat, state: Value, chunk: nat, to: nat, b: nat, k: nat)
    requires to <= |C.Run(c, at, state, chunk)| && at + to == |more|
    requires more[at..at + to] == C.Run(c, at, state, chunk)[..to]
    requires C.Complete(c, more, b, at + k)
    ensures b == at && C.RunOf(c, more[..at + k]).value.state == state
  {
    MatchUpTo(more, C.Run(c, at, state, chunk), at, to, k);
    EndCollects(c, more, at, state, chunk, k);
  }

  /** The run collected at the `End` the log holds is the whole run. */
  lemma EndCollects<S>(c: C.Codec<S>, more: seq<C.Record>, at: nat, state: Value, chunk: nat, k: nat)
    requires k < |C.Run(c, at, state, chunk)| && at + k < |more| && more[at + k].End?
    requires more[at..at + k] == C.Run(c, at, state, chunk)[..k] && more[at + k] == C.Run(c, at, state, chunk)[k]
    ensures var r := C.RunOf(c, more[..at + k]); r.Some? && r.value.begin == at && r.value.state == state
  {
    EndIsLast(c, at, state, chunk, k);
    C.RunCommits(c, at, state, chunk);
    C.RunCollects(c, more, at, state, chunk, k);
  }

  lemma AppendSound<S>(c: C.Codec<S>, log: seq<C.Record>, r: C.Record)
    requires C.Sound(c, log) && !r.End?
    ensures C.Sound(c, log + [r])
  {
    SoundGrows(c, log, log + [r]);
  }

  // ---- Each step ----

  lemma OwnerKeeps<S>(c: C.Codec<S>, s: Sys<S>, id: nat, o: Owner<S>)
    requires Inv(c, s) && OwnerOk(c, s.log, o)
    ensures Inv(c, SetOwner(s, id, o))
  {
    var t := SetOwner(s, id, o);
    forall k | k in t.owners
      ensures OwnerOk(c, t.log, t.owners[k])
    {
      if k != id {
        assert OwnerOk(c, s.log, s.owners[k]);
      }
    }
  }

  lemma AcceptKeeps<S>(c: C.Codec<S>, s: Sys<S>, b: Batch)
    requires Inv(c, s) && Enabled(s, Accept(b))
    ensures Inv(c, Next(c, s, Accept(b)))
  {
    assert BatchOk(c, s.log, b);
    var at: nat, chunk: nat, from: nat, to: nat :|
      PartOfRun(c, s.log, at, chunk, from, to) && b == Batch(at + from, RunAt(c, s.log, at, chunk)[from..to]);
    AcceptSound(c, s.log, at, chunk, from, to);
    GrowKeeps(c, s, s.log + b.records);
  }

  lemma StartRunKeeps<S>(c: C.Codec<S>, s: Sys<S>, id: nat, chunk: nat)
    requires Inv(c, s) && Enabled(s, StartRun(id, chunk))
    ensures Inv(c, Next(c, s, StartRun(id, chunk)))
  {
    var f := s.owners[id].fold;
    assert OwnerOk(c, s.log, s.owners[id]);
    var run := RunAt(c, s.log, f.next, chunk);
    assert s.log[f.next..f.next + 0] == run[..0];
    assert PartOfRun(c, s.log, f.next, chunk, 0, |run|);
    OwnerKeeps(c, s, id, Owner(f, Writing(f.next, run, 0)));
  }

  lemma SendsPart<S>(c: C.Codec<S>, log: seq<C.Record>, o: Owner<S>, n: nat)
    requires PhaseOk(c, log, o) && o.phase.Writing? && o.phase.done + n <= |o.phase.records|
    ensures BatchOk(c, log, SentBy(o.phase, n))
  {
    var p := o.phase;
    var chunk: nat :| PartOfRun(c, log, p.at, chunk, p.done, |p.records|) && p.records == RunAt(c, log, p.at, chunk);
    assert PartOfRun(c, log, p.at, chunk, p.done, p.done + n);
  }

  lemma SentKeeps<S>(c: C.Codec<S>, s: Sys<S>, b: Batch)
    requires Inv(c, s) && BatchOk(c, s.log, b)
    ensures Inv(c, s.(sent := s.sent + {b}))
  {
    var t := s.(sent := s.sent + {b});
    forall id | id in t.owners
      ensures OwnerOk(c, t.log, t.owners[id])
    {
      assert OwnerOk(c, s.log, s.owners[id]);
    }
  }

  lemma SendKeeps<S>(c: C.Codec<S>, s: Sys<S>, id: nat, n: nat)
    requires Inv(c, s) && Enabled(s, Send(id, n))
    ensures Inv(c, Next(c, s, Send(id, n)))
  {
    assert BatchOk(c, s.log, SentBy(s.owners[id].phase, n)) by {
      assert OwnerOk(c, s.log, s.owners[id]);
      SendsPart(c, s.log, s.owners[id], n);
    }
    SentKeeps(c, s, SentBy(s.owners[id].phase, n));
  }

  lemma ConfirmFold<S(!new)>(c: C.Codec<S>, log: seq<C.Record>, f: C.Fold<S>, to: nat, records: seq<C.Record>)
    requires C.Lawful(c) && C.Sound(c, log) && C.FollowsLog(c, log, f)
    requires f.next <= to <= |log| && log[f.next..to] == records
    ensures C.FollowsLog(c, log, C.FoldAll(c, f, records)) && C.FoldAll(c, f, records).next == to
  {
    C.PageFollows(c, log, f, records);
  }

  lemma ConfirmPart<S>(c: C.Codec<S>, log: seq<C.Record>, at: nat, chunk: nat, from: nat, upTo: nat, run: seq<C.Record>)
    requires PartOfRun(c, log, at, chunk, from, |run|) && run == RunAt(c, log, at, chunk)
    requires from <= upTo <= |run| && at + upTo <= |log| && log[at + from..at + upTo] == run[from..upTo]
    ensures PartOfRun(c, log, at, chunk, upTo, |run|)
  {
    Adjoined(log, run, at, from, upTo);
  }

  /** A confirmed batch moves the owner along its run. */
  lemma ConfirmOwner<S(!new)>(c: C.Codec<S>, log: seq<C.Record>, o: Owner<S>, upTo: nat) returns (chunk: nat)
    requires C.Lawful(c) && C.Sound(c, log) && OwnerOk(c, log, o) && o.phase.Writing?
    requires o.phase.done <= upTo <= |o.phase.records| && o.phase.at + upTo <= |log|
    requires log[o.phase.at + o.phase.done..o.phase.at + upTo] == o.phase.records[o.phase.done..upTo]
    ensures PartOfRun(c, log, o.phase.at, chunk, upTo, |o.phase.records|)
    ensures o.phase.records == RunAt(c, log, o.phase.at, chunk)
  {
    var p := o.phase;
    chunk :| PartOfRun(c, log, p.at, chunk, p.done, |p.records|) && p.records == RunAt(c, log, p.at, chunk);
    ConfirmPart(c, log, p.at, chunk, p.done, upTo, p.records);
  }

  lemma PhaseFrom<S>(c: C.Codec<S>, log: seq<C.Record>, f: C.Fold<S>, p: Phase, chunk: nat)
    requires p.Writing? && f.next == p.at + p.done
    requires PartOfRun(c, log, p.at, chunk, p.done, |p.records|) && p.records == RunAt(c, log, p.at, chunk)
    ensures PhaseOk(c, log, Owner(f, p))
  {
  }

  lemma ConfirmedPhase<S(!new)>(c: C.Codec<S>, log: seq<C.Record>, o: Owner<S>, upTo: nat, f: C.Fold<S>)
    requires C.Lawful(c) && C.Sound(c, log) && OwnerOk(c, log, o) && o.phase.Writing?
    requires o.phase.done <= upTo <= |o.phase.records| && o.phase.at + upTo <= |log|
    requires log[o.phase.at + o.phase.done..o.phase.at + upTo] == o.phase.records[o.phase.done..upTo]
    requires f.next == o.phase.at + upTo
    ensures upTo < |o.phase.records| ==> PhaseOk(c, log, Owner(f, o.phase.(done := upTo)))
    ensures upTo == |o.phase.records| ==> C.CompleteFrom(c, log, o.phase.at)
  {
    var chunk := ConfirmOwner(c, log, o, upTo);
    if upTo == |o.phase.records| {
      WrittenComplete(c, log, o.phase.at, chunk);
    } else {
      PhaseFrom(c, log, f, o.phase.(done := upTo), chunk);
    }
  }

  lemma ConfirmedOk<S(!new)>(c: C.Codec<S>, log: seq<C.Record>, o: Owner<S>, upTo: nat)
    requires C.Lawful(c) && C.Sound(c, log) && OwnerOk(c, log, o) && o.phase.Writing?
    requires o.phase.done <= upTo <= |o.phase.records| && o.phase.at + upTo <= |log|
    requires log[o.phase.at + o.phase.done..o.phase.at + upTo] == o.phase.records[o.phase.done..upTo]
    ensures OwnerOk(c, log, Confirmed(c, o, upTo))
    ensures upTo == |o.phase.records| ==> C.CompleteFrom(c, log, o.phase.at)
  {
    var f := C.FoldAll(c, o.fold, o.phase.records[o.phase.done..upTo]);
    ConfirmFold(c, log, o.fold, o.phase.at + upTo, o.phase.records[o.phase.done..upTo]);
    ConfirmedPhase(c, log, o, upTo, f);
  }

  lemma WrittenKeeps<S>(c: C.Codec<S>, s: Sys<S>, at: nat)
    requires Inv(c, s) && C.CompleteFrom(c, s.log, at)
    ensures Inv(c, s.(written := s.written + {at}))
  {
    var t := s.(written := s.written + {at});
    forall id | id in t.owners
      ensures OwnerOk(c, t.log, t.owners[id])
    {
      assert OwnerOk(c, s.log, s.owners[id]);
    }
  }

  lemma ConfirmJoins<S>(c: C.Codec<S>, s: Sys<S>, id: nat, o: Owner<S>, done: bool, at: nat)
    requires Inv(c, s) && OwnerOk(c, s.log, o) && (done ==> C.CompleteFrom(c, s.log, at))
    ensures Inv(c, if done then SetOwner(s, id, o).(written := s.written + {at}) else SetOwner(s, id, o))
  {
    OwnerKeeps(c, s, id, o);
    if done {
      WrittenKeeps(c, SetOwner(s, id, o), at);
    }
  }

  lemma ConfirmKeeps<S(!new)>(c: C.Codec<S>, s: Sys<S>, id: nat, upTo: nat)
    requires C.Lawful(c) && Inv(c, s) && Enabled(s, Confirm(id, upTo))
    ensures Inv(c, Next(c, s, Confirm(id, upTo)))
  {
    var o := s.owners[id];
    assert OwnerOk(c, s.log, o);
    ConfirmedOk(c, s.log, o, upTo);
    ConfirmJoins(c, s, id, Confirmed(c, o, upTo), upTo == |o.phase.records|, o.phase.at);
  }

  /** A run the log holds to its `End` is a checkpoint. */
  lemma WrittenComplete<S>(c: C.Codec<S>, log: seq<C.Record>, at: nat, chunk: nat)
    requires at <= |log|
    requires PartOfRun(c, log, at, chunk, |RunAt(c, log, at, chunk)|, |RunAt(c, log, at, chunk)|)
    ensures C.CompleteFrom(c, log, at)
  {
    WholeRunEnds(c, log, at, c.encode(C.Meaning(c, log[..at])), chunk);
  }

  lemma WholeRunEnds<S>(c: C.Codec<S>, log: seq<C.Record>, at: nat, state: Value, chunk: nat)
    requires var n := |C.Run(c, at, state, chunk)|;
      at + n <= |log| && log[at..at + n] == C.Run(c, at, state, chunk)[..n]
    ensures C.CompleteFrom(c, log, at)
  {
    var run := C.Run(c, at, state, chunk);
    var n := |run| - 1;
    MatchUpTo(log, run, at, n + 1, n);
    C.RunCommits(c, at, state, chunk);
    C.RunCollects(c, log, at, state, chunk, n);
    assert C.Complete(c, log, at, at + n);
  }

  lemma PageJoins<S>(c: C.Codec<S>, s: Sys<S>, id: nat, f: C.Fold<S>)
    requires Inv(c, s) && C.FollowsLog(c, s.log, f)
    ensures Inv(c, SetOwner(s, id, Owner(f, Idle)))
  {
    OwnerKeeps(c, s, id, Owner(f, Idle));
  }

  lemma PageKeeps<S(!new)>(c: C.Codec<S>, s: Sys<S>, id: nat, page: seq<C.Record>)
    requires C.Lawful(c) && Inv(c, s) && Enabled(s, Page(id, page))
    ensures Inv(c, Next(c, s, Page(id, page)))
  {
    assert OwnerOk(c, s.log, s.owners[id]);
    C.PageFollows(c, s.log, s.owners[id].fold, page);
    PageJoins(c, s, id, C.FoldAll(c, s.owners[id].fold, page));
  }

  lemma JumpKeeps<S>(c: C.Codec<S>, s: Sys<S>, id: nat)
    requires Inv(c, s) && Enabled(s, Jump(id))
    ensures Inv(c, Next(c, s, Jump(id)))
  {
    assert OwnerOk(c, s.log, s.owners[id]);
    C.JumpFollows(c, s.log, s.owners[id].fold, s.floor);
    OwnerKeeps(c, s, id, Owner(C.Jumped(s.owners[id].fold, s.floor), Idle));
  }

  lemma AppendKeeps<S>(c: C.Codec<S>, s: Sys<S>, r: C.Record)
    requires Inv(c, s) && Enabled(s, Append(r))
    ensures Inv(c, Next(c, s, Append(r)))
  {
    AppendSound(c, s.log, r);
    GrowKeeps(c, s, s.log + [r]);
  }

  lemma NextKeeps<S(!new)>(c: C.Codec<S>, s: Sys<S>, ev: Event)
    requires C.Lawful(c) && Inv(c, s) && Enabled(s, ev)
    ensures Inv(c, Next(c, s, ev))
  {
    match ev
    case Append(r) => AppendKeeps(c, s, r);
    case Arrive(id) =>
      C.NewFollows(c, s.log);
      OwnerKeeps(c, s, id, Owner(C.NewFold(c), Idle));
    case Page(id, page) => PageKeeps(c, s, id, page);
    case Jump(id) => JumpKeeps(c, s, id);
    case StartRun(id, chunk) => StartRunKeeps(c, s, id, chunk);
    case Send(id, n) => SendKeeps(c, s, id, n);
    case Accept(b) => AcceptKeeps(c, s, b);
    case Confirm(id, upTo) => ConfirmKeeps(c, s, id, upTo);
    case Stop(id) =>
      assert OwnerOk(c, s.log, s.owners[id]);
      OwnerKeeps(c, s, id, s.owners[id].(phase := Idle));
    case Truncate(_) =>
  }

  // ---- Runs ----

  ghost predicate IsRun<S>(c: C.Codec<S>, s: Sys<S>, events: seq<Event>)
    decreases |events|
  {
    events == [] || (Enabled(s, events[0]) && IsRun(c, Next(c, s, events[0]), events[1..]))
  }

  ghost function Reached<S>(c: C.Codec<S>, s: Sys<S>, events: seq<Event>): Sys<S>
    requires IsRun(c, s, events)
    decreases |events|
  {
    if events == [] then s else Reached(c, Next(c, s, events[0]), events[1..])
  }

  lemma {:induction false} RunKeepsInv<S(!new)>(c: C.Codec<S>, s: Sys<S>, events: seq<Event>)
    requires C.Lawful(c) && Inv(c, s) && IsRun(c, s, events)
    ensures Inv(c, Reached(c, s, events))
    decreases |events|
  {
    if events != [] {
      NextKeeps(c, s, events[0]);
      RunKeepsInv(c, Next(c, s, events[0]), events[1..]);
    }
  }

  /**
    After any run, a new fold that reads from the floor is whole at the tail, with
    the state of every entry ever appended; and so is every owner's fold wherever
    it claims to be whole, racing truncations or not.
    */
  lemma MeaningSurvives<S(!new)>(c: C.Codec<S>, s: Sys<S>, events: seq<Event>)
    requires C.Lawful(c) && Init(s) && IsRun(c, s, events)
    ensures var t := Reached(c, s, events);
      && t.floor <= |t.log|
      && var f := C.FoldAll(c, C.Jumped(C.NewFold(c), t.floor), t.log[t.floor..]);
      && f.whole && f.next == |t.log| && f.state == C.Meaning(c, t.log)
    ensures var t := Reached(c, s, events);
      forall id :: id in t.owners && t.owners[id].fold.whole ==>
        var o := t.owners[id].fold;
        o.next <= |t.log| && o.state == C.Meaning(c, t.log[..o.next])
  {
    assert Inv(c, s) by {
      assert C.Sound(c, s.log);
    }
    RunKeepsInv(c, s, events);
    var t := Reached(c, s, events);
    C.LoadFromFloor(c, t.log, t.floor);
    forall id | id in t.owners && t.owners[id].fold.whole
      ensures t.owners[id].fold.next <= |t.log|
      ensures t.owners[id].fold.state == C.Meaning(c, t.log[..t.owners[id].fold.next])
    {
      assert OwnerOk(c, t.log, t.owners[id]);
    }
  }
}
