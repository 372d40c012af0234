/**
  The owner that checkpoints its journal: it cuts a run into batches, writes them
  one after the other, folding each as it is written, and loads the journal from
  the floor. The journal's answers are a parameter: any answer may come at any time.
  */
module CheckpointOwner {
  import opened Common
  import opened Checkpoint
  import W = Writer

  // ---- Batches ----

  function Sizes<S>(c: Codec<S>, records: seq<Record>): nat {
    if records == [] then 0 else Sizes(c, records[..|records| - 1]) + c.size(records[|records| - 1])
  }

  /** `n` records may go in one batch. */
  predicate Fits<S>(c: Codec<S>, records: seq<Record>, n: nat, maxRecords: nat, maxBytes: nat)
    requires n <= |records|
  {
    n <= Max(maxRecords, 1) && (n <= 1 || Sizes(c, records[..n]) <= maxBytes)
  }

  /** How many records the next batch takes: one at least, then as many as fit. */
  function BatchLen<S>(c: Codec<S>, records: seq<Record>, maxRecords: nat, maxBytes: nat, n: nat): (k: nat)
    requires 1 <= n <= |records| && Fits(c, records, n, maxRecords, maxBytes)
    ensures n <= k <= |records| && Fits(c, records, k, maxRecords, maxBytes)
    ensures k < |records| ==> !Fits(c, records, k + 1, maxRecords, maxBytes)
    decreases |records| - n
  {
    if n < |records| && Fits(c, records, n + 1, maxRecords, maxBytes)
    then BatchLen(c, records, maxRecords, maxBytes, n + 1) else n
  }

  lemma {:induction false} SizesGrow<S>(c: Codec<S>, records: seq<Record>, a: nat, b: nat)
    requires a <= b <= |records|
    ensures Sizes(c, records[..a]) <= Sizes(c, records[..b])
    decreases b
  {
    if a < b {
      assert records[..b][..b - 1] == records[..b - 1];
      SizesGrow(c, records, a, b - 1);
    }
  }

  /** Any number of records that fits is at most the batch's. */
  lemma BatchIsLongest<S>(c: Codec<S>, records: seq<Record>, maxRecords: nat, maxBytes: nat, n: nat)
    requires 1 <= n <= |records| && Fits(c, records, n, maxRecords, maxBytes)
    ensures n <= BatchLen(c, records, maxRecords, maxBytes, 1)
  {
    var k := BatchLen(c, records, maxRecords, maxBytes, 1);
    if k < n {
      SizesGrow(c, records, k + 1, n);
    }
  }

  method NextBatch<S>(c: Codec<S>, records: seq<Record>, maxRecords: nat, maxBytes: nat) returns (taken: nat)
    requires records != []
    ensures taken == BatchLen(c, records, maxRecords, maxBytes, 1)
  {
    var bytes: nat := 0;
    taken := 0;
    while taken < Min(|records|, Max(maxRecords, 1))
      invariant taken <= Min(|records|, Max(maxRecords, 1))
      invariant bytes == Sizes(c, records[..taken]) && Fits(c, records, taken, maxRecords, maxBytes)
    {
      if taken > 0 && bytes + c.size(records[taken]) > maxBytes {
        assert records[..taken + 1][..taken] == records[..taken];
        assert !Fits(c, records, taken + 1, maxRecords, maxBytes);
        break;
      }
      assert records[..taken + 1][..taken] == records[..taken];
      bytes := bytes + c.size(records[taken]);
      taken := taken + 1;
    }
    BatchIsLongest(c, records, maxRecords, maxBytes, taken);
    StopsThere(c, records, maxRecords, maxBytes, taken);
  }

  /** A batch no shorter under lower limits is one those limits allow. */
  lemma BatchWithin<S>(c: Codec<S>, records: seq<Record>, maxRecords: nat, maxBytes: nat, n: nat, b: nat)
    requires records != []
    requires BatchLen(c, records, maxRecords, maxBytes, 1)
          <= BatchLen(c, records, Min(maxRecords, n), Min(maxBytes, b), 1)
    ensures BatchLen(c, records, maxRecords, maxBytes, 1) <= BatchLen(c, records, n, b, 1)
  {
    var k := BatchLen(c, records, Min(maxRecords, n), Min(maxBytes, b), 1);
    assert Fits(c, records, k, n, b);
    BatchIsLongest(c, records, n, b, k);
  }

  lemma StopsThere<S>(c: Codec<S>, records: seq<Record>, maxRecords: nat, maxBytes: nat, n: nat)
    requires 1 <= n <= |records| && (n < |records| ==> !Fits(c, records, n + 1, maxRecords, maxBytes))
    ensures BatchLen(c, records, maxRecords, maxBytes, 1) <= n
  {
    var k := BatchLen(c, records, maxRecords, maxBytes, 1);
    if n < k {
      SizesGrow(c, records, n + 1, k);
    }
  }

  // ---- An owner's own run folds as a run ----

  /** The fold `f`, whole at `f.next`, after the first `k` records of its own run. */
  function Midway<S>(c: Codec<S>, f: Fold<S>, chunk: nat, k: nat): Fold<S>
    requires k <= |OwnRun(c, f, chunk)|
  {
    if k == 0 then f
    else if k < |OwnRun(c, f, chunk)| then
      f.(next := f.next + k, run := Some(Collected(c, f.next, c.encode(f.state), chunk, k)))
    else f.(next := f.next + k, run := None, sinceEntries := 0, sinceBytes := 0)
  }

  function OwnRun<S>(c: Codec<S>, f: Fold<S>, chunk: nat): seq<Record> {
    Run(c, f.next, c.encode(f.state), chunk)
  }

  /** Record `k` of its own run takes the fold one further: collected, or at the `End` verified equal. */
  lemma OwnRunStep<S>(c: Codec<S>, f: Fold<S>, chunk: nat, k: nat)
    requires f.whole && k < |OwnRun(c, f, chunk)|
    ensures var run := OwnRun(c, f, chunk);
      Taken(c, Midway(c, f, chunk, k), f.next + k, run[k]) ==
        (Midway(c, f, chunk, k + 1), if k + 1 < |run| then InRun else Checkpointed(f.next, Some(true)))
  {
    var pieces := Pieces(c.encode(f.state), Max(chunk, 1));
    if 0 < k && k + 1 < |OwnRun(c, f, chunk)| {
      assert pieces[..k][..k - 1] == pieces[..k - 1];
    }
    RunCommits(c, f.next, c.encode(f.state), chunk);
  }

  lemma {:induction false} OwnRunFolds<S>(c: Codec<S>, f: Fold<S>, chunk: nat, k: nat)
    requires f.whole && k <= |OwnRun(c, f, chunk)|
    ensures FoldAll(c, f, OwnRun(c, f, chunk)[..k]) == Midway(c, f, chunk, k)
    decreases k
  {
    var run := OwnRun(c, f, chunk);
    if k > 0 {
      OwnRunFolds(c, f, chunk, k - 1);
      assert run[..k] == run[..k - 1] + [run[k - 1]];
      FoldAllBoth(c, f, run[..k - 1], [run[k - 1]]);
      OwnRunStep(c, f, chunk, k - 1);
    }
  }

  // ---- The owner ----

  datatype Policy = Policy(chunkBytes: nat, batchRecords: nat, batchBytes: nat)

  /** The answer to a write, and what a refusal left of the writer. */
  datatype Answer = Answer(outcome: W.Outcome, after: W.Writer)

  datatype Written = Written(at: nat, records: seq<Record>)

  /** What one turn of the write loop did. */
  datatype Turned = Advance(to: nat) | Lower(maxRecords: nat, maxBytes: nat) | Fail(outcome: W.Outcome)

  datatype Result = Done(at: nat) | NotFolded | NotWritten(outcome: W.Outcome)

  function Flat(batches: seq<Written>): seq<Record> {
    if batches == [] then [] else Flat(batches[..|batches| - 1]) + batches[|batches| - 1].records
  }

  /** The batches lie one after the other from `at`, none empty. */
  ghost predicate OneAfterOther(batches: seq<Written>, at: nat) {
    forall k :: 0 <= k < |batches| ==> batches[k].records != [] && batches[k].at == at + |Flat(batches[..k])|
  }

  lemma FlatGrows(batches: seq<Written>, at: nat, b: Written)
    requires OneAfterOther(batches, at) && b.records != [] && b.at == at + |Flat(batches)|
    ensures OneAfterOther(batches + [b], at) && Flat(batches + [b]) == Flat(batches) + b.records
  {
    var more := batches + [b];
    assert more[..|batches|] == batches;
    forall k | 0 <= k < |more|
      ensures more[k].records != [] && more[k].at == at + |Flat(more[..k])|
    {
      if k < |batches| {
        assert more[..k] == batches[..k];
      }
    }
  }

  /** The batches are the first `at` records of the run that starts at `start`. */
  ghost predicate Wrote(batches: seq<Written>, start: nat, records: seq<Record>, at: nat) {
    at <= |records| && Flat(batches) == records[..at] && OneAfterOther(batches, start)
  }

  lemma Batched(batches: seq<Written>, start: nat, records: seq<Record>, at: nat, to: nat) returns (more: seq<Written>)
    requires Wrote(batches, start, records, at) && at < to <= |records|
    ensures Wrote(more, start, records, to)
    ensures more == batches + [Written(start + at, records[at..to])]
  {
    more := batches + [Written(start + at, records[at..to])];
    FlatGrows(batches, start, Written(start + at, records[at..to]));
    assert records[..to] == records[..at] + records[at..to];
  }

  class Checkpointer<S(!new)> {
    var writer: W.Writer
    const folder: Folder<S>
    const policy: Policy

    constructor (c: Codec<S>, w: W.Writer, p: Policy)
      ensures folder.Valid() && fresh(folder) && folder.codec == c && folder.View() == NewFold(c)
      ensures writer == w && policy == p
    {
      var f := new Folder(c);
      folder := f;
      writer, policy := w, p;
    }

    /** A position exactly when the owner stands at record 0 of its own run, as `WriteRun` asks: that one. */
    method RunStart() returns (start: Option<nat>)
      ensures start.Some? <==> folder.whole && Standing(0, folder.View())
      ensures start.Some? ==> start.value == folder.next
      ensures start.Some? ==> OwnRun(folder.codec, folder.View(), policy.chunkBytes)[0] == Begin(start.value)
    {
      if !folder.whole || folder.next != writer.nextSeq {
        return None;
      }
      return Some(writer.nextSeq);
    }

    /** One write of `batch` at the writer's next position. */
    method Write(batch: seq<Record>, a: Answer) returns (outcome: W.Outcome)
      modifies this`writer
      ensures outcome == a.outcome
      ensures outcome.Written? ==> writer == old(writer).AdvanceTo(outcome.at + outcome.count)
      ensures outcome.TooLarge? ==> writer == old(writer)
    {
      outcome := a.outcome;
      if outcome.Written? {
        writer := writer.AdvanceTo(outcome.at + outcome.count);
      } else if !outcome.TooLarge? {
        writer := a.after;
      }
    }

    /** Fold the batch just written: records `at` on of the owner's own run. */
    method FoldBatch(records: seq<Record>, at: nat, take: nat, ghost f: Fold<S>)
      requires folder.Valid() && f.whole && at + take <= |records|
      requires records <= OwnRun(folder.codec, f, policy.chunkBytes)
      requires folder.View() == Midway(folder.codec, f, policy.chunkBytes, at)
      modifies folder
      ensures folder.Valid() && folder.View() == Midway(folder.codec, f, policy.chunkBytes, at + take)
    {
      for i := 0 to take
        invariant folder.Valid() && folder.View() == Midway(folder.codec, f, policy.chunkBytes, at + i)
      {
        FoldOne(records[at + i], at + i, f);
      }
    }

    /** Fold record `k` of the owner's own run. */
    method FoldOne(record: Record, k: nat, ghost f: Fold<S>)
      requires folder.Valid() && f.whole && k < |OwnRun(folder.codec, f, policy.chunkBytes)|
      requires record == OwnRun(folder.codec, f, policy.chunkBytes)[k]
      requires folder.View() == Midway(folder.codec, f, policy.chunkBytes, k)
      modifies folder
      ensures folder.Valid() && folder.View() == Midway(folder.codec, f, policy.chunkBytes, k + 1)
    {
      OwnRunStep(folder.codec, f, policy.chunkBytes, k);
      var folded := folder.Take(folder.next, record);
      assert folded.InRun? || folded.Checkpointed?;
    }

    /** Write the next `take` records of the run and, once they are written there, fold them. */
    method WriteBatch(records: seq<Record>, at: nat, take: nat, a: Answer, ghost f: Fold<S>)
      returns (o: W.Outcome, landed: bool)
      requires folder.Valid() && Standing(at, f) && at + take <= |records|
      requires f.whole && records <= OwnRun(folder.codec, f, policy.chunkBytes)
      modifies this`writer, folder
      ensures folder.Valid() && o == a.outcome
      ensures landed <==> o.Written? && o.at == f.next + at && o.count == take
      ensures landed ==> Standing(at + take, f)
      ensures !landed ==> folder.View() == old(folder.View())
      ensures o.TooLarge? ==> writer == old(writer)
    {
      var expected := writer.nextSeq;
      assert folder.next == expected;
      o := Write(records[at..at + take], a);
      landed := o.Written? && o.at == expected && o.count == take;
      if landed {
        FoldBatch(records, at, take, f);
      }
    }

    /** The owner wrote and folded the first `at` records of its run; fold and writer agree on the next position. */
    ghost predicate Standing(at: nat, f: Fold<S>)
      reads this, folder
    {
      && at <= |OwnRun(folder.codec, f, policy.chunkBytes)|
      && folder.View() == Midway(folder.codec, f, policy.chunkBytes, at)
      && folder.next == writer.nextSeq == f.next + at
    }

    /** A node's limits make the next batch strictly shorter. */
    ghost predicate Shorter(rest: seq<Record>, maxRecords: nat, maxBytes: nat, o: W.Outcome)
      requires rest != [] && o.TooLarge?
    {
      BatchLen(folder.codec, rest, Min(maxRecords, o.maxRecords), Min(maxBytes, o.maxBytes), 1)
      < BatchLen(folder.codec, rest, maxRecords, maxBytes, 1)
    }

    /** One turn of the loop: a batch goes on, the limits are lowered, or the run stops. */
    method Turn(records: seq<Record>, at: nat, maxRecords: nat, maxBytes: nat, a: Answer, ghost f: Fold<S>)
      returns (turn: Turned)
      requires folder.Valid() && Standing(at, f) && at < |records|
      requires f.whole && records <= OwnRun(folder.codec, f, policy.chunkBytes)
      modifies this`writer, folder
      ensures folder.Valid()
      ensures turn.Advance? ==> at < turn.to <= |records| && Standing(turn.to, f)
      ensures turn.Lower? ==> Standing(at, f)
      ensures turn.Lower? ==>
        BatchLen(folder.codec, records[at..], turn.maxRecords, turn.maxBytes, 1)
        < BatchLen(folder.codec, records[at..], maxRecords, maxBytes, 1)
      ensures turn.Fail? ==> folder.View() == old(folder.View()) && turn.outcome == a.outcome
      ensures var take := BatchLen(folder.codec, records[at..], maxRecords, maxBytes, 1);
        turn.Advance? <==> a.outcome.Written? && a.outcome.at == f.next + at && a.outcome.count == take
      ensures turn.Advance? ==> turn.to == at + BatchLen(folder.codec, records[at..], maxRecords, maxBytes, 1)
      ensures turn.Lower? <==> a.outcome.TooLarge? && Shorter(records[at..], maxRecords, maxBytes, a.outcome)
      ensures turn.Lower? ==>
        turn.maxRecords == Min(maxRecords, a.outcome.maxRecords) && turn.maxBytes == Min(maxBytes, a.outcome.maxBytes)
    {
      var rest := records[at..];
      var take := NextBatch(folder.codec, rest, maxRecords, maxBytes);
      var o, landed := WriteBatch(records, at, take, a, f);
      if landed {
        return Advance(at + take);
      }
      if !o.TooLarge? {
        return Fail(o);
      }
      var lowered: nat, loweredBytes: nat := Min(maxRecords, o.maxRecords), Min(maxBytes, o.maxBytes);
      var smaller := NextBatch(folder.codec, rest, lowered, loweredBytes);
      turn := if smaller >= take then Fail(o) else Lower(lowered, loweredBytes);
    }

    /**
      Write `records`, the owner's own run or a prefix of it, in batches. The
      batches written concatenate to the records written, one after the other from
      the run's start; the fold stands where the writer does before every write.
      */
    method WriteRun(records: seq<Record>, answer: nat -> Answer)
      returns (outcome: Option<W.Outcome>, ghost batches: seq<Written>, ghost refused: nat)
      requires folder.Valid() && folder.whole && folder.next == writer.nextSeq
      requires records <= OwnRun(folder.codec, folder.View(), policy.chunkBytes)
      modifies this`writer, folder
      ensures folder.Valid()
      ensures Flat(batches) <= records && OneAfterOther(batches, old(folder.next))
      ensures folder.View() == Midway(folder.codec, old(folder.View()), policy.chunkBytes, |Flat(batches)|)
      ensures outcome == None ==> Flat(batches) == records && writer.nextSeq == folder.next
      ensures outcome.Some? ==> exists k: nat :: answer(k).outcome == outcome.value
      ensures outcome.Some? ==> |Flat(batches)| < |records|
      ensures outcome.Some? ==>
        var o := outcome.value; !(o.Written? && o.at == old(folder.next) + |Flat(batches)| && o.count == refused)
      ensures outcome.Some? && outcome.value.TooLarge? ==>
        var o, rest := outcome.value, records[|Flat(batches)|..];
        1 <= refused <= BatchLen(folder.codec, rest, o.maxRecords, o.maxBytes, 1)
    {
      refused := 0;
      ghost var f := folder.View();
      var maxRecords: nat, maxBytes: nat := Max(policy.batchRecords, 1), Max(policy.batchBytes, 1);
      var at: nat := 0;
      var asked: nat := 0;
      batches := [];
      while at < |records|
        invariant folder.Valid() && Standing(at, f)
        invariant Wrote(batches, f.next, records, at)
        decreases |records| - at,
          if at < |records| then BatchLen(folder.codec, records[at..], maxRecords, maxBytes, 1) else 0
      {
        var turn := Turn(records, at, maxRecords, maxBytes, answer(asked), f);
        asked := asked + 1;
        match turn {
          case Fail(o) =>
            refused := BatchLen(folder.codec, records[at..], maxRecords, maxBytes, 1);
            if o.TooLarge? {
              BatchWithin(folder.codec, records[at..], maxRecords, maxBytes, o.maxRecords, o.maxBytes);
            }
            return Some(o), batches, refused;
          case Lower(lowered, loweredBytes) => maxRecords, maxBytes := lowered, loweredBytes;
          case Advance(to) =>
            batches := Batched(batches, f.next, records, at, to);
            at := to;
        }
      }
      assert records[..|records|] == records;
      outcome := None;
    }

    /** Refused unless fold and writer agree; `Done` only once every record of the owner's run is in the journal. */
    method WriteCheckpoint(answer: nat -> Answer) returns (r: Result, ghost batches: seq<Written>)
      requires folder.Valid()
      modifies this`writer, folder
      ensures folder.Valid()
      ensures r.NotFolded? <==> !(old(folder.whole) && old(folder.next) == old(writer.nextSeq))
      ensures r.NotFolded? ==> batches == [] && folder.View() == old(folder.View()) && writer == old(writer)
      ensures r.Done? ==>
        && r.at == old(folder.next) && OneAfterOther(batches, r.at)
        && Flat(batches) == OwnRun(folder.codec, old(folder.View()), policy.chunkBytes)
        && writer.nextSeq == folder.next == r.at + |Flat(batches)|
        && folder.run == None && folder.whole && folder.state == old(folder.state)
      ensures r.NotWritten? ==>
        (exists k: nat :: answer(k).outcome == r.outcome)
        && Flat(batches) <= OwnRun(folder.codec, old(folder.View()), policy.chunkBytes)
        && folder.whole && folder.state == old(folder.state)
    {
      batches := [];
      var start := RunStart();
      if start == None {
        return NotFolded, [];
      }
      var records := Run(folder.codec, start.value, folder.codec.encode(folder.state), policy.chunkBytes);
      var o;
      ghost var refused;
      o, batches, refused := WriteRun(records, answer);
      r := if o == None then Done(start.value) else NotWritten(o.value);
    }

    /** The fold takes the entry exactly when it landed where the fold stands; a checkpoint's record is not sent. */
    method Append(record: Record, a: Answer) returns (outcome: Option<W.Outcome>)
      requires folder.Valid()
      modifies this`writer, folder
      ensures folder.Valid() && outcome == if record.Entry? then Some(a.outcome) else None
      ensures record.Entry? && a.outcome.Written? ==> writer == old(writer).AdvanceTo(a.outcome.at + a.outcome.count)
      ensures folder.View() ==
        if record.Entry? && a.outcome.Written? && a.outcome.at == old(folder.next)
        then Taken(folder.codec, old(folder.View()), old(folder.next), record).0 else old(folder.View())
    {
      if !record.Entry? {
        return None;
      }
      var o := Write([record], a);
      if o.Written? && o.at == folder.next {
        var folded := folder.Take(o.at, record);
      }
      outcome := Some(o);
    }

    /** Why a load falls short: a read not served, a journal that outgrew the reads, one that ends below the writer. */
    ghost predicate Short(answer: (nat, nat) -> PageAnswer, budget: nat, moments: seq<Moment>, last: nat, from: nat)
      requires last <= budget < |moments|
      reads this
    {
      || (exists k: nat, p: nat :: k + 1 == last && answer(k, p).Unread?)
      || (last == budget && from + budget <= |moments[budget].log|)
      || |moments[last].log| < writer.nextSeq
    }

    /** Read the journal on, to the writer's next position at least; whether the fold reached it. */
    method Catch(answer: (nat, nat) -> PageAnswer, budget: nat, ghost moments: seq<Moment>)
      returns (ok: bool, ghost last: nat)
      requires Loadable(folder, answer, budget, moments)
      modifies folder
      ensures last <= budget && folder.Valid() && FollowsLog(folder.codec, moments[last].log, folder.View())
      ensures ok ==>
        && folder.whole && writer.nextSeq <= folder.next == |moments[last].log|
        && folder.state == Meaning(folder.codec, moments[last].log)
      ensures !ok ==> Short(answer, budget, moments, last, old(folder.next))
    {
      var r;
      ghost var at;
      r, last, at := Load(folder, writer.nextSeq, answer, budget, moments);
      ok := r.Loaded? && r.upTo >= writer.nextSeq;
    }

    /**
      Claim the journal and fold it. Open is the owner only that won or already led, and
      whose fold has the state of the whole journal at a moment, at or past the position
      its writer goes on at.
      */
    method Open(claim: W.Claim, mint: nat, answer: (nat, nat) -> PageAnswer, budget: nat, ghost moments: seq<Moment>)
      returns (ok: bool, ghost last: nat)
      requires Loadable(folder, answer, budget, moments)
      modifies this`writer, folder
      ensures writer == old(writer).Claimed(claim, mint)
      ensures last <= budget && folder.Valid() && FollowsLog(folder.codec, moments[last].log, folder.View())
      ensures ok ==>
        && (claim.Won? || claim.Owned?)
        && folder.whole && writer.nextSeq <= folder.next == |moments[last].log|
        && folder.state == Meaning(folder.codec, moments[last].log)
      ensures !ok && (claim.Won? || claim.Owned?) ==> Short(answer, budget, moments, last, old(folder.next))
    {
      writer := writer.Claimed(claim, mint);
      if !claim.Won? && !claim.Owned? {
        return false, 0;
      }
      ok, last := Catch(answer, budget, moments);
    }

    /**
      Append an entry and make sure of it: on success it is written, and the fold, which
      stays on the journal, has gone past it and past all the writer knows of.
      */
    method AppendFolded(record: Record, a: Answer, answer: (nat, nat) -> PageAnswer, budget: nat,
      ghost moments: seq<Moment>)
      returns (ok: bool, ghost last: nat)
      requires Loadable(folder, answer, budget, moments)
      requires record.Entry? && a.outcome.Written? ==>
        a.outcome.at < |moments[0].log| && moments[0].log[a.outcome.at] == record && a.outcome.count == 1
      modifies this`writer, folder
      ensures last <= budget && folder.Valid() && FollowsLog(folder.codec, moments[last].log, folder.View())
      ensures ok ==> record.Entry? && a.outcome.Written? && a.outcome.at < writer.nextSeq <= folder.next
      ensures !ok && record.Entry? && a.outcome.Written? ==>
        exists from: nat :: old(folder.next) <= from && Short(answer, budget, moments, last, from)
    {
      StepFollowsAt(folder.codec, moments[0].log, folder.View(), record);
      var outcome := Append(record, a);
      last := 0;
      if outcome == None || !outcome.value.Written? {
        return false, 0;
      }
      ok := true;
      if folder.next < writer.nextSeq {
        ok, last := Catch(answer, budget, moments);
      }
    }
  }

  /** A record the log holds at the fold's position keeps the fold on it. */
  lemma StepFollowsAt<S(!new)>(c: Codec<S>, log: seq<Record>, f: Fold<S>, record: Record)
    requires Lawful(c) && Sound(c, log) && FollowsLog(c, log, f)
    ensures f.next < |log| && log[f.next] == record ==> FollowsLog(c, log, Taken(c, f, f.next, record).0)
  {
    if f.next < |log| {
      StepFollows(c, log, f);
    }
  }

  // ---- Loading ----

  datatype PageAnswer =
    | Records(from: nat, records: seq<Record>, nextSeq: nat)
    | Gap(resumedAt: nat)
    | Unread

  datatype LoadOutcome =
    | Loaded(upTo: nat, restarted: bool, diverged: Option<nat>)
    | Unavailable
    | Unhealed(at: nat)

  /** The journal at the moment of an answer: what it holds, and its floor. */
  datatype Moment = Moment(log: seq<Record>, floor: nat)

  /** Sound moments of one journal, in order: it only grows, its floor always a checkpoint's `Begin`. */
  ghost predicate History<S>(c: Codec<S>, moments: seq<Moment>) {
    && (forall k :: 0 <= k < |moments| ==>
          Sound(c, moments[k].log) && (moments[k].floor == 0 || CompleteFrom(c, moments[k].log, moments[k].floor)))
    && (forall k :: 0 < k < |moments| ==> moments[k - 1].log <= moments[k].log)
  }

  /** The journal's answer to a read at `cursor`. */
  ghost predicate Honest(m: Moment, cursor: nat, a: PageAnswer) {
    match a
    case Records(from, records, nextSeq) =>
      && from == cursor && m.floor <= cursor && nextSeq == |m.log|
      && from + |records| <= |m.log| && records == m.log[from..from + |records|]
      && (records == [] ==> from == |m.log|)
    case Gap(resumedAt) => resumedAt == m.floor && cursor < m.floor
    case Unread => true
  }

  /** The answers to a load of `folder` come from one journal, whose log the fold is on. */
  ghost predicate Loadable<S(!new)>(folder: Folder<S>, answer: (nat, nat) -> PageAnswer, budget: nat,
    moments: seq<Moment>)
    reads folder
  {
    && Lawful(folder.codec) && folder.Valid()
    && |moments| == budget + 1 && History(folder.codec, moments)
    && FollowsLog(folder.codec, moments[0].log, folder.View())
    && (forall k: nat, p: nat :: k < budget ==> Honest(moments[k + 1], p, answer(k, p)))
  }

  /** One of the reads, made at the positions `at`, was answered with a gap. */
  ghost predicate Restarts(answer: (nat, nat) -> PageAnswer, at: seq<nat>) {
    at != [] && (answer(|at| - 1, at[|at| - 1]).Gap? || Restarts(answer, at[..|at| - 1]))
  }

  lemma RestartsGrow(answer: (nat, nat) -> PageAnswer, at: seq<nat>, p: nat)
    ensures Restarts(answer, at + [p]) <==> answer(|at|, p).Gap? || Restarts(answer, at)
  {
    assert (at + [p])[..|at|] == at;
  }

  /**
    Whatever the answers, the fold stays on the log of the moment it last read; `Loaded`
    means it has the meaning of that whole log. `answer(k, p)` answers read `k`, made at `p`.
    Every answer takes the fold on, so the answers run out only on a journal that outgrows
    them.
    */
  method Load<S(!new)>(folder: Folder<S>, tail: nat, answer: (nat, nat) -> PageAnswer, budget: nat,
    ghost moments: seq<Moment>)
    returns (r: LoadOutcome, ghost last: nat, ghost at: seq<nat>)
    requires Loadable(folder, answer, budget, moments)
    modifies folder
    ensures |at| == last && (last > 0 ==> at[0] == old(folder.next))
    ensures r.Loaded? ==> (r.restarted <==> Restarts(answer, at))
    ensures last <= budget && folder.Valid() && FollowsLog(folder.codec, moments[last].log, folder.View())
    ensures !r.Unhealed?
    ensures r.Loaded? ==>
      && r.upTo == folder.next == |moments[last].log| && r.diverged == None
      && folder.whole && folder.state == Meaning(folder.codec, moments[last].log)
    ensures r.Unavailable? ==>
      || (last > 0 && answer(last - 1, at[last - 1]).Unread?)
      || (last == budget && old(folder.next) + budget <= folder.next <= |moments[budget].log|)
  {
    var restarted := false;
    var diverged: Option<nat> := None;
    last, at := 0, [];
    for k := 0 to budget
      invariant folder.Valid() && last == k == |at| && diverged == None
      invariant k > 0 ==> at[0] == old(folder.next)
      invariant k == 0 ==> folder.next == old(folder.next)
      invariant restarted <==> Restarts(answer, at)
      invariant FollowsLog(folder.codec, moments[last].log, folder.View())
      invariant old(folder.next) + k <= folder.next
    {
      RestartsGrow(answer, at, folder.next);
      last, at := k + 1, at + [folder.next];
      FollowsGrows(folder.codec, moments[k].log, moments[k + 1].log, folder.View());
      var a := answer(k, folder.next);
      assert Honest(moments[k + 1], folder.next, a);
      if a.Unread? {
        return Unavailable, k + 1, at;
      }
      var ended;
      ended, diverged := TakeAnswer(folder, a, tail, moments[k + 1]);
      restarted := restarted || a.Gap?;
      if ended {
        var upTo := folder.next;
        return if !folder.whole then Unhealed(upTo) else Loaded(upTo, restarted, diverged), k + 1, at;
      }
    }
    r := Unavailable;
  }

  /** Take one answer to a read: jump over a gap, or fold the page; whether the load ends with it. */
  method TakeAnswer<S(!new)>(folder: Folder<S>, a: PageAnswer, tail: nat, ghost m: Moment)
    returns (ended: bool, diverged: Option<nat>)
    requires Lawful(folder.codec) && folder.Valid() && Sound(folder.codec, m.log)
    requires m.floor == 0 || CompleteFrom(folder.codec, m.log, m.floor)
    requires FollowsLog(folder.codec, m.log, folder.View()) && Honest(m, folder.next, a) && !a.Unread?
    modifies folder
    ensures folder.Valid() && FollowsLog(folder.codec, m.log, folder.View()) && diverged == None
    ensures ended <==> a.Records? && (a.records == [] || folder.next >= Max(a.nextSeq, tail))
    ensures if ended
      then folder.whole && folder.next == |m.log| && folder.state == Meaning(folder.codec, m.log)
      else old(folder.next) < folder.next
  {
    ended, diverged := false, None;
    match a {
      case Gap(resumedAt) =>
        JumpFollows(folder.codec, m.log, folder.View(), resumedAt);
        folder.Jump(resumedAt);
      case Records(from, records, nextSeq) =>
        diverged := FoldPage(folder, from, records, m.log);
        ended := records == [] || folder.next >= Max(nextSeq, tail);
        if ended {
          WholeAtTail(folder.codec, m.log, folder.View());
        }
    }
  }

  method FoldPage<S(!new)>(folder: Folder<S>, from: nat, records: seq<Record>, ghost log: seq<Record>)
    returns (diverged: Option<nat>)
    requires Lawful(folder.codec) && folder.Valid() && Sound(folder.codec, log)
    requires FollowsLog(folder.codec, log, folder.View()) && from == folder.next
    requires PageAt(log, from, records)
    modifies folder
    ensures folder.Valid() && FollowsLog(folder.codec, log, folder.View())
    ensures folder.next == from + |records| && diverged == None
  {
    diverged := None;
    for i := 0 to |records|
      invariant folder.Valid() && FollowsLog(folder.codec, log, folder.View())
      invariant folder.next == from + i && diverged == None
    {
      StepFollows(folder.codec, log, folder.View());
      assert records[i] == log[from + i];
      var folded := folder.Take(from + i, records[i]);
      var unequal := folded.Checkpointed? && folded.verified == Some(false);
      var at: nat := from + i;
      diverged := if diverged == None && unequal then Some(at) else diverged;
    }
  }
}
