/**
  A reader's cursor over any answers of a server: which positions it delivered,
  which it reported as gone, and which it never mentioned.
  */
module Reader {
  import opened Common
  import J = Journal

  datatype ReadOutcome =
    | Page(from: nat, records: seq<Value>, state: J.View)
    | Truncated(state: J.View)
    | UnknownJournal
    | Denied
    | Moved
    | Unserved

  datatype ReaderOutcome =
    | Records(from: nat, records: seq<Value>, state: J.View)
    | Gap(from: nat, resumedAt: nat, state: J.View)
    | Unknown
    | Refused
    | Elsewhere
    | Unavailable

  class Reader {
    var cursor: nat

    constructor (start: nat)
      ensures cursor == start
    {
      cursor := start;
    }

    /** What the answer makes of the cursor and tells the caller; no answer takes it back. */
    method Absorb(o: ReadOutcome) returns (r: ReaderOutcome)
      modifies this
      ensures cursor == MovedTo(old(cursor), o) >= old(cursor)
      ensures r == Told(old(cursor), o)
      ensures (r.Records? <==> o.Page?) && (r.Gap? <==> o.Truncated?) && (r.Unknown? <==> o.UnknownJournal?)
      ensures (r.Refused? <==> o.Denied?) && (r.Elsewhere? <==> o.Moved?) && (r.Unavailable? <==> o.Unserved?)
      ensures r.Records? ==> r.from == o.from && r.records == o.records && r.state == o.state
      ensures r.Gap? ==> r.from == old(cursor) && r.resumedAt == cursor && r.state == o.state
    {
      match o {
        case Page(from, records, state) =>
          cursor := Max(cursor, from + |records|);
          r := Records(from, records, state);
        case Truncated(state) =>
          var from := cursor;
          cursor := Max(cursor, state.firstSeq);
          r := Gap(from, cursor, state);
        case UnknownJournal => r := Unknown;
        case Denied => r := Refused;
        case Moved => r := Elsewhere;
        case Unserved => r := Unavailable;
      }
    }
  }

  function MovedTo(cursor: nat, o: ReadOutcome): nat {
    match o
    case Page(from, records, _) => Max(cursor, from + |records|)
    case Truncated(state) => Max(cursor, state.firstSeq)
    case _ => cursor
  }

  function Told(cursor: nat, o: ReadOutcome): ReaderOutcome {
    match o
    case Page(from, records, state) => Records(from, records, state)
    case Truncated(state) => Gap(cursor, Max(cursor, state.firstSeq), state)
    case UnknownJournal => Unknown
    case Denied => Refused
    case Moved => Elsewhere
    case Unserved => Unavailable
  }

  /** The positions an outcome accounts for: delivered, or reported gone. */
  datatype Span = Span(from: nat, to: nat)

  function SpanOf(r: ReaderOutcome): Option<Span> {
    match r
    case Records(from, records, _) => if records == [] then None else Some(Span(from, from + |records|))
    case Gap(from, resumedAt, _) => if from == resumedAt then None else Some(Span(from, resumedAt))
    case _ => None
  }

  /** The cursor after the answers, and what it accounted for. */
  function CursorAfter(start: nat, answers: seq<ReadOutcome>): nat {
    if answers == [] then start
    else MovedTo(CursorAfter(start, answers[..|answers| - 1]), answers[|answers| - 1])
  }

  function Spans(start: nat, answers: seq<ReadOutcome>): seq<Span> {
    if answers == [] then []
    else
      var n := |answers| - 1;
      var span := SpanOf(Told(CursorAfter(start, answers[..n]), answers[n]));
      Spans(start, answers[..n]) + (if span.Some? then [span.value] else [])
  }

  /** The spans lie one after the other from `from` to `to`: each position in one of them, none in two. */
  ghost predicate Partition(spans: seq<Span>, from: nat, to: nat) {
    if spans == [] then from == to
    else
      var last := spans[|spans| - 1];
      last.from < last.to == to && Partition(spans[..|spans| - 1], from, last.from)
  }

  /** A page that starts where the cursor asked; one with no records may start below it. */
  predicate InStep(cursor: nat, o: ReadOutcome) {
    o.Page? ==> o.from == cursor || (o.records == [] && o.from < cursor)
  }

  ghost predicate AllInStep(start: nat, answers: seq<ReadOutcome>) {
    forall k :: 0 <= k < |answers| ==> InStep(CursorAfter(start, answers[..k]), answers[k])
  }

  /** At every moment of the run, delivered records and reported gaps partition what lies below the cursor. */
  ghost predicate NothingLost(start: nat, answers: seq<ReadOutcome>) {
    forall k :: 0 <= k <= |answers| ==> PartitionAt(start, answers, k)
  }

  /** Where the first `k` answers left the reader. */
  ghost predicate PartitionAt(start: nat, answers: seq<ReadOutcome>, k: nat)
    requires k <= |answers|
  {
    Partition(Spans(start, answers[..k]), start, CursorAfter(start, answers[..k]))
  }

  lemma SpansStep(start: nat, answers: seq<ReadOutcome>, k: nat)
    requires k < |answers|
    ensures var cursor := CursorAfter(start, answers[..k]); var span := SpanOf(Told(cursor, answers[k]));
      && CursorAfter(start, answers[..k + 1]) == MovedTo(cursor, answers[k])
      && Spans(start, answers[..k + 1]) == Spans(start, answers[..k]) + (if span.Some? then [span.value] else [])
  {
    assert answers[..k + 1][..k] == answers[..k];
  }

  /** One answer keeps a partition exactly when it is in step. */
  lemma AnswerPartitions(spans: seq<Span>, start: nat, cursor: nat, o: ReadOutcome)
    requires Partition(spans, start, cursor)
    ensures var span := SpanOf(Told(cursor, o));
      Partition(spans + (if span.Some? then [span.value] else []), start, MovedTo(cursor, o)) <==> InStep(cursor, o)
  {
    var span := SpanOf(Told(cursor, o));
    if span.Some? {
      var more := spans + [span.value];
      assert more[..|more| - 1] == spans;
      if Partition(more, start, MovedTo(cursor, o)) {
        OneEnd(spans, start, span.value.from, cursor);
      }
    } else {
      assert spans + [] == spans;
      if Partition(spans, start, MovedTo(cursor, o)) {
        OneEnd(spans, start, MovedTo(cursor, o), cursor);
      }
    }
  }

  lemma StepPartitions(start: nat, answers: seq<ReadOutcome>, k: nat)
    requires k < |answers| && PartitionAt(start, answers, k)
    ensures PartitionAt(start, answers, k + 1) <==> InStep(CursorAfter(start, answers[..k]), answers[k])
  {
    SpansStep(start, answers, k);
    AnswerPartitions(Spans(start, answers[..k]), start, CursorAfter(start, answers[..k]), answers[k]);
  }

  lemma OneEnd(spans: seq<Span>, from: nat, a: nat, b: nat)
    requires Partition(spans, from, a) && Partition(spans, from, b)
    ensures a == b
  {
  }

  /**
    Nothing is delivered twice and nothing is skipped silently, at any moment of a
    run, if and only if every page starts where the reader asked.
    */
  lemma NothingLostIff(start: nat, answers: seq<ReadOutcome>)
    ensures NothingLost(start, answers) <==> AllInStep(start, answers)
  {
    if NothingLost(start, answers) {
      forall k | 0 <= k < |answers|
        ensures InStep(CursorAfter(start, answers[..k]), answers[k])
      {
        assert PartitionAt(start, answers, k) && PartitionAt(start, answers, k + 1);
        StepPartitions(start, answers, k);
      }
    }
    if AllInStep(start, answers) {
      PartitionUpTo(start, answers, |answers|);
    }
  }

  lemma {:induction false} PartitionUpTo(start: nat, answers: seq<ReadOutcome>, n: nat)
    requires AllInStep(start, answers) && n <= |answers|
    ensures forall k :: 0 <= k <= n ==> PartitionAt(start, answers, k)
    decreases n
  {
    if n == 0 {
      assert answers[..0] == [];
    } else {
      PartitionUpTo(start, answers, n - 1);
      StepPartitions(start, answers, n - 1);
    }
  }

  /** Every position of a partition lies in exactly one span. */
  lemma {:induction false} PartitionCovers(spans: seq<Span>, from: nat, to: nat, p: nat)
    requires Partition(spans, from, to)
    ensures from <= to
    ensures from <= p < to <==> exists k :: 0 <= k < |spans| && spans[k].from <= p < spans[k].to
    ensures forall i, k ::
      (0 <= i < |spans| && 0 <= k < |spans| && spans[i].from <= p < spans[i].to && spans[k].from <= p < spans[k].to)
      ==> i == k
    decreases |spans|
  {
    if spans != [] {
      var n := |spans| - 1;
      var rest := spans[..n];
      PartitionCovers(rest, from, spans[n].from, p);
      assert forall k :: 0 <= k < n ==> rest[k] == spans[k];
      if from <= p < spans[n].from {
        var k :| 0 <= k < n && rest[k].from <= p < rest[k].to;
        assert spans[k].from <= p < spans[k].to;
      }
    }
  }

  /** One page of a server that skips ahead: five positions are neither delivered nor reported. */
  lemma SkippedSilently(record: Value, state: J.View)
    ensures var answers := [Page(5, [record], state)];
      && CursorAfter(0, answers) == 6 && Spans(0, answers) == [Span(5, 6)]
      && !NothingLost(0, answers)
  {
    var answers := [Page(5, [record], state)];
    assert answers[..0] == [];
    assert CursorAfter(0, answers[..0]) == 0;
    assert !InStep(CursorAfter(0, answers[..0]), answers[0]);
    NothingLostIff(0, answers);
    assert !AllInStep(0, answers);
  }
}
