/**
  Settling a write whose answer never came, and claiming a journal: what one
  read of the journal proves about a write, for every past and every future.
  */
module Settle {
  import opened Common
  import opened Journal
  import W = Writer

  datatype Resolution =
    | Written(at: nat, count: nat)
    | NotWritten(view: View)
    | Gone(view: View)
    | Unresolved

  datatype ReadAnswer =
    | Page(from: nat, records: seq<Value>, view: View)
    | BelowFloor(view: View)
    | Unread

  /** What a re-send came back with, as far as the settlement looks at it. */
  datatype WriteAnswer =
    | Landed(at: nat, count: nat)
    | Refused(view: View)
    | Truncated(view: View)
    | WrongMode(view: View)
    | Denied
    | Moved
    | NoVerdict

  /** One attempt: the read-back, the re-send, and whether the pause ran its course. */
  datatype Attempt = Attempt(read: ReadAnswer, write: WriteAnswer, paused: bool)

  function ReadBack(request: Entry, back: ReadAnswer, ledFrom: Option<nat>): Option<Resolution> {
    if back.Unread? then None
    else if back.view.firstSeq > request.at then Some(Gone(back.view))
    else if back.view.nextSeq <= request.at && back.view.leader != Some(request.leader) then
      Some(NotWritten(back.view))
    else if
      && back.Page?
      && request.records != []
      && ledFrom.Some? && ledFrom.value <= request.at
      && back.from == request.at
      && back.view.nextSeq == request.End()
      && back.view.leader == Some(request.leader)
      && back.records == request.records
    then Some(Written(request.at, |request.records|))
    else None
  }

  function Resent(request: Entry, answer: WriteAnswer): Option<Resolution> {
    match answer
    case Landed(at, count) => Some(Written(at, count))
    case Truncated(view) => Some(Gone(view))
    case WrongMode(view) => Some(NotWritten(view))
    case Refused(view) =>
      if view.leader != Some(request.leader) || view.nextSeq > request.at then Some(NotWritten(view))
      else Some(Unresolved)
    case Denied => Some(Unresolved)
    case Moved => Some(Unresolved)
    case NoVerdict => None
  }

  /** The settlement of the attempts from `k` on. */
  function SettleFrom(request: Entry, ledFrom: Option<nat>, attempts: seq<Attempt>, k: nat): Resolution
    decreases |attempts| - k
  {
    if k >= |attempts| then Unresolved
    else
      var back := ReadBack(request, attempts[k].read, ledFrom);
      if back.Some? then back.value
      else
        var again := Resent(request, attempts[k].write);
        if again.Some? then again.value
        else if !attempts[k].paused then Unresolved
        else SettleFrom(request, ledFrom, attempts, k + 1)
  }

  /** The attempt gives an answer: its read-back does, or else its re-send. */
  predicate Answers(request: Entry, ledFrom: Option<nat>, a: Attempt) {
    ReadBack(request, a.read, ledFrom).Some? || Resent(request, a.write).Some?
  }

  /** The attempts before `k` gave no answer, and each pause after them ran its course. */
  ghost predicate Reaches(request: Entry, ledFrom: Option<nat>, attempts: seq<Attempt>, k: nat) {
    k <= |attempts| && forall i :: 0 <= i < k ==> !Answers(request, ledFrom, attempts[i]) && attempts[i].paused
  }

  /**
    The retry loop settles the write as the first attempt that answers does, by its
    read-back before its re-send, if no pause before it was cut short; by nothing else.
    */
  method Resolve(request: Entry, ledFrom: Option<nat>, budget: nat, attempts: seq<Attempt>)
    returns (resolution: Resolution, byReadBack: bool)
    requires |attempts| == Max(budget, 1)
    ensures resolution == SettleFrom(request, ledFrom, attempts, 0)
    ensures forall k ::
      (0 <= k < |attempts| && Reaches(request, ledFrom, attempts, k) && Answers(request, ledFrom, attempts[k])) ==>
      var back := ReadBack(request, attempts[k].read, ledFrom);
      && resolution == (if back.Some? then back.value else Resent(request, attempts[k].write).value)
      && (byReadBack <==> back.Some?)
    ensures (forall k :: 0 <= k < |attempts| && Reaches(request, ledFrom, attempts, k) ==>
               !Answers(request, ledFrom, attempts[k])) ==>
      resolution == Unresolved && !byReadBack
  {
    byReadBack := false;
    for attempt := 0 to Max(budget, 1)
      invariant SettleFrom(request, ledFrom, attempts, 0) == SettleFrom(request, ledFrom, attempts, attempt)
      invariant Reaches(request, ledFrom, attempts, attempt)
      invariant !byReadBack
    {
      var back := ReadBack(request, attempts[attempt].read, ledFrom);
      if back.Some? {
        return back.value, true;
      }
      var again := Resent(request, attempts[attempt].write);
      if again.Some? {
        return again.value, false;
      }
      if !attempts[attempt].paused {
        return Unresolved, false;
      }
    }
    resolution := Unresolved;
  }

  // ---- Honest answers ----

  /** `back` is what journal `j` answers to a read at `from` of at most `limit` records. */
  ghost predicate HonestRead(j: Journal, from: nat, limit: nat, back: ReadAnswer) {
    match back
    case Unread => true
    case BelowFloor(view) => view == ViewOf(j.state) && from < view.firstSeq
    case Page(at, records, view) =>
      && view == ViewOf(j.state) && at == from && view.firstSeq <= from
      && |records| <= limit
      && (records != [] ==> from + |records| <= |Content(j.held)|)
      && (records != [] ==> records == Content(j.held)[from..from + |records|])
  }

  /** `answer` is the verdict of the slot `j` gave the re-send, or no verdict. */
  ghost predicate HonestWrite(j: Journal, request: Entry, answer: WriteAnswer) {
    var judged := Apply(Single, j, Write(request)).1;
    match answer
    case Landed(at, count) => judged == Accepted(at, count) || judged == Duplicate(at, count)
    case Refused(view) => judged == Outcome.Refused(view)
    case Truncated(view) => judged == Outcome.Truncated(view)
    case WrongMode(view) => judged == Outcome.WrongMode(view)
    case _ => true
  }

  // ---- What a read-back proves ----

  /**
    The page alone: while `u` leads from `led_from` on, a page that matches shows
    the request's records, every one written under `u`.
    */
  lemma MatchingPage(j: Journal, request: Entry, back: ReadAnswer, from: nat)
    requires Valid(j) && HonestRead(j, request.at, Max(|request.records|, 1), back)
    requires LedSince(j, request.leader, from)
    requires ReadBack(request, back, Some(from)) == Some(Written(request.at, |request.records|))
    ensures request.End() == |Content(j.held)| && Content(j.held)[request.at..] == request.records
    ensures forall e :: e in j.held && e.Overlaps(request) ==> e.leader == request.leader
  {
    ContentLength(j.held, j.state.nextSeq);
    assert Content(j.held)[request.at..request.End()] == request.records;
  }

  /**
    A read-back that says `Written` is right: when no other write of the uuid
    shares the request's positions, the journal holds the request as one batch.
    */
  lemma ReadBackWritten(j: Journal, request: Entry, back: ReadAnswer, from: nat)
    requires Valid(j) && HonestRead(j, request.at, Max(|request.records|, 1), back)
    requires LedSince(j, request.leader, from)
    requires forall e :: e in j.held && e.leader == request.leader && e.Overlaps(request) ==> e == request
    requires ReadBack(request, back, Some(from)) == Some(Written(request.at, |request.records|))
    ensures request in j.held
  {
    MatchingPage(j, request, back, from);
    var i := TiledCovers(j.held, j.state.nextSeq, request.at);
    assert j.held[i].Overlaps(request);
  }

  /**
    The writer's range of shared positions is what makes that hold. A writer that
    opened two one-record writes, rolled back and opened both records as one write
    finds a page that matches; the journal holds no such write and refuses it. The
    writer gives that write no `led_from`, so its read-back proves nothing.
    */
  lemma SharedMatters(r: Value, q: Value)
    ensures var a, b, c := Entry(7, 0, [r]), Entry(7, 1, [q]), Entry(7, 0, [r, q]);
      var w := W.Writer(7, true, 0, Some(0), 0, None).Open(a).Open(b).Open(c);
      var j := Journal(State(Some(7), 1, 2, 0), [a, b], {7});
      var back := Page(0, [r, q], ViewOf(j.state));
      && Valid(j) && LedSince(j, 7, 0) && HonestRead(j, 0, 2, back)
      && ReadBack(c, back, Some(0)) == Some(Written(0, 2))
      && c !in j.held && Apply(Single, j, Write(c)).1.Refused?
      && w.LedFrom(c) == None && ReadBack(c, back, w.LedFrom(c)) == None
  {
    var a, b, c := Entry(7, 0, [r]), Entry(7, 1, [q]), Entry(7, 0, [r, q]);
    assert [a, b][..1] == [a] && [a][..0] == [];
    assert Content([a]) == Content([]) + a.records == [r];
    assert Content([a, b]) == Content([a]) + b.records == [r, q];
    assert Tiled([a], 1) && Tiled([a, b], 2);
    assert AcceptedAt([a], 0) == Some(a);
    assert AcceptedAt([a, b], 0) == Some(a);
  }

  /** A read-back that says `NotWritten` is right for good. */
  lemma ReadBackNotWritten(j: Journal, request: Entry, back: ReadAnswer, ledFrom: Option<nat>)
    requires Valid(j) && HonestRead(j, request.at, Max(|request.records|, 1), back)
    requires request.leader in j.led
    requires var r := ReadBack(request, back, ledFrom); r.Some? && r.value.NotWritten?
    ensures Dead(j, request)
  {
    NotHeldPastTail(j, request);
  }

  lemma NotHeldPastTail(j: Journal, e: Entry)
    requires Valid(j) && j.state.nextSeq <= e.at
    ensures e !in j.held
  {
    if e in j.held {
      var i :| 0 <= i < |j.held| && j.held[i] == e;
      TiledBelow(j.held, j.state.nextSeq, i);
    }
  }

  /** A refused re-send that settles a write settles it for good. */
  lemma ResentNotWritten(j: Journal, request: Entry, answer: WriteAnswer)
    requires Valid(j) && HonestWrite(j, request, answer)
    requires request.leader in j.led
    requires var r := Resent(request, answer); r.Some? && r.value.NotWritten?
    ensures Dead(j, request)
  {
    AcceptedAtIsHeld(j.held, j.state.nextSeq, request);
    if j.state.nextSeq <= request.at {
      NotHeldPastTail(j, request);
    }
  }

  /**
    What a re-send's answer settles: anything but silence ends the settlement. It stays
    unresolved exactly when the node turned the call away, or the journal still led by its
    uuid has not come to it yet.
    */
  lemma ResentWhen(request: Entry, answer: WriteAnswer)
    ensures var r := Resent(request, answer);
      var early := answer.Refused? && answer.view.leader == Some(request.leader) && answer.view.nextSeq <= request.at;
      && (r == None <==> answer.NoVerdict?)
      && (r == Some(Unresolved) <==> answer.Denied? || answer.Moved? || early)
      && (r.Some? && r.value.Gone? <==> answer.Truncated?)
      && (r.Some? && r.value.NotWritten? <==> answer.WrongMode? || (answer.Refused? && !early))
      && (r.Some? && (r.value.Gone? || r.value.NotWritten?) ==> r.value.view == answer.view)
      && (r.Some? && r.value.Written? ==> answer == Landed(r.value.at, r.value.count))
  {
  }

  lemma ResentWritten(j: Journal, request: Entry, answer: WriteAnswer)
    requires Valid(j) && HonestWrite(j, request, answer) && answer.Landed?
    ensures request in Apply(Single, j, Write(request)).0.held
    ensures answer == Landed(request.at, |request.records|)
  {
    AcceptedAtIsHeld(j.held, j.state.nextSeq, request);
    var j' := Apply(Single, j, Write(request)).0;
    if j'.held != j.held {
      assert j'.held[|j.held|] == request;
    }
  }

  // ---- The settlement, over a whole run ----

  /**
    Attempt `a` of a settlement over the run `cs` from `j`: its read saw the
    journal after some prefix, and its re-send's answer is a slot of the run.
    */
  ghost predicate HonestAttempt(j: Journal, cs: seq<Command>, request: Entry, a: Attempt) {
    && (exists m :: 0 <= m <= |cs| && ReadAt(j, cs, m, request, a.read))
    && (a.write.Landed? || a.write.Refused? || a.write.Truncated? || a.write.WrongMode? ==>
          exists m :: 0 <= m < |cs| && ResentAt(j, cs, m, request, a.write))
  }

  ghost predicate ReadAt(j: Journal, cs: seq<Command>, m: nat, request: Entry, back: ReadAnswer)
    requires m <= |cs|
  {
    HonestRead(After(j, cs[..m]), request.at, Max(|request.records|, 1), back)
  }

  ghost predicate ResentAt(j: Journal, cs: seq<Command>, m: nat, request: Entry, answer: WriteAnswer)
    requires m < |cs|
  {
    cs[m] == Write(request) && HonestWrite(After(j, cs[..m]), request, answer)
  }

  /** What a settlement claims of the journal `now`. */
  ghost predicate Right(now: Journal, request: Entry, r: Resolution) {
    && (r.Written? ==> r == Written(request.at, |request.records|) && request in now.held)
    && (r.NotWritten? ==> Dead(now, request))
  }

  /** The settlement's standing: `j` is when the write went out, `cs` what was decided since. */
  ghost predicate Asked(j: Journal, cs: seq<Command>, request: Entry, ledFrom: Option<nat>) {
    && Valid(j) && FreshRun(j, cs)
    && request.leader in j.led
    && (ledFrom.Some? ==> LedSince(j, request.leader, ledFrom.value))
    && (ledFrom.Some? ==> forall e ::
          e in After(j, cs).held && e.leader == request.leader && e.Overlaps(request) ==> e == request)
  }

  lemma Moment(j: Journal, cs: seq<Command>, m: nat)
    requires Valid(j) && FreshRun(j, cs) && m <= |cs|
    ensures var at := After(j, cs[..m]);
      && Valid(at) && FreshRun(j, cs[..m]) && FreshRun(at, cs[m..])
      && After(at, cs[m..]) == After(j, cs)
      && j.led <= at.led && at.held <= After(j, cs).held
  {
    assert cs == cs[..m] + cs[m..];
    AfterBoth(j, cs[..m], cs[m..]);
    RunKeeps(j, cs[..m]);
    RunKeeps(After(j, cs[..m]), cs[m..]);
  }

  lemma ReadIsRight(j: Journal, cs: seq<Command>, m: nat, request: Entry, back: ReadAnswer, ledFrom: Option<nat>)
    requires Asked(j, cs, request, ledFrom) && m <= |cs| && ReadAt(j, cs, m, request, back)
    requires ReadBack(request, back, ledFrom).Some?
    ensures Right(After(j, cs), request, ReadBack(request, back, ledFrom).value)
  {
    Moment(j, cs, m);
    var at := After(j, cs[..m]);
    var r := ReadBack(request, back, ledFrom).value;
    if r.Written? {
      LedSinceRun(j, cs[..m], request.leader, ledFrom.value);
      ReadBackWritten(at, request, back, ledFrom.value);
    } else if r.NotWritten? {
      ReadBackNotWritten(at, request, back, ledFrom);
      DeadForever(at, cs[m..], request);
    }
  }

  lemma ResendIsRight(j: Journal, cs: seq<Command>, m: nat, request: Entry, answer: WriteAnswer, ledFrom: Option<nat>)
    requires Asked(j, cs, request, ledFrom) && m < |cs| && ResentAt(j, cs, m, request, answer)
    requires Resent(request, answer).Some?
    ensures Right(After(j, cs), request, Resent(request, answer).value)
  {
    Moment(j, cs, m);
    Moment(j, cs, m + 1);
    var at := After(j, cs[..m]);
    var r := Resent(request, answer).value;
    if r.Written? {
      ResentWritten(at, request, answer);
      assert cs[..m + 1] == cs[..m] + [cs[m]];
      AfterBoth(j, cs[..m], [cs[m]]);
    } else if r.NotWritten? {
      ResentNotWritten(at, request, answer);
      DeadForever(at, cs[m..], request);
    }
  }

  /** Every settlement is right, whatever was decided meanwhile. */
  lemma {:induction false} SettleIsRight(j: Journal, cs: seq<Command>, request: Entry, ledFrom: Option<nat>,
                                         attempts: seq<Attempt>, k: nat)
    requires Asked(j, cs, request, ledFrom) && k <= |attempts|
    requires forall a :: a in attempts ==> HonestAttempt(j, cs, request, a)
    ensures Right(After(j, cs), request, SettleFrom(request, ledFrom, attempts, k))
    decreases |attempts| - k
  {
    if k < |attempts| {
      var a := attempts[k];
      assert HonestAttempt(j, cs, request, a);
      if ReadBack(request, a.read, ledFrom).Some? {
        var m :| 0 <= m <= |cs| && ReadAt(j, cs, m, request, a.read);
        ReadIsRight(j, cs, m, request, a.read, ledFrom);
      } else if a.write.Landed? || a.write.Refused? || a.write.Truncated? || a.write.WrongMode? {
        var m :| 0 <= m < |cs| && ResentAt(j, cs, m, request, a.write);
        ResendIsRight(j, cs, m, request, a.write, ledFrom);
      } else {
        SettleIsRight(j, cs, request, ledFrom, attempts, k + 1);
      }
    }
  }

  /** A write settled `Written` stays written: the journal answers it from its log. */
  lemma WrittenStays(now: Journal, more: seq<Command>, request: Entry, r: Resolution)
    requires Valid(now) && Right(now, request, r) && r.Written? && request.leader != 0
    ensures request in After(now, more).held
    ensures Apply(Single, After(now, more), Write(request)).1.Duplicate?
            || Apply(Single, After(now, more), Write(request)).1.Truncated?
  {
    HeldIsDuplicate(now, more, request);
  }

  /** `NotWritten` is final: no continuation ever holds the write. */
  lemma NotWrittenIsFinal(now: Journal, more: seq<Command>, request: Entry, r: Resolution)
    requires Valid(now) && Right(now, request, r) && r.NotWritten? && FreshRun(now, more)
    ensures request !in After(now, more).held
  {
    DeadForever(now, more, request);
  }

  // ---- Fresh uuids are exactly what finality needs ----

  /** Some command of the run made `u` win a term. */
  ghost predicate Reinstates(j: Journal, cs: seq<Command>, u: Uuid)
    decreases |cs|
  {
    cs != [] && (
      (cs[0].SetLeader? && cs[0].mint == u && Apply(Single, j, cs[0]).1.Leader?)
      || Reinstates(Apply(Single, j, cs[0]).0, cs[1..], u))
  }

  /** A fenced write lands only in a run that reinstates its uuid. */
  lemma {:induction false} LandsOnlyReinstated(j: Journal, cs: seq<Command>, request: Entry)
    requires Valid(j) && Dead(j, request) && !Reinstates(j, cs, request.leader)
    ensures request !in After(j, cs).held
    decreases |cs|
  {
    if cs != [] {
      var k := Apply(Single, j, cs[0]).0;
      ApplyKeepsValid(Single, j, cs[0]);
      ApplyMoves(Single, j, cs[0]);
      assert Dead(k, request);
      LandsOnlyReinstated(k, cs[1..], request);
    }
  }

  /** And reinstating it is enough: a delayed copy then lands, though settled `NotWritten`. */
  lemma ReinstatedLands(j: Journal, request: Entry) returns (cs: seq<Command>)
    requires Valid(j) && request.records != [] && request.leader != 0
    requires j.state.leader != Some(request.leader) && j.state.nextSeq <= request.at
    ensures cs != [] && cs[0] == SetLeader(request.leader, j.state.leader)
    ensures Reinstates(j, cs, request.leader) && request in After(j, cs).held
  {
    var c := SetLeader(request.leader, j.state.leader);
    var k := Apply(Single, j, c).0;
    var gap := request.at - j.state.nextSeq;
    var filler := Entry(request.leader, j.state.nextSeq, seq(gap, _ => []));
    var parts := if gap == 0 then [request] else [filler, request];
    WritesApart(k, parts);
    cs := [c] + Writes(parts);
    assert cs[1..] == Writes(parts);
    assert After(j, cs).held == j.held + parts;
    assert After(j, cs).held[|j.held| + |parts| - 1] == request;
  }

  // ---- Claims ----

  datatype ClaimMode = Fresh | Led | Over(judged: Option<Uuid>)

  datatype ClaimStep = Adopt(view: View) | Lose(view: View) | Ask(command: Command)

  /** What a claim of `uuid` does once it read `view`. */
  function ClaimAs(view: View, uuid: Uuid, mode: ClaimMode): ClaimStep {
    if view.leader == Some(uuid) then Adopt(view)
    else if mode.Led? || (mode.Over? && mode.judged != view.leader) then Lose(view)
    else Ask(SetLeader(uuid, view.leader))
  }

  /**
    What a claim does on reading `j`: it adopts the leadership its uuid has; one that may
    only confirm loses otherwise, and one over a judged leader loses to any other; else it
    asks, and is won if nothing moved, over the leader it read and no other.
    */
  lemma ClaimAsMeans(j: Journal, uuid: Uuid, mode: ClaimMode)
    requires Valid(j) && uuid != 0
    ensures var step := ClaimAs(ViewOf(j.state), uuid, mode); var leads := j.state.leader == Some(uuid);
      && (step.Adopt? <==> leads)
      && (step.Ask? <==> !leads && (mode == Fresh || mode == Over(j.state.leader)))
      && (step.Ask? ==>
            && Apply(Single, j, step.command).1.Leader?
            && Apply(Single, j, step.command).0.state.leader == Some(uuid)
            && forall k: Journal :: k.state.leader != j.state.leader ==>
                 Apply(Single, k, step.command).1.LeaderRefused?)
      && (!step.Ask? ==> step.view == ViewOf(j.state))
  {
  }

  lemma {:induction false} LedExactly(j: Journal, cs: seq<Command>, u: Uuid)
    ensures u in After(j, cs).led <==> u in j.led || Reinstates(j, cs, u)
    decreases |cs|
  {
    if cs != [] {
      LedExactly(Apply(Single, j, cs[0]).0, cs[1..], u);
    }
  }

  /**
    The promise is not the library's own to keep. A claim of uuid 7 whose answer
    was lost won, uuid 9 followed, and the claim asked again under 7 (the writer
    never learned it led) reads 9 and wins: 7 leads a second term. A write under 7
    that a read-back settled `NotWritten` in between lands after all; it is the write
    of a client that used the uuid without that writer, which sends none in this run.
    */
  lemma LostClaimLeadsTwice(record: Value)
    ensures var request := Entry(7, 0, [record]);
      var first := ClaimAs(ViewOf(EMPTY.state), 7, Fresh);
      && first == Ask(SetLeader(7, None))
      && var j := After(EMPTY, [first.command, SetLeader(9, Some(7))]);
      && ReadBack(request, Page(0, [], ViewOf(j.state)), Some(0)) == Some(NotWritten(ViewOf(j.state)))
      && var again := ClaimAs(ViewOf(j.state), 7, Fresh);
      && again.Ask? && Apply(Single, j, again.command).1.Leader? && !FreshStep(j, again.command)
      && request in After(j, [again.command, Write(request)]).held
  {
    var a, b := SetLeader(7, None), SetLeader(9, Some(7));
    var one := Apply(Single, EMPTY, a).0;
    var j := Apply(Single, one, b).0;
    assert [a, b][1..] == [b] && [b][1..] == [];
    assert After(EMPTY, [a, b]) == After(one, [b]) == After(j, []) == j;
    var request := Entry(7, 0, [record]);
    var cs := [SetLeader(7, Some(9)), Write(request)];
    var back := Apply(Single, j, cs[0]).0;
    var end := Apply(Single, back, cs[1]).0;
    assert cs[1..] == [cs[1]] && cs[1..][1..] == [];
    assert After(j, cs) == After(back, cs[1..]) == After(end, []) == end;
    assert end.held[0] == request;
  }

  // ---- What a read-back finds ----

  /** All that the journal holds of the request's range. */
  function FullPage(j: Journal, request: Entry): ReadAnswer {
    var all := Content(j.held);
    Page(request.at, if request.at < |all| then all[request.at..Min(request.End(), |all|)] else [], ViewOf(j.state))
  }

  /**
    A full page settles every request it can: `Written` exactly when the uuid still
    leads and the journal ends with the request's records at its position, and
    `NotWritten` exactly when another leader's journal did not reach it.
    */
  lemma FullPageSettles(j: Journal, request: Entry, from: nat)
    requires Valid(j) && request.records != [] && j.state.firstSeq <= request.at
    ensures HonestRead(j, request.at, |request.records|, FullPage(j, request))
    ensures var r := ReadBack(request, FullPage(j, request), Some(from)); var all := Content(j.held);
      && (r == Some(Written(request.at, |request.records|)) <==>
            && from <= request.at <= |all| && j.state.leader == Some(request.leader)
            && all[request.at..] == request.records)
      && (r.Some? && r.value.NotWritten? <==> |all| <= request.at && j.state.leader != Some(request.leader))
      && !(r.Some? && r.value.Gone?)
  {
    ContentLength(j.held, j.state.nextSeq);
    var all := Content(j.held);
    if request.at <= |all| == request.End() {
      assert all[request.at..|all|] == all[request.at..];
    }
  }
}
