/**
  The specification of the pipeline, on values. A flight maps each ticket to its
  write; each function is one operation of the source's `Lanes`, and the class in
  Pipeline.dfy is proved against it.
  */
module Lanes {
  import opened Common
  import opened Journal
  import W = Writer

  const MERGE_RECORDS: nat := 256
  const MERGE_BYTES: nat := 256 * 1024

  /** Where a write's send stands. */
  datatype Stage = Opened | Ready | Sending | Carried(lead: nat)

  datatype InFlight = InFlight(
    id: nat,
    entry: Entry,
    early: Option<View>,
    stage: Stage,
    alone: bool,
    carries: seq<nat>,
    dropped: bool)

  type Flight = map<nat, InFlight>

  datatype Lanes = Lanes(
    writer: W.Writer,
    ahead: nat,
    broken: bool,
    nextId: nat,
    flight: Flight,
    done: map<nat, W.Outcome>)

  datatype Admission = At(at: nat) | NotOwner | Drain

  datatype Folded = Done(outcome: W.Outcome) | Early | Apart

  datatype Resumed = Send(entry: Entry) | Wait | Finished(outcome: W.Outcome)

  // ---- Pure reads ----

  function ViewIn(o: W.Outcome): Option<View> {
    match o
    case Superseded(v) => Some(v)
    case Refused(v) => Some(v)
    case Truncated(v) => Some(v)
    case WrongMode(v) => Some(v)
    case NotWritten(v) => Some(v)
    case _ => None
  }

  /** A written outcome, narrowed to the range of `e`; any other as it is. */
  function PartOf(o: W.Outcome, e: Entry): W.Outcome {
    if o.Written? then W.Written(e.at, |e.records|, o.duplicate, o.resolved) else o
  }

  function Bytes(records: seq<Value>): nat {
    if records == [] then 0 else Bytes(records[..|records| - 1]) + |records[|records| - 1]|
  }

  function Admit(l: Lanes): Admission {
    if l.writer.Owner() == None then NotOwner else if l.broken then Drain else At(l.ahead)
  }

  /** The records of the writes `ids`, in turn. */
  function Gather(f: Flight, ids: seq<nat>): seq<Value>
    requires forall m :: m in ids ==> m in f
  {
    if ids == [] then []
    else Gather(f, ids[..|ids| - 1]) + f[ids[|ids| - 1]].entry.records
  }

  ghost predicate InHand(l: Lanes, id: nat) {
    id in l.flight && forall m :: m in l.flight[id].carries ==> m in l.flight
  }

  /** `id`'s entry with the records of its carried writes appended, in order. */
  function SentEntry(l: Lanes, id: nat): Entry
    requires InHand(l, id)
  {
    var w := l.flight[id];
    w.entry.(records := w.entry.records + Gather(l.flight, w.carries))
  }

  /** The tickets that one send of `id` settles. */
  function Group(l: Lanes, id: nat): set<nat>
    requires id in l.flight
  {
    {id} + set m | m in l.flight[id].carries
  }

  // ---- The operations ----

  function New(writer: W.Writer): Lanes { Lanes(writer, writer.nextSeq, false, 0, map[], map[]) }

  function OpenedEntry(l: Lanes, records: seq<Value>): Entry { Entry(l.writer.mine, l.ahead, records) }

  function Open(l: Lanes, records: seq<Value>): Lanes {
    var e := OpenedEntry(l, records);
    l.(writer := l.writer.Open(e),
       ahead := e.End(),
       nextId := l.nextId + 1,
       flight := l.flight[l.nextId := InFlight(l.nextId, e, None, Opened, false, [], false)])
  }

  /** An empty flight starts over: at the known tail, unbroken. */
  function Drained(l: Lanes): Lanes {
    if l.flight == map[] then l.(ahead := l.writer.nextSeq, broken := false) else l
  }

  function Forward(l: Lanes, next: nat): Lanes {
    var w := l.writer.AdvanceTo(next);
    l.(writer := w, ahead := Max(l.ahead, w.nextSeq))
  }

  function Observe(l: Lanes, leader: Uuid, view: View, mint: Uuid): Lanes {
    if l.writer.Owner() != Some(leader) then l
    else if view.leader == Some(leader) then Forward(l, view.nextSeq)
    else l.(writer := l.writer.Learn(view, mint))
  }

  function Break(l: Lanes, when: bool): Lanes { if when then l.(broken := true) else l }

  function Verdicts(l: Lanes, id: nat, o: W.Outcome): map<nat, W.Outcome>
    requires InHand(l, id)
  {
    map m | m in l.flight[id].carries && !l.flight[m].dropped :: PartOf(o, l.flight[m].entry)
  }

  function Settle(l: Lanes, id: nat, o: W.Outcome): Lanes
    requires InHand(l, id)
  {
    Drained(l.(flight := l.flight - Group(l, id), done := l.done + Verdicts(l, id, o)))
  }

  function TakenApart(l: Lanes, id: nat, k: nat): InFlight
    requires id in l.flight && k in l.flight
  {
    if k == id then l.flight[id].(carries := [], alone := true)
    else if k in l.flight[id].carries then l.flight[k].(stage := Ready, alone := true)
    else l.flight[k]
  }

  function TakeApart(l: Lanes, id: nat): Lanes
    requires InHand(l, id)
  {
    var gone := set m | m in l.flight[id].carries && l.flight[m].dropped && m != id;
    Break(l, gone != {} && l.writer.Owner() == Some(l.flight[id].entry.leader))
    .(flight := map k | k in l.flight && k !in gone :: TakenApart(l, id, k))
  }

  function Fold(l: Lanes, id: nat, o: W.Outcome, mint: Uuid): (Lanes, Folded)
    requires InHand(l, id)
  {
    var w := l.flight[id];
    var leader := w.entry.leader;
    var current := l.writer.Owner() == Some(leader);
    var seen := if ViewIn(o).Some? then Observe(l, leader, ViewIn(o).value, mint) else l;
    if o.TooLarge? && w.carries != [] then (TakeApart(seen, id), Apart)
    else if o.Written? then (Settle(Forward(seen, o.at + o.count), id, o), Done(PartOf(o, w.entry)))
    else if
      && o.Refused? && current && seen.writer.Owner() == Some(leader)
      && o.view.leader == Some(leader) && o.view.nextSeq < w.entry.at
    then (seen.(flight := l.flight[id := w.(early := Some(o.view))]), Early)
    else (Settle(Break(seen, current), id, o), Done(PartOf(o, w.entry)))
  }

  predicate AheadOfIt(f: Flight, id: nat)
    requires id in f
  {
    exists k | k in f :: f[k].entry.leader == f[id].entry.leader && f[k].entry.at < f[id].entry.at
  }

  function Resume(l: Lanes, id: nat): (Lanes, Resumed)
    requires InHand(l, id) && l.flight[id].early.Some?
  {
    var w := l.flight[id];
    var current := l.writer.Owner() == Some(w.entry.leader);
    if AheadOfIt(l.flight, id) then (l, Wait)
    else if current && l.writer.nextSeq >= w.entry.at then
      (l.(flight := l.flight[id := w.(early := None)]), Send(SentEntry(l, id)))
    else
      var o := W.Refused(w.early.value);
      (Settle(Break(l, current), id, o), Finished(PartOf(o, w.entry)))
  }

  function Abandon(l: Lanes, id: nat): Lanes
    requires id in l.flight ==> InHand(l, id)
  {
    if id !in l.flight then l
    else
      var w := l.flight[id];
      if w.stage.Carried? then l.(flight := l.flight[id := w.(dropped := true)])
      else Settle(Break(l, l.writer.Owner() == Some(w.entry.leader)), id, W.Ambiguous)
  }

  function Start(l: Lanes, id: nat): Lanes
    requires id in l.flight
  {
    l.(flight := l.flight[id := l.flight[id].(stage := Ready)])
  }

  /** `id` leads a write that takes the writes `c` with it. */
  function Lead(l: Lanes, id: nat, c: seq<nat>): Lanes
    requires id in l.flight
  {
    l.(flight := map k | k in l.flight ::
      if k == id then l.flight[id].(stage := Sending, carries := c)
      else if k in c then l.flight[k].(stage := Carried(id))
      else l.flight[k])
  }

  function BeginClaim(l: Lanes, anew: bool, mint: Uuid): Lanes {
    if anew then l.(writer := l.writer.BeginTerm(mint)) else l
  }

  function ClaimView(claim: W.Claim): Option<View> {
    match claim
    case Won(v) => Some(v)
    case Lost(v) => Some(v)
    case Owned(v) => Some(v)
    case Unclaimed => None
  }

  function Claimed(l: Lanes, uuid: Uuid, claim: W.Claim, mint: Uuid): Lanes {
    if l.writer.mine != uuid then l
    else if l.writer.Owner() == Some(uuid) then
      if ClaimView(claim).Some? then Observe(l, uuid, ClaimView(claim).value, mint) else l
    else
      var w := l.writer.Claimed(claim, mint);
      if w.Owner() == Some(uuid) then l.(writer := w, ahead := w.nextSeq, broken := false)
      else l.(writer := w)
  }

  // ---- The invariant ----

  /** The writes `ids` lie one after the other from `from` to `to`, under `leader`, none empty. */
  ghost predicate Chained(f: Flight, leader: Uuid, from: nat, ids: seq<nat>, to: nat) {
    if ids == [] then from == to
    else
      var m := ids[|ids| - 1];
      && m in f && f[m].entry.leader == leader && f[m].entry.records != []
      && f[m].entry.End() == to
      && Chained(f, leader, from, ids[..|ids| - 1], f[m].entry.at)
  }

  /** Where the writes `ids` end, one after the other from `from`. */
  ghost function ChainEnd(f: Flight, from: nat, ids: seq<nat>): nat
    requires forall m :: m in ids ==> m in f
  {
    if ids == [] then from else f[ids[|ids| - 1]].entry.End()
  }

  ghost predicate Rides(f: Flight, k: nat)
    requires k in f
  {
    f[k].stage.Carried? ==>
      f[k].stage.lead in f && f[f[k].stage.lead].stage == Sending && k in f[f[k].stage.lead].carries
  }

  ghost predicate Carries(f: Flight, k: nat)
    requires k in f
  {
    var w := f[k];
    && (forall m :: m in w.carries ==> m in f && f[m].stage == Carried(k))
    && (w.carries != [] ==> w.stage == Sending && !w.alone && w.entry.records != [])
    && Chained(f, w.entry.leader, w.entry.End(), w.carries, ChainEnd(f, w.entry.End(), w.carries))
  }

  ghost predicate Flags(w: InFlight) {
    && (w.alone ==> !w.stage.Carried?)
    && (w.dropped ==> w.stage.Carried?)
    && (w.early.Some? ==> w.stage == Sending && w.early.value.leader == Some(w.entry.leader)
                          && w.early.value.nextSeq < w.entry.at)
  }

  /** While the writer leads, its writes end at or below the next position; an unspent uuid has none. */
  ghost predicate Placed(l: Lanes, e: Entry) {
    e.leader == l.writer.mine ==> l.writer.leads && e.End() <= l.ahead
  }

  ghost predicate Good(l: Lanes, k: nat)
    requires k in l.flight
  {
    && l.flight[k].id == k && k < l.nextId
    && Rides(l.flight, k) && Carries(l.flight, k) && Flags(l.flight[k]) && Placed(l, l.flight[k].entry)
  }

  ghost predicate Apartness(a: Entry, b: Entry) {
    a.leader == b.leader ==> a.End() <= b.at || b.End() <= a.at
  }

  /** Writes in flight under one uuid never share a position. */
  ghost predicate Disjoint(f: Flight) {
    forall a, b {:trigger Apartness(f[a].entry, f[b].entry)} ::
      a in f && b in f && a != b ==> Apartness(f[a].entry, f[b].entry)
  }

  ghost predicate AllGood(l: Lanes) {
    forall k {:trigger Good(l, k)} :: k in l.flight ==> Good(l, k)
  }

  ghost predicate Scalars(l: Lanes) {
    && (l.broken ==> l.flight != map[])
    && l.writer.nextSeq <= l.ahead
    && l.done.Keys !! l.flight.Keys
    && (forall k :: k in l.done ==> k < l.nextId)
  }

  ghost predicate Inv(l: Lanes) {
    AllGood(l) && Disjoint(l.flight) && Scalars(l)
  }

  /** The uuid of the writer's next term: no write in flight is under it. */
  ghost predicate Unspent(l: Lanes, mint: Uuid) {
    mint != l.writer.mine && forall k :: k in l.flight ==> l.flight[k].entry.leader != mint
  }

  // ---- Every operation keeps it ----

  lemma InHandOf(l: Lanes, id: nat)
    requires Inv(l) && id in l.flight
    ensures InHand(l, id)
  {
    assert Good(l, id);
  }

  lemma {:induction false} ChainedFrame(f: Flight, g: Flight, leader: Uuid, from: nat, ids: seq<nat>, to: nat)
    requires Chained(f, leader, from, ids, to)
    requires forall m :: m in ids && m in f ==> m in g && g[m].entry == f[m].entry
    ensures Chained(g, leader, from, ids, to)
    ensures forall m :: m in ids ==> m in f && m in g
    ensures ChainEnd(g, from, ids) == ChainEnd(f, from, ids) == to
    decreases |ids|
  {
    if ids != [] {
      var n := |ids| - 1;
      assert ids == ids[..n] + [ids[n]];
      ChainedFrame(f, g, leader, from, ids[..n], f[ids[n]].entry.at);
    }
  }

  /** A change that keeps `k`'s load, and every entry in it, keeps the load chained. */
  lemma CarriesFrame(f: Flight, g: Flight, k: nat)
    requires k in f && k in g && Carries(f, k)
    requires g[k].entry == f[k].entry && g[k].carries == f[k].carries
    requires forall m :: m in f[k].carries ==> m in g && g[m].entry == f[m].entry && g[m].stage == f[m].stage
    requires f[k].carries != [] ==> g[k].stage == f[k].stage && g[k].alone == f[k].alone
    ensures Carries(g, k)
  {
    var w := f[k];
    ChainedFrame(f, g, w.entry.leader, w.entry.End(), w.carries, ChainEnd(f, w.entry.End(), w.carries));
  }

  /** The flight `g` holds only writes of `f`, each with its entry. */
  ghost predicate Within(g: Flight, f: Flight) {
    forall k {:trigger k in g} :: k in g ==> k in f && g[k].entry == f[k].entry
  }

  lemma WithinDisjoint(g: Flight, f: Flight)
    requires Within(g, f) && Disjoint(f)
    ensures Disjoint(g)
  {
    forall a, b | a in g && b in g && a != b
      ensures Apartness(g[a].entry, g[b].entry)
    {
      assert Apartness(f[a].entry, f[b].entry);
    }
  }

  lemma OpenGood(l: Lanes, records: seq<Value>, k: nat)
    requires Admit(l).At? && k in Open(l, records).flight && l.nextId !in l.flight
    requires k in l.flight ==> Good(l, k)
    ensures Good(Open(l, records), k)
  {
    if k in l.flight {
      CarriesFrame(l.flight, Open(l, records).flight, k);
    }
  }

  lemma OpenKeeps(l: Lanes, records: seq<Value>)
    requires Inv(l) && Admit(l).At?
    ensures l.nextId !in l.flight && l.nextId !in l.done
    ensures Inv(Open(l, records))
  {
    var m := Open(l, records);
    var id := l.nextId;
    forall k | k in l.flight
      ensures k < id
    {
      assert Good(l, k);
    }
    forall k | k in m.flight
      ensures Good(m, k)
    {
      if k in l.flight {
        assert Good(l, k);
      }
      OpenGood(l, records, k);
    }
    forall a, b | a in m.flight && b in m.flight && a != b
      ensures Apartness(m.flight[a].entry, m.flight[b].entry)
    {
      if a == id {
        assert Good(l, b);
      } else if b == id {
        assert Good(l, a);
      } else {
        assert Apartness(l.flight[a].entry, l.flight[b].entry);
      }
    }
  }

  /** A change of the writer alone: each write stays placed. */
  lemma WriterKeeps(l: Lanes, m: Lanes)
    requires Inv(l) && m.flight == l.flight && m.nextId == l.nextId && m.done == l.done
    requires forall k {:trigger l.flight[k]} :: k in l.flight && Placed(l, l.flight[k].entry) ==>
      Placed(m, l.flight[k].entry)
    requires (m.broken ==> l.broken || l.flight != map[]) && m.writer.nextSeq <= m.ahead
    ensures Inv(m)
  {
    forall k | k in m.flight
      ensures Good(m, k)
    {
      assert Good(l, k);
    }
  }

  lemma ForwardKeeps(l: Lanes, next: nat)
    requires Inv(l)
    ensures Inv(Forward(l, next))
  {
    WriterKeeps(l, Forward(l, next));
  }

  lemma ObserveKeeps(l: Lanes, leader: Uuid, view: View, mint: Uuid)
    requires Inv(l) && Unspent(l, mint)
    ensures Inv(Observe(l, leader, view, mint))
  {
    WriterKeeps(l, Observe(l, leader, view, mint));
  }

  lemma BreakKeeps(l: Lanes, when: bool)
    requires Inv(l) && l.flight != map[]
    ensures Inv(Break(l, when))
  {
    WriterKeeps(l, Break(l, when));
  }

  lemma SettleGood(l: Lanes, id: nat, g: Flight, k: nat)
    requires id in l.flight && Good(l, id) && !l.flight[id].stage.Carried?
    requires g == l.flight - Group(l, id) && k in g && Good(l, k)
    ensures Rides(g, k) && Carries(g, k)
  {
    CarriesFrame(l.flight, g, k);
  }

  lemma DrainedKeeps(l: Lanes)
    requires AllGood(l) && Disjoint(l.flight)
    requires l.writer.nextSeq <= l.ahead && l.done.Keys !! l.flight.Keys && forall k :: k in l.done ==> k < l.nextId
    ensures Inv(Drained(l))
  {
    forall k | k in Drained(l).flight
      ensures Good(Drained(l), k)
    {
      assert Good(l, k);
    }
  }

  /** Settling a write that no merged write carries keeps every other merge whole. */
  lemma SettleKeeps(l: Lanes, id: nat, o: W.Outcome)
    requires Inv(l) && id in l.flight && !l.flight[id].stage.Carried?
    ensures InHand(l, id) && Inv(Settle(l, id, o))
  {
    InHandOf(l, id);
    var f := l.flight;
    var g := f - Group(l, id);
    var m := l.(flight := g, done := l.done + Verdicts(l, id, o));
    assert Good(l, id);
    forall k | k in g
      ensures Good(m, k)
    {
      assert Good(l, k);
      SettleGood(l, id, g, k);
    }
    WithinDisjoint(g, f);
    forall k | k in m.done
      ensures k < m.nextId && k !in g
    {
      if k in Verdicts(l, id, o) {
        assert Good(l, k);
      }
    }
    DrainedKeeps(m);
  }

  lemma TakeApartGood(l: Lanes, id: nat, k: nat)
    requires id in l.flight && InHand(l, id) && Good(l, id) && l.flight[id].carries != []
    requires k in TakeApart(l, id).flight && Good(l, k)
    ensures Good(TakeApart(l, id), k)
  {
    if k != id && k !in l.flight[id].carries {
      CarriesFrame(l.flight, TakeApart(l, id).flight, k);
    }
  }

  lemma TakeApartKeeps(l: Lanes, id: nat)
    requires Inv(l) && id in l.flight && l.flight[id].carries != []
    ensures InHand(l, id) && Inv(TakeApart(l, id))
  {
    InHandOf(l, id);
    assert Good(l, id);
    var m := TakeApart(l, id);
    forall k | k in m.flight
      ensures Good(m, k)
    {
      assert Good(l, k);
      TakeApartGood(l, id, k);
    }
    WithinDisjoint(m.flight, l.flight);
    assert id in m.flight;
  }

  lemma MarkGood(l: Lanes, id: nat, w: InFlight, k: nat)
    requires id in l.flight && k in l.flight && Good(l, id) && Good(l, k)
    requires w == l.flight[id].(early := w.early, dropped := w.dropped) && Flags(w)
    ensures Good(l.(flight := l.flight[id := w]), k)
  {
    CarriesFrame(l.flight, l.flight[id := w], k);
  }

  /** A change of one write's `early` or `dropped` mark. */
  lemma MarkKeeps(l: Lanes, id: nat, w: InFlight)
    requires Inv(l) && id in l.flight
    requires w == l.flight[id].(early := w.early, dropped := w.dropped) && Flags(w)
    ensures Inv(l.(flight := l.flight[id := w]))
  {
    var m := l.(flight := l.flight[id := w]);
    assert Good(l, id);
    forall k | k in m.flight
      ensures Good(m, k)
    {
      assert Good(l, k);
      MarkGood(l, id, w, k);
    }
    WithinDisjoint(m.flight, l.flight);
  }

  lemma StartGood(l: Lanes, id: nat, k: nat)
    requires id in l.flight && k in l.flight && Good(l, id) && Good(l, k) && l.flight[id].stage == Opened
    ensures Good(Start(l, id), k)
  {
    CarriesFrame(l.flight, Start(l, id).flight, k);
  }

  lemma StartKeeps(l: Lanes, id: nat)
    requires Inv(l) && id in l.flight && l.flight[id].stage == Opened
    ensures Inv(Start(l, id))
  {
    var m := Start(l, id);
    assert Good(l, id);
    forall k | k in m.flight
      ensures Good(m, k)
    {
      assert Good(l, k);
      StartGood(l, id, k);
    }
    WithinDisjoint(m.flight, l.flight);
  }

  /** What a send's verdict may be folded into: its own write, sent and not waiting. */
  ghost predicate Answering(l: Lanes, id: nat, o: W.Outcome) {
    && id in l.flight && l.flight[id].stage == Sending && l.flight[id].early == None
    && InHand(l, id)
    && (o.Written? ==> o.at == SentEntry(l, id).at && o.count == |SentEntry(l, id).records|)
  }

  /** A write settles once the tail moved past it, or once the pipeline broke. */
  lemma FoldSeenKeeps(seen: Lanes, id: nat, o: W.Outcome, current: bool)
    requires Inv(seen) && InHand(seen, id) && !seen.flight[id].stage.Carried?
    ensures o.Written? ==> Inv(Settle(Forward(seen, o.at + o.count), id, o))
    ensures Inv(Settle(Break(seen, current), id, o))
  {
    if o.Written? {
      ForwardKeeps(seen, o.at + o.count);
      SettleKeeps(Forward(seen, o.at + o.count), id, o);
    }
    BreakKeeps(seen, current);
    SettleKeeps(Break(seen, current), id, o);
  }

  lemma FoldKeeps(l: Lanes, id: nat, o: W.Outcome, mint: Uuid)
    requires Inv(l) && Answering(l, id, o) && Unspent(l, mint)
    ensures Inv(Fold(l, id, o, mint).0)
  {
    var leader := l.flight[id].entry.leader;
    var current := l.writer.Owner() == Some(leader);
    var seen := if ViewIn(o).Some? then Observe(l, leader, ViewIn(o).value, mint) else l;
    assert Inv(seen) by {
      if ViewIn(o).Some? {
        ObserveKeeps(l, leader, ViewIn(o).value, mint);
      }
    }
    assert seen.flight == l.flight;
    var folded := Fold(l, id, o, mint).1;
    if folded.Apart? {
      TakeApartKeeps(seen, id);
    } else if folded.Early? {
      assert Good(l, id);
      MarkKeeps(seen, id, l.flight[id].(early := Some(o.view)));
    } else {
      FoldSeenKeeps(seen, id, o, current);
    }
  }

  /**
    A written answer settles each write the send carries as written at its own range,
    leaves every other write as it was, and the known tail past them all; a failure is
    the send's own verdict, whole.
    */
  lemma FoldGives(l: Lanes, id: nat, o: W.Outcome, mint: Uuid)
    requires Inv(l) && Answering(l, id, o)
    ensures var (m, folded) := Fold(l, id, o, mint); var e := l.flight[id].entry;
      && (o.Written? ==>
            && folded == Done(W.Written(e.at, |e.records|, o.duplicate, o.resolved))
            && id !in m.flight && m.writer.nextSeq >= SentEntry(l, id).End()
            && (forall k {:trigger m.done[k]} :: k in l.flight[id].carries && !l.flight[k].dropped ==>
                  && k in m.done
                  && m.done[k] == W.Written(l.flight[k].entry.at, |l.flight[k].entry.records|, o.duplicate, o.resolved))
            && (forall k {:trigger l.flight[k]} :: k in l.flight && k !in Group(l, id) ==>
                  k in m.flight && m.flight[k] == l.flight[k]))
      && (folded.Done? && !o.Written? ==> folded.outcome == o)
  {
  }

  /**
    A merged write too large for the journal is taken apart, and only that. A write is early
    exactly when its own term's journal refused it with a tail short of it. Any other answer
    ends it.
    */
  lemma FoldTells(l: Lanes, id: nat, o: W.Outcome, mint: Uuid)
    requires Inv(l) && Answering(l, id, o)
    ensures var (m, folded) := Fold(l, id, o, mint); var w := l.flight[id];
      var current := l.writer.Owner() == Some(w.entry.leader);
      && (folded.Apart? <==> o.TooLarge? && w.carries != [])
      && (folded.Early? <==>
            o.Refused? && current && o.view.leader == Some(w.entry.leader) && o.view.nextSeq < w.entry.at)
      && (folded.Early? ==> m.flight == l.flight[id := w.(early := Some(o.view))])
      && (folded.Done? <==> id !in m.flight)
  {
    assert Good(l, id);
    if o.TooLarge? && l.flight[id].carries != [] {
      ApartTells(l, id);
    }
  }

  /** While a write's uuid leads, what its answer says of the journal is learnt, whatever the answer. */
  lemma FoldLearns(l: Lanes, id: nat, o: W.Outcome, mint: Uuid)
    requires Inv(l) && Answering(l, id, o) && l.writer.Owner() == Some(l.flight[id].entry.leader)
    requires o.Superseded? || o.Refused? || o.Truncated? || o.WrongMode? || o.NotWritten?
    ensures var m := Fold(l, id, o, mint).0;
      if o.view.leader == Some(l.flight[id].entry.leader) then m.writer.leads && m.writer.nextSeq >= o.view.nextSeq
      else !m.writer.leads && m.writer.mine == mint
  {
  }

  /**
    An answer that ends its write without writing it breaks the lanes exactly when its uuid
    leads and other writes are left; nothing else breaks them but a carried write dropped
    before its leader came apart. An empty flight starts over.
    */
  lemma FoldBreaks(l: Lanes, id: nat, o: W.Outcome, mint: Uuid)
    requires Inv(l) && Answering(l, id, o)
    ensures var (m, folded) := Fold(l, id, o, mint); var w := l.flight[id];
      var current := l.writer.Owner() == Some(w.entry.leader);
      && (folded.Done? && m.flight != map[] ==> (m.broken <==> l.broken || (!o.Written? && current)))
      && (folded.Early? ==> m.broken == l.broken)
      && (folded.Apart? ==>
            (m.broken <==> l.broken || (current && exists k :: k in w.carries && l.flight[k].dropped)))
      && (m.flight == map[] ==> !m.broken && m.ahead == m.writer.nextSeq)
  {
    FoldTells(l, id, o, mint);
    if o.TooLarge? && l.flight[id].carries != [] {
      assert Good(l, id);
      ApartTells(l, id);
    }
  }

  /** Taken apart, each write that is still wanted goes out alone; the dropped ones are gone. */
  lemma ApartTells(l: Lanes, id: nat)
    requires Inv(l) && id in l.flight && !l.flight[id].stage.Carried? && InHand(l, id)
    ensures var m := TakeApart(l, id); var w := l.flight[id];
      && id in m.flight && m.flight[id] == w.(carries := [], alone := true)
      && (forall k {:trigger m.flight[k]} :: k in w.carries ==>
            && (k in m.flight <==> !l.flight[k].dropped)
            && (k in m.flight ==> m.flight[k] == l.flight[k].(stage := Ready, alone := true)))
      && (m.broken <==> l.broken || (l.writer.Owner() == Some(w.entry.leader)
                                     && exists k :: k in w.carries && l.flight[k].dropped))
  {
    assert Good(l, id);
    var w := l.flight[id];
    var gone := set m | m in w.carries && l.flight[m].dropped && m != id;
    assert forall k :: k in w.carries ==> k != id;
    if k :| k in w.carries && l.flight[k].dropped {
      assert k in gone;
    }
  }

  /**
    Nothing is admitted without leading, or while a hole may lie below; otherwise a write is
    admitted past every write in flight under its uuid and past the known tail, and an
    empty flight never holds one up.
    */
  lemma AdmitMeans(l: Lanes)
    requires Inv(l)
    ensures Admit(l).NotOwner? <==> !l.writer.leads
    ensures Admit(l).Drain? <==> l.writer.leads && l.broken
    ensures Admit(l).At? <==> l.writer.leads && !l.broken
    ensures Admit(l).At? ==>
      && l.writer.nextSeq <= Admit(l).at
      && (forall k :: k in l.flight && l.flight[k].entry.leader == l.writer.mine ==>
            l.flight[k].entry.End() <= Admit(l).at)
      && (forall records :: OpenedEntry(l, records).at == Admit(l).at)
    ensures l.flight == map[] && l.writer.leads ==> Admit(l).At?
  {
    forall k | k in l.flight && l.flight[k].entry.leader == l.writer.mine
      ensures l.flight[k].entry.End() <= l.ahead
    {
      assert Good(l, k);
    }
  }

  /** A view leaves the writer leading exactly when it names its uuid, its tail known from then on. */
  lemma ObserveMeans(l: Lanes, leader: Uuid, view: View, mint: Uuid)
    requires Inv(l)
    ensures var m := Observe(l, leader, view, mint);
      && (l.writer.Owner() != Some(leader) ==> m == l)
      && (l.writer.Owner() == Some(leader) ==>
            && (m.writer.leads <==> view.leader == Some(leader))
            && (if m.writer.leads then m.writer == l.writer.(nextSeq := Max(l.writer.nextSeq, view.nextSeq))
                else m.writer.mine == mint && m.writer.nextSeq == l.writer.nextSeq)
            && m.flight == l.flight && m.broken == l.broken)
  {
  }

  /** A claim anew asks under a uuid that leads nothing: a new one if the old one led. Another goes on as it is. */
  lemma BeginClaimMeans(l: Lanes, anew: bool, mint: Uuid)
    requires Inv(l) && Unspent(l, mint)
    ensures var m := BeginClaim(l, anew, mint);
      && (!anew ==> m == l)
      && (anew ==> !m.writer.leads && m.writer.mine == (if l.writer.leads then mint else l.writer.mine))
      && (anew && l.writer.leads ==> forall k :: k in m.flight ==> m.flight[k].entry.leader != m.writer.mine)
      && m.flight == l.flight && m.done == l.done
  {
  }

  /**
    The outcome of a claim counts for the uuid it was made under, if that is still the
    writer's. That uuid leads after exactly when the journal names it, or nothing was told
    and it led before. A uuid that comes to lead starts unbroken at the tail it was told of;
    one that did not lead and is not named stays as it was, to be claimed again.
    */
  lemma ClaimMeans(l: Lanes, uuid: Uuid, claim: W.Claim, mint: Uuid)
    requires Inv(l) && Unspent(l, mint)
    ensures var m := Claimed(l, uuid, claim, mint);
      var led := l.writer.Owner() == Some(uuid); var v := ClaimView(claim);
      && (l.writer.mine != uuid ==> m == l)
      && (m.writer.Owner() == Some(uuid) <==>
            l.writer.mine == uuid && if v.Some? then v.value.leader == Some(uuid) else led)
      && (!led && m.writer.Owner() == Some(uuid) ==>
            && Admit(m) == At(if claim.Won? then v.value.nextSeq else Max(l.writer.nextSeq, v.value.nextSeq))
            && m.writer.nextSeq == Admit(m).at && m.writer.ledFrom.Some? && m.writer.ledFrom.value <= v.value.nextSeq)
      && (l.writer.mine == uuid && !led && m.writer.Owner() != Some(uuid) ==> m == l)
      && (led && m.writer.Owner() != Some(uuid) ==> m.writer.mine == mint && !m.writer.leads)
      && m.flight == l.flight && m.done == l.done
  {
  }

  lemma ResumeKeeps(l: Lanes, id: nat)
    requires Inv(l) && id in l.flight && l.flight[id].early.Some?
    ensures InHand(l, id) && Inv(Resume(l, id).0)
  {
    InHandOf(l, id);
    assert Good(l, id);
    var current := l.writer.Owner() == Some(l.flight[id].entry.leader);
    if Resume(l, id).1.Send? {
      MarkKeeps(l, id, l.flight[id].(early := None));
    } else if Resume(l, id).1.Finished? {
      BreakKeeps(l, current);
      SettleKeeps(Break(l, current), id, W.Refused(l.flight[id].early.value));
    }
  }

  /**
    An early write waits exactly while a write under its uuid is in flight below it. Its
    refusal, with the view that called it early, is given only once its uuid no longer
    leads or the known tail stops short of it; otherwise it is sent as it was.
    */
  lemma ResumeGives(l: Lanes, id: nat)
    requires Inv(l) && id in l.flight && l.flight[id].early.Some?
    ensures InHand(l, id)
    ensures var (m, r) := Resume(l, id); var w := l.flight[id];
      && (r.Wait? <==>
            exists k :: k in l.flight && l.flight[k].entry.leader == w.entry.leader
                        && l.flight[k].entry.at < w.entry.at)
      && (r.Wait? ==> m == l)
      && (r.Finished? ==> l.writer.Owner() != Some(w.entry.leader) || l.writer.nextSeq < w.entry.at)
      && (r.Finished? ==> r.outcome == W.Refused(w.early.value) && id !in m.flight)
      && (r.Finished? && m.flight != map[] ==> (m.broken <==> l.broken || l.writer.Owner() == Some(w.entry.leader)))
      && (r.Send? ==> l.writer.Owner() == Some(w.entry.leader) && w.entry.at <= l.writer.nextSeq)
      && (r.Send? ==>
            InHand(m, id) && r.entry == SentEntry(m, id) == SentEntry(l, id) && m.flight[id] == w.(early := None))
  {
    InHandOf(l, id);
    if Resume(l, id).1.Send? {
      GatherFrame(l.flight, Resume(l, id).0.flight, l.flight[id].carries);
    }
  }

  lemma AbandonKeeps(l: Lanes, id: nat)
    requires Inv(l)
    ensures id in l.flight ==> InHand(l, id)
    ensures Inv(Abandon(l, id))
  {
    if id in l.flight {
      InHandOf(l, id);
      var w := l.flight[id];
      assert Good(l, id);
      if w.stage.Carried? {
        MarkKeeps(l, id, w.(dropped := true));
      } else {
        var current := l.writer.Owner() == Some(w.entry.leader);
        BreakKeeps(l, current);
        SettleKeeps(Break(l, current), id, W.Ambiguous);
      }
    }
  }

  /**
    A carried write that is dropped stays to be told of by its leader, marked. Any other
    leaves with all it carries, and breaks the lanes exactly when its uuid leads and writes
    are left. A ticket not in flight changes nothing.
    */
  lemma AbandonTells(l: Lanes, id: nat)
    requires Inv(l)
    ensures id in l.flight ==> InHand(l, id)
    ensures var m := Abandon(l, id);
      && (id !in l.flight ==> m == l)
      && (id in l.flight && l.flight[id].stage.Carried? ==>
            m == l.(flight := l.flight[id := l.flight[id].(dropped := true)]))
      && (id in l.flight && !l.flight[id].stage.Carried? ==>
            && m.flight == l.flight - Group(l, id) && m.done == l.done + Verdicts(l, id, W.Ambiguous)
            && (m.flight != map[] ==> (m.broken <==> l.broken || l.writer.Owner() == Some(l.flight[id].entry.leader)))
            && (m.flight == map[] ==> !m.broken && m.ahead == m.writer.nextSeq))
  {
    if id in l.flight {
      InHandOf(l, id);
    }
  }

  /** A verdict collected from `done` leaves the flight as it was. */
  lemma DoneKeeps(l: Lanes, id: nat)
    requires Inv(l)
    ensures Inv(l.(done := l.done - {id}))
  {
    WriterKeeps(l, l);
    var m := l.(done := l.done - {id});
    forall k | k in m.flight
      ensures Good(m, k)
    {
      assert Good(l, k);
    }
  }

  /** The ready writes `c` may join `id`'s write. */
  ghost predicate Joinable(l: Lanes, id: nat, c: seq<nat>) {
    && id in l.flight && l.flight[id].stage == Ready
    && (forall m :: m in c ==> m in l.flight && l.flight[m].stage == Ready && !l.flight[m].alone)
    && (c != [] ==> !l.flight[id].alone && l.flight[id].entry.records != [])
    && Chained(l.flight, l.flight[id].entry.leader, l.flight[id].entry.End(), c,
               ChainEnd(l.flight, l.flight[id].entry.End(), c))
  }

  lemma LeadGood(l: Lanes, id: nat, c: seq<nat>, k: nat)
    requires Joinable(l, id, c) && id !in c && Good(l, id) && k in l.flight && Good(l, k)
    ensures Good(Lead(l, id, c), k)
  {
    var f := l.flight;
    var g := Lead(l, id, c).flight;
    if k == id {
      ChainedFrame(f, g, f[id].entry.leader, f[id].entry.End(), c, ChainEnd(f, f[id].entry.End(), c));
    } else {
      CarriesFrame(f, g, k);
    }
  }

  lemma LeadKeeps(l: Lanes, id: nat, c: seq<nat>)
    requires Inv(l) && Joinable(l, id, c)
    ensures id !in c && Inv(Lead(l, id, c))
  {
    var m := Lead(l, id, c);
    NotItsOwn(l, id, c);
    assert Good(l, id);
    forall k | k in m.flight
      ensures Good(m, k)
    {
      assert Good(l, k);
      LeadGood(l, id, c, k);
    }
    WithinDisjoint(m.flight, l.flight);
    assert id in m.flight;
  }

  /** A chain past `id`'s end never comes back to `id`. */
  lemma NotItsOwn(l: Lanes, id: nat, c: seq<nat>)
    requires Joinable(l, id, c)
    ensures id !in c
  {
    if c != [] {
      ChainAbove(l.flight, l.flight[id].entry.leader, l.flight[id].entry.End(), c,
                 ChainEnd(l.flight, l.flight[id].entry.End(), c));
    }
  }

  lemma {:induction false} ChainAbove(f: Flight, leader: Uuid, from: nat, ids: seq<nat>, to: nat)
    requires Chained(f, leader, from, ids, to)
    ensures from <= to
    ensures forall m :: m in ids ==> m in f && from <= f[m].entry.at && f[m].entry.End() <= to
    decreases |ids|
  {
    if ids != [] {
      var n := |ids| - 1;
      assert ids == ids[..n] + [ids[n]];
      ChainAbove(f, leader, from, ids[..n], f[ids[n]].entry.at);
    }
  }

  lemma BeginClaimKeeps(l: Lanes, anew: bool, mint: Uuid)
    requires Inv(l) && Unspent(l, mint)
    ensures Inv(BeginClaim(l, anew, mint))
  {
    WriterKeeps(l, BeginClaim(l, anew, mint));
  }

  lemma ClaimedKeeps(l: Lanes, uuid: Uuid, claim: W.Claim, mint: Uuid)
    requires Inv(l) && Unspent(l, mint)
    ensures Inv(Claimed(l, uuid, claim, mint))
  {
    if l.writer.mine == uuid && l.writer.Owner() == Some(uuid) {
      if ClaimView(claim).Some? {
        ObserveKeeps(l, uuid, ClaimView(claim).value, mint);
      }
    } else {
      WriterKeeps(l, Claimed(l, uuid, claim, mint));
    }
  }

  // ---- Waiting ----

  /** `a`'s send waits for `b`'s: an early write for one in front of it, a carried one for its leader. */
  ghost predicate WaitsFor(f: Flight, a: nat, b: nat) {
    && a in f && b in f
    && (f[a].stage == Carried(b)
        || (f[a].early.Some? && f[b].entry.leader == f[a].entry.leader && f[b].entry.at < f[a].entry.at))
  }

  /** Every wait is for a strictly lower position under the same uuid: no cycle of waits exists. */
  lemma WaitsGoDown(l: Lanes, a: nat, b: nat)
    requires Inv(l) && WaitsFor(l.flight, a, b)
    ensures l.flight[b].entry.leader == l.flight[a].entry.leader && l.flight[b].entry.at < l.flight[a].entry.at
  {
    var f := l.flight;
    if f[a].stage == Carried(b) {
      assert Good(l, a) && Good(l, b);
      var w := f[b];
      ChainAbove(f, w.entry.leader, w.entry.End(), w.carries, ChainEnd(f, w.entry.End(), w.carries));
      ChainLeader(f, w.entry.leader, w.entry.End(), w.carries, ChainEnd(f, w.entry.End(), w.carries), a);
    }
  }

  lemma {:induction false} ChainLeader(f: Flight, leader: Uuid, from: nat, ids: seq<nat>, to: nat, m: nat)
    requires Chained(f, leader, from, ids, to) && m in ids
    ensures m in f && f[m].entry.leader == leader && f[m].entry.records != []
    decreases |ids|
  {
    var n := |ids| - 1;
    assert ids == ids[..n] + [ids[n]];
    if m != ids[n] {
      ChainLeader(f, leader, from, ids[..n], f[ids[n]].entry.at, m);
    }
  }

  /** So a flight always holds a write that waits for no other. */
  lemma {:induction false} SomeoneMoves(l: Lanes, some: nat) returns (id: nat)
    requires Inv(l) && some in l.flight
    ensures id in l.flight && forall b :: !WaitsFor(l.flight, id, b)
    decreases l.flight[some].entry.at
  {
    if b :| WaitsFor(l.flight, some, b) {
      WaitsGoDown(l, some, b);
      id := SomeoneMoves(l, b);
    } else {
      id := some;
    }
  }

  // ---- Along a chain ----

  /** Write `k` of a chain starts where the ones before it end, and is none of them. */
  lemma {:induction false} ChainStep(f: Flight, leader: Uuid, from: nat, ids: seq<nat>, to: nat, k: nat)
    requires Chained(f, leader, from, ids, to) && k < |ids|
    ensures forall m :: m in ids[..k] ==> m in f
    ensures ids[k] in f && f[ids[k]].entry.at == ChainEnd(f, from, ids[..k])
    ensures ids[k] !in ids[..k]
    decreases |ids|
  {
    var n := |ids| - 1;
    var mid := f[ids[n]].entry.at;
    ChainAbove(f, leader, from, ids[..n], mid);
    ChainedFrame(f, f, leader, from, ids[..n], mid);
    if k < n {
      assert ids[..n][..k] == ids[..k];
      ChainStep(f, leader, from, ids[..n], mid, k);
    }
  }

  lemma ChainGrows(f: Flight, leader: Uuid, from: nat, ids: seq<nat>, m: nat)
    requires forall i :: i in ids ==> i in f
    requires Chained(f, leader, from, ids, ChainEnd(f, from, ids))
    requires m in f && f[m].entry.leader == leader && f[m].entry.records != []
    requires f[m].entry.at == ChainEnd(f, from, ids)
    ensures forall i :: i in ids + [m] ==> i in f
    ensures ChainEnd(f, from, ids + [m]) == f[m].entry.End()
    ensures Chained(f, leader, from, ids + [m], f[m].entry.End())
  {
    assert (ids + [m])[..|ids|] == ids;
  }

  // ---- A merged write is the tiling of its parts ----

  /** `part` is a slice of `whole`: the same uuid, inside its range, the same records there. */
  ghost predicate Slice(whole: Entry, part: Entry) {
    && part.leader == whole.leader
    && whole.at <= part.at && part.End() <= whole.End()
    && whole.records[part.at - whole.at..part.End() - whole.at] == part.records
  }

  ghost predicate Covered(f: Flight, ids: seq<nat>, p: nat) {
    exists m :: m in ids && m in f && f[m].entry.Covers(p)
  }

  lemma {:induction false} GatherTiles(f: Flight, leader: Uuid, from: nat, ids: seq<nat>, to: nat)
    requires Chained(f, leader, from, ids, to) && forall m :: m in ids ==> m in f
    ensures from + |Gather(f, ids)| == to
    ensures forall m :: m in ids ==> Slice(Entry(leader, from, Gather(f, ids)), f[m].entry)
    ensures forall p {:trigger Covered(f, ids, p)} :: from <= p < to ==> Covered(f, ids, p)
    decreases |ids|
  {
    if ids != [] {
      var n := |ids| - 1;
      var last := ids[n];
      var mid := f[last].entry.at;
      assert ids == ids[..n] + [last];
      GatherTiles(f, leader, from, ids[..n], mid);
      forall m | m in ids
        ensures Slice(Entry(leader, from, Gather(f, ids)), f[m].entry)
      {
        if m in ids[..n] {
          assert Slice(Entry(leader, from, Gather(f, ids[..n])), f[m].entry);
        }
      }
      forall p: nat {:trigger Covered(f, ids, p)} | from <= p < to
        ensures Covered(f, ids, p)
      {
        if p < mid {
          assert Covered(f, ids[..n], p);
          var m :| m in ids[..n] && m in f && f[m].entry.Covers(p);
          assert m in ids;
        } else {
          assert f[last].entry.Covers(p);
        }
      }
    }
  }

  /** The sent write is exactly its own write followed by those it carries: their ranges tile it. */
  lemma SentTiles(l: Lanes, id: nat)
    requires Inv(l) && id in l.flight
    ensures InHand(l, id)
    ensures forall m :: m in Group(l, id) ==> m in l.flight && Slice(SentEntry(l, id), l.flight[m].entry)
    ensures forall p :: SentEntry(l, id).Covers(p) ==> exists m :: m in Group(l, id) && l.flight[m].entry.Covers(p)
  {
    InHandOf(l, id);
    var f := l.flight;
    var w := f[id];
    assert Good(l, id);
    GatherTiles(f, w.entry.leader, w.entry.End(), w.carries, ChainEnd(f, w.entry.End(), w.carries));
    var e := SentEntry(l, id);
    var rest := Entry(w.entry.leader, w.entry.End(), Gather(f, w.carries));
    assert e.records == w.entry.records + rest.records;
    forall m | m in Group(l, id)
      ensures m in f && Slice(e, f[m].entry)
    {
      if m in w.carries {
        assert Slice(rest, f[m].entry);
      }
    }
    forall p: nat | e.Covers(p)
      ensures exists m :: m in Group(l, id) && f[m].entry.Covers(p)
    {
      if p < w.entry.End() {
        assert id in Group(l, id) && w.entry.Covers(p);
      } else {
        assert Covered(f, w.carries, p);
        var m :| m in w.carries && m in f && f[m].entry.Covers(p);
        assert m in Group(l, id);
      }
    }
  }

  // ---- What a leading write takes with it ----

  /** The records a write led by `id` with the load `c` sends. */
  function Load(f: Flight, id: nat, c: seq<nat>): seq<Value>
    requires id in f && forall m :: m in c ==> m in f
  {
    f[id].entry.records + Gather(f, c)
  }

  /** `w` may follow a write under `leader` that ends at `end` with `records` and `bytes` so far. */
  predicate Follows(w: InFlight, leader: Uuid, end: nat, records: nat, bytes: nat) {
    && w.stage == Ready && !w.alone && w.entry.records != []
    && w.entry.leader == leader && w.entry.at == end
    && records + |w.entry.records| <= MERGE_RECORDS
    && bytes + Bytes(w.entry.records) <= MERGE_BYTES
  }

  /** `c` is the longest load `id` may take: within the limits, and nothing ready follows it. */
  ghost predicate Greedy(l: Lanes, id: nat, c: seq<nat>) {
    && Joinable(l, id, c)
    && (c != [] ==> |Load(l.flight, id, c)| <= MERGE_RECORDS && Bytes(Load(l.flight, id, c)) <= MERGE_BYTES)
    && (!l.flight[id].alone && l.flight[id].entry.records != [] ==>
          forall m :: m in l.flight ==>
            !Follows(l.flight[m], l.flight[id].entry.leader, ChainEnd(l.flight, l.flight[id].entry.End(), c),
                     |Load(l.flight, id, c)|, Bytes(Load(l.flight, id, c))))
  }

  lemma {:induction false} BytesOfBoth(a: seq<Value>, b: seq<Value>)
    ensures Bytes(a + b) == Bytes(a) + Bytes(b)
    decreases |b|
  {
    if b == [] {
      assert a + b == a;
    } else {
      var n := |b| - 1;
      BytesOfBoth(a, b[..n]);
      assert (a + b)[..|a + b| - 1] == a + b[..n];
    }
  }

  lemma {:induction false} GatherFrame(f: Flight, g: Flight, ids: seq<nat>)
    requires forall m :: m in ids ==> m in f && m in g && g[m].entry == f[m].entry
    ensures Gather(f, ids) == Gather(g, ids)
    decreases |ids|
  {
    if ids != [] {
      GatherFrame(f, g, ids[..|ids| - 1]);
    }
  }

  /** The leader's sent write is its load. */
  lemma LeadSends(l: Lanes, id: nat, c: seq<nat>)
    requires Joinable(l, id, c)
    ensures InHand(Lead(l, id, c), id)
    ensures SentEntry(Lead(l, id, c), id) == l.flight[id].entry.(records := Load(l.flight, id, c))
  {
    NotItsOwn(l, id, c);
    GatherFrame(l.flight, Lead(l, id, c).flight, c);
  }

  lemma JoinGrows(l: Lanes, id: nat, c: seq<nat>, m: nat)
    requires Joinable(l, id, c) && !l.flight[id].alone && l.flight[id].entry.records != []
    requires m in l.flight
    requires Follows(l.flight[m], l.flight[id].entry.leader, ChainEnd(l.flight, l.flight[id].entry.End(), c),
                     |Load(l.flight, id, c)|, Bytes(Load(l.flight, id, c)))
    ensures Joinable(l, id, c + [m])
    ensures ChainEnd(l.flight, l.flight[id].entry.End(), c + [m]) == l.flight[m].entry.End()
    ensures Load(l.flight, id, c + [m]) == Load(l.flight, id, c) + l.flight[m].entry.records
    ensures Bytes(Load(l.flight, id, c + [m])) == Bytes(Load(l.flight, id, c)) + Bytes(l.flight[m].entry.records)
  {
    ChainGrows(l.flight, l.flight[id].entry.leader, l.flight[id].entry.End(), c, m);
    assert (c + [m])[..|c|] == c;
    BytesOfBoth(Load(l.flight, id, c), l.flight[m].entry.records);
  }

  /** What may follow the load is no part of it: the lead left it as it was. */
  lemma FollowsBoth(l: Lanes, id: nat, c: seq<nat>, m: nat, leader: Uuid, records: nat, bytes: nat)
    requires Joinable(l, id, c) && m in l.flight
    ensures var end := ChainEnd(l.flight, l.flight[id].entry.End(), c);
      Follows(Lead(l, id, c).flight[m], leader, end, records, bytes)
      <==> m != id && m !in c && Follows(l.flight[m], leader, end, records, bytes)
    ensures l.flight[id].entry.records != [] ==>
      var end := ChainEnd(l.flight, l.flight[id].entry.End(), c);
      Follows(l.flight[m], leader, end, records, bytes) ==> m != id && m !in c
  {
    var f := l.flight;
    ChainAbove(f, f[id].entry.leader, f[id].entry.End(), c, ChainEnd(f, f[id].entry.End(), c));
  }

  /** `c` is a load in the making: where it ends, and what it holds so far. */
  ghost predicate Grown(l: Lanes, id: nat, c: seq<nat>, end: nat, records: nat, bytes: nat) {
    && Joinable(l, id, c) && !l.flight[id].alone && l.flight[id].entry.records != []
    && end == ChainEnd(l.flight, l.flight[id].entry.End(), c)
    && records == |Load(l.flight, id, c)| && bytes == Bytes(Load(l.flight, id, c))
    && (c != [] ==> records <= MERGE_RECORDS && bytes <= MERGE_BYTES)
  }

  /** Nothing follows in the flight as the lead left it, so nothing did before. */
  lemma GrownOut(l: Lanes, id: nat, c: seq<nat>, end: nat, records: nat, bytes: nat)
    requires Grown(l, id, c, end, records, bytes)
    requires forall m :: m in Lead(l, id, c).flight ==>
      !Follows(Lead(l, id, c).flight[m], l.flight[id].entry.leader, end, records, bytes)
    ensures Greedy(l, id, c)
  {
    forall m | m in l.flight
      ensures !Follows(l.flight[m], l.flight[id].entry.leader, end, records, bytes)
    {
      assert m in Lead(l, id, c).flight;
      FollowsBoth(l, id, c, m, l.flight[id].entry.leader, records, bytes);
    }
  }
}
