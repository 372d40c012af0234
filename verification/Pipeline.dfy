/**
  The pipeline's state as the source keeps it: one object whose fields every
  operation updates in place, the writes in flight a vector searched by ticket.
  Each method is proved to move the state exactly as the operation of the same
  name in Lanes.dfy, and every assertion of the source is an `assert` here.
  */
module Pipeline {
  import opened Common
  import opened Journal
  import W = Writer
  import L = Lanes

  /** No ticket is in flight twice. */
  ghost predicate Distinct(s: seq<L.InFlight>) {
    forall i, k :: 0 <= i < k < |s| ==> s[i].id != s[k].id
  }

  /** The vector by ticket. */
  ghost function ByTicket(s: seq<L.InFlight>): L.Flight {
    if s == [] then map[] else ByTicket(s[..|s| - 1])[s[|s| - 1].id := s[|s| - 1]]
  }

  lemma {:induction false} ByTicketHas(s: seq<L.InFlight>, i: nat)
    requires Distinct(s) && i < |s|
    ensures s[i].id in ByTicket(s) && ByTicket(s)[s[i].id] == s[i]
    decreases |s|
  {
    if i < |s| - 1 {
      ByTicketHas(s[..|s| - 1], i);
    }
  }

  lemma {:induction false} ByTicketAt(s: seq<L.InFlight>, k: nat) returns (i: nat)
    requires k in ByTicket(s)
    ensures i < |s| && s[i].id == k
    decreases |s|
  {
    i := |s| - 1;
    if s[i].id != k {
      i := ByTicketAt(s[..i], k);
    }
  }

  lemma {:induction false} ByTicketPut(s: seq<L.InFlight>, i: nat, w: L.InFlight)
    requires Distinct(s) && i < |s| && w.id == s[i].id
    ensures Distinct(s[i := w]) && ByTicket(s[i := w]) == ByTicket(s)[w.id := w]
    decreases |s|
  {
    var n := |s| - 1;
    var t := s[i := w];
    if i < n {
      assert t[..n] == s[..n][i := w];
      ByTicketPut(s[..n], i, w);
    } else {
      assert t[..n] == s[..n];
    }
  }

  lemma ByTicketPush(s: seq<L.InFlight>, w: L.InFlight)
    requires Distinct(s) && w.id !in ByTicket(s)
    ensures Distinct(s + [w]) && ByTicket(s + [w]) == ByTicket(s)[w.id := w]
  {
    var t := s + [w];
    assert t[..|s|] == s;
    forall i | 0 <= i < |s|
      ensures s[i].id != w.id
    {
      ByTicketHas(s, i);
    }
  }

  /** The source's `swap_remove`: the last element takes the removed one's place. */
  function SwapRemove(s: seq<L.InFlight>, i: nat): seq<L.InFlight>
    requires i < |s|
  {
    var n := |s| - 1;
    if i == n then s[..n] else s[..n][i := s[n]]
  }

  lemma SwapRemoveDistinct(s: seq<L.InFlight>, i: nat)
    requires Distinct(s) && i < |s|
    ensures Distinct(SwapRemove(s, i))
    ensures forall k :: 0 <= k < |SwapRemove(s, i)| ==> SwapRemove(s, i)[k].id != s[i].id
  {
  }

  /** Index `k` of what is left, or of the whole, holds the same write in both maps. */
  lemma SwapRemoveSame(s: seq<L.InFlight>, i: nat, k: nat)
    requires Distinct(s) && i < |s| && k < |s| && k != i
    ensures s[k].id in ByTicket(SwapRemove(s, i)) && s[k].id in ByTicket(s)
    ensures ByTicket(SwapRemove(s, i))[s[k].id] == ByTicket(s)[s[k].id]
  {
    SwapRemoveDistinct(s, i);
    var t := SwapRemove(s, i);
    var m := if k == |s| - 1 then i else k;
    assert t[m] == s[k];
    ByTicketHas(t, m);
    ByTicketHas(s, k);
  }

  lemma ByTicketDropFrom(s: seq<L.InFlight>, i: nat, k: nat)
    requires Distinct(s) && i < |s| && k in ByTicket(SwapRemove(s, i))
    ensures k in ByTicket(s) && k != s[i].id && ByTicket(SwapRemove(s, i))[k] == ByTicket(s)[k]
  {
    var t := SwapRemove(s, i);
    SwapRemoveDistinct(s, i);
    var m := ByTicketAt(t, k);
    SwapRemoveSame(s, i, if m == i then |s| - 1 else m);
  }

  lemma ByTicketDropTo(s: seq<L.InFlight>, i: nat, k: nat)
    requires Distinct(s) && i < |s| && k in ByTicket(s) && k != s[i].id
    ensures k in ByTicket(SwapRemove(s, i))
  {
    var m := ByTicketAt(s, k);
    SwapRemoveSame(s, i, m);
  }

  lemma ByTicketDrop(s: seq<L.InFlight>, i: nat)
    requires Distinct(s) && i < |s|
    ensures Distinct(SwapRemove(s, i)) && ByTicket(SwapRemove(s, i)) == ByTicket(s) - {s[i].id}
  {
    var f, g := ByTicket(s), ByTicket(SwapRemove(s, i));
    SwapRemoveDistinct(s, i);
    forall k | k in g
      ensures k in f && k != s[i].id && g[k] == f[k]
    {
      ByTicketDropFrom(s, i, k);
    }
    forall k | k in f && k != s[i].id
      ensures k in g
    {
      ByTicketDropTo(s, i, k);
    }
  }

  /**
    What the source asserts after each operation. `L.Inv` is stronger: it adds
    that a merge's writes lie one after the other and that no two writes in
    flight under one uuid share a position.
    */
  ghost predicate Asserted(l: L.Lanes) {
    && (forall k :: k in l.flight ==> l.flight[k].id == k && k < l.nextId)
    && (forall k :: k in l.flight && l.writer.Owner() == Some(l.flight[k].entry.leader) ==>
          l.flight[k].entry.End() <= l.ahead)
    && (forall k :: k in l.flight && l.flight[k].stage.Carried? ==>
          l.flight[k].stage.lead in l.flight && l.flight[l.flight[k].stage.lead].stage == L.Sending)
    && (forall k :: k in l.flight ==> l.flight[k].carries == [] || l.flight[k].stage == L.Sending)
    && (l.broken ==> l.flight != map[])
  }

  lemma InvAsserted(l: L.Lanes)
    requires L.Inv(l)
    ensures Asserted(l)
  {
    forall k | k in l.flight
      ensures L.Good(l, k)
    {
    }
  }

  // ---- Half-done operations ----

  /** `Settle` after the writes `gone` left: the write's load is taken, the rest is in flight. */
  ghost function Settling(l: L.Lanes, id: nat, o: W.Outcome, gone: seq<nat>): L.Lanes
    requires id in l.flight && forall m :: m in gone ==> m in l.flight
  {
    var out := set m | m in gone;
    var verdicts := map m | m in gone && !l.flight[m].dropped :: L.PartOf(o, l.flight[m].entry);
    l.(flight := l.flight[id := l.flight[id].(carries := [])] - out, done := l.done + verdicts)
  }

  lemma SettlingAsserted(l: L.Lanes, id: nat, o: W.Outcome, gone: seq<nat>)
    requires L.Inv(l) && id in l.flight && l.flight[id].stage == L.Sending && id !in gone
    requires forall m :: m in gone ==> m in l.flight[id].carries && m in l.flight
    ensures Asserted(Settling(l, id, o, gone))
  {
    var h := Settling(l, id, o, gone);
    assert L.Good(l, id);
    assert id in h.flight;
    forall k | k in h.flight
      ensures h.flight[k].id == k && k < h.nextId && L.Placed(h, h.flight[k].entry)
      ensures h.flight[k].stage.Carried? ==>
        h.flight[k].stage.lead in h.flight && h.flight[h.flight[k].stage.lead].stage == L.Sending
      ensures h.flight[k].carries == [] || h.flight[k].stage == L.Sending
    {
      assert L.Good(l, k);
    }
  }

  lemma SettlingStep(l: L.Lanes, id: nat, o: W.Outcome, gone: seq<nat>, m: nat)
    requires id in l.flight && m in l.flight && m != id && id !in gone && m !in gone
    requires forall k :: k in gone ==> k in l.flight
    ensures forall k :: k in gone + [m] ==> k in l.flight
    ensures var h := Settling(l, id, o, gone);
      && m in h.flight && h.flight[m] == l.flight[m] && id in h.flight - {m}
      && Settling(l, id, o, gone + [m]).flight == h.flight - {m}
  {
    var h := Settling(l, id, o, gone);
    var out := set k | k in gone;
    var out' := set k | k in gone + [m];
    assert out' == out + {m};
    assert Settling(l, id, o, gone + [m]).flight == h.flight - {m};
  }

  lemma SettlingVerdict(l: L.Lanes, id: nat, o: W.Outcome, gone: seq<nat>, m: nat)
    requires id in l.flight && forall k :: k in gone + [m] ==> k in l.flight
    ensures var h := Settling(l, id, o, gone);
      Settling(l, id, o, gone + [m]).done ==
        if l.flight[m].dropped then h.done else h.done[m := L.PartOf(o, l.flight[m].entry)]
  {
    var h := Settling(l, id, o, gone);
    var h' := Settling(l, id, o, gone + [m]);
    forall k | k in h'.done
      ensures if l.flight[m].dropped then k in h.done && h'.done[k] == h.done[k]
              else k in h.done[m := L.PartOf(o, l.flight[m].entry)]
                   && h'.done[k] == h.done[m := L.PartOf(o, l.flight[m].entry)][k]
    {
    }
  }

  /** The `k`th write `id` carries: in flight, carried by `id`, right after the ones before it. */
  lemma MemberOf(l: L.Lanes, id: nat, k: nat)
    requires L.Inv(l) && id in l.flight && k < |l.flight[id].carries|
    ensures var w := l.flight[id]; var m := w.carries[k];
      && m in l.flight && m != id && id !in w.carries[..k] && m !in w.carries[..k]
      && (forall i :: i in w.carries[..k] ==> i in l.flight)
      && l.flight[m].stage == L.Carried(id)
      && l.flight[m].entry.at == L.ChainEnd(l.flight, w.entry.End(), w.carries[..k])
      && w.carries[..k + 1] == w.carries[..k] + [m]
  {
    assert L.Good(l, id);
    var w := l.flight[id];
    L.ChainStep(l.flight, w.entry.leader, w.entry.End(), w.carries, L.ChainEnd(l.flight, w.entry.End(), w.carries), k);
    assert w.carries[k] in w.carries;
    assert w.carries[..k + 1] == w.carries[..k] + [w.carries[k]];
  }

  lemma SettlingEnds(l: L.Lanes, id: nat, o: W.Outcome)
    requires L.InHand(l, id) && id !in l.flight[id].carries
    ensures var h := Settling(l, id, o, l.flight[id].carries);
      id in h.flight && L.Drained(h.(flight := h.flight - {id})) == L.Settle(l, id, o)
  {
    var h := Settling(l, id, o, l.flight[id].carries);
    assert h.flight - {id} == l.flight - L.Group(l, id);
    assert h.done == l.done + L.Verdicts(l, id, o);
  }

  /** The dropped writes among `seen`. */
  ghost function Gone(l: L.Lanes, id: nat, seen: seq<nat>): set<nat>
    requires forall m :: m in seen ==> m in l.flight
  {
    set m | m in seen && l.flight[m].dropped && m != id
  }

  /** `TakeApart` after the writes `seen` were looked at. */
  ghost function Parting(l: L.Lanes, id: nat, seen: seq<nat>): L.Lanes
    requires id in l.flight && forall m :: m in seen ==> m in l.flight
  {
    var gone := Gone(l, id, seen);
    L.Break(l, gone != {} && l.writer.Owner() == Some(l.flight[id].entry.leader))
    .(flight := map k | k in l.flight && k !in gone ::
        if k == id then l.flight[id].(carries := [], alone := true)
        else if k in seen then l.flight[k].(stage := L.Ready, alone := true)
        else l.flight[k])
  }

  lemma PartingGone(l: L.Lanes, id: nat, seen: seq<nat>, m: nat)
    requires id in l.flight && m in l.flight && m != id && m !in seen
    requires forall k :: k in seen ==> k in l.flight
    ensures forall k :: k in seen + [m] ==> k in l.flight
    ensures Gone(l, id, seen + [m]) == if l.flight[m].dropped then Gone(l, id, seen) + {m} else Gone(l, id, seen)
  {
  }

  lemma PartingFlight(l: L.Lanes, id: nat, seen: seq<nat>, m: nat)
    requires id in l.flight && m in l.flight && m != id && m !in seen
    requires forall k :: k in seen ==> k in l.flight
    requires forall k :: k in seen + [m] ==> k in l.flight
    ensures var h := Parting(l, id, seen);
      Parting(l, id, seen + [m]).flight ==
        if l.flight[m].dropped then h.flight - {m} else h.flight[m := l.flight[m].(stage := L.Ready, alone := true)]
  {
    PartingGone(l, id, seen, m);
  }

  lemma PartingStep(l: L.Lanes, id: nat, seen: seq<nat>, m: nat)
    requires id in l.flight && m in l.flight && m != id && m !in seen
    requires forall k :: k in seen ==> k in l.flight
    ensures forall k :: k in seen + [m] ==> k in l.flight
    ensures var h := Parting(l, id, seen);
      var current := l.writer.Owner() == Some(l.flight[id].entry.leader);
      && m in h.flight && h.flight[m] == l.flight[m] && id in h.flight
      && Parting(l, id, seen + [m]) ==
         if l.flight[m].dropped then L.Drained(L.Break(h, current).(flight := h.flight - {m}))
         else h.(flight := h.flight[m := l.flight[m].(stage := L.Ready, alone := true)])
  {
    PartingGone(l, id, seen, m);
    PartingFlight(l, id, seen, m);
    assert id in Parting(l, id, seen).flight - {m};
  }

  lemma PartingEnds(l: L.Lanes, id: nat)
    requires L.InHand(l, id)
    ensures Parting(l, id, l.flight[id].carries) == L.TakeApart(l, id)
  {
    assert Parting(l, id, l.flight[id].carries).flight == L.TakeApart(l, id).flight;
  }

  /** A write joins a load in two updates: its own stage, and the leader's list. */
  lemma JoinStep(l: L.Lanes, id: nat, c: seq<nat>, m: nat)
    requires id in l.flight && m in l.flight && m != id && m !in c
    ensures var h := L.Lead(l, id, c);
      && m in h.flight && h.flight[m] == l.flight[m] && id in h.flight && h.flight[id].carries == c
      && L.Lead(l, id, c + [m]) ==
         h.(flight := h.flight[m := l.flight[m].(stage := L.Carried(id))][id := h.flight[id].(carries := c + [m])])
  {
    var h := L.Lead(l, id, c);
    assert L.Lead(l, id, c + [m]).flight ==
           h.flight[m := l.flight[m].(stage := L.Carried(id))][id := h.flight[id].(carries := c + [m])];
  }

  datatype Led = Send(entry: Entry) | Done(outcome: W.Outcome) | Wait

  class Lanes {
    var writer: W.Writer
    var ahead: nat
    var broken: bool
    var nextId: nat
    var flight: seq<L.InFlight>
    var done: map<nat, W.Outcome>

    ghost function State(): L.Lanes
      reads this
    {
      L.Lanes(writer, ahead, broken, nextId, ByTicket(flight), done)
    }

    ghost predicate Valid()
      reads this
    {
      Distinct(flight) && L.Inv(State())
    }

    constructor (w: W.Writer)
      ensures Valid() && State() == L.New(w)
    {
      writer, ahead, broken, nextId, flight, done := w, w.nextSeq, false, 0, [], map[];
    }

    // ---- The vector ----

    method Find(id: nat) returns (i: nat)
      requires Distinct(flight) && id in ByTicket(flight)
      ensures i < |flight| && flight[i].id == id && flight[i] == ByTicket(flight)[id]
    {
      ghost var at := ByTicketAt(flight, id);
      i := 0;
      while flight[i].id != id
        invariant i <= at
        decreases at - i
      {
        i := i + 1;
      }
      ByTicketHas(flight, i);
    }

    method Holds(id: nat) returns (held: bool)
      requires Distinct(flight)
      ensures held <==> id in ByTicket(flight)
    {
      for i := 0 to |flight|
        invariant forall k :: 0 <= k < i ==> flight[k].id != id
      {
        if flight[i].id == id {
          ByTicketHas(flight, i);
          return true;
        }
      }
      held := false;
      if id in ByTicket(flight) {
        var i := ByTicketAt(flight, id);
      }
    }

    method Put(w: L.InFlight)
      requires Distinct(flight) && w.id in ByTicket(flight)
      modifies this`flight
      ensures Distinct(flight) && ByTicket(flight) == old(ByTicket(flight))[w.id := w]
      ensures State() == old(State()).(flight := old(ByTicket(flight))[w.id := w])
    {
      var i := Find(w.id);
      ByTicketPut(flight, i, w);
      flight := flight[i := w];
    }

    method Push(w: L.InFlight)
      requires Distinct(flight) && w.id !in ByTicket(flight)
      modifies this`flight
      ensures Distinct(flight) && ByTicket(flight) == old(ByTicket(flight))[w.id := w]
    {
      ByTicketPush(flight, w);
      flight := flight + [w];
    }

    method Admit() returns (a: L.Admission)
      ensures a == L.Admit(State())
    {
      if writer.Owner() == None {
        a := L.NotOwner;
      } else if broken {
        a := L.Drain;
      } else {
        a := L.At(ahead);
      }
    }

    // ---- The operations ----

    method Open(records: seq<Value>) returns (id: nat, entry: Entry)
      requires Valid() && L.Admit(State()).At?
      modifies this
      ensures Valid() && State() == L.Open(old(State()), records)
      ensures id == old(nextId) && entry == L.OpenedEntry(old(State()), records)
    {
      ghost var before := State();
      L.OpenKeeps(before, records);
      assert ahead >= writer.nextSeq;
      entry := Entry(writer.mine, ahead, records);
      writer := writer.Open(entry);
      ahead := entry.End();
      id := nextId;
      nextId := nextId + 1;
      Push(L.InFlight(id, entry, None, L.Opened, false, [], false));
    }

    /** A swap-remove: the flight as a map loses exactly `id`, and an empty one starts over. */
    method Remove(id: nat) returns (w: L.InFlight)
      requires Distinct(flight) && id in ByTicket(flight)
      modifies this`flight, this`ahead, this`broken
      ensures Distinct(flight) && w == old(ByTicket(flight))[id]
      ensures State() == L.Drained(old(State()).(flight := old(ByTicket(flight)) - {id}))
    {
      var i := Find(id);
      w := flight[i];
      ByTicketDrop(flight, i);
      flight := SwapRemove(flight, i);
      if flight == [] {
        ahead := writer.nextSeq;
        broken := false;
      } else {
        ByTicketHas(flight, 0);
      }
      assert id !in ByTicket(flight);
    }

    method Forward(next: nat)
      modifies this`writer, this`ahead
      ensures State() == L.Forward(old(State()), next)
    {
      writer := writer.AdvanceTo(next);
      ahead := Max(ahead, writer.nextSeq);
      assert ahead >= writer.nextSeq;
    }

    method Observe(leader: Uuid, view: View, mint: Uuid)
      requires Valid() && L.Unspent(State(), mint)
      modifies this`writer, this`ahead
      ensures Valid() && State() == L.Observe(old(State()), leader, view, mint)
    {
      L.ObserveKeeps(State(), leader, view, mint);
      if writer.Owner() != Some(leader) {
        return;
      }
      if view.leader == Some(leader) {
        Forward(view.nextSeq);
      } else {
        writer := writer.Learn(view, mint);
        assert writer.Owner() == None;
      }
    }

    /** The concatenation the specification names. */
    method SentEntry(id: nat) returns (e: Entry)
      requires Distinct(flight) && L.InHand(State(), id)
      ensures e == L.SentEntry(State(), id)
    {
      var i := Find(id);
      var own := flight[i];
      var records := own.entry.records;
      for k := 0 to |own.carries|
        invariant forall m :: m in own.carries[..k] ==> m in ByTicket(flight)
        invariant records == own.entry.records + L.Gather(ByTicket(flight), own.carries[..k])
      {
        assert own.carries[..k + 1] == own.carries[..k] + [own.carries[k]];
        var at := Find(own.carries[k]);
        records := records + flight[at].entry.records;
      }
      assert own.carries[..|own.carries|] == own.carries;
      e := own.entry.(records := records);
    }

    method SettleMember(id: nat, m: nat, o: W.Outcome, at: nat, ghost before: L.Lanes, ghost gone: seq<nat>)
      returns (next: nat)
      requires Distinct(flight) && id in before.flight && m in before.flight && m != id
      requires id !in gone && m !in gone && forall k :: k in gone ==> k in before.flight
      requires State() == Settling(before, id, o, gone)
      requires before.flight[m].stage == L.Carried(id) && before.flight[m].entry.at == at
      modifies this
      ensures Distinct(flight)
      ensures forall k :: k in gone + [m] ==> k in before.flight
      ensures State() == Settling(before, id, o, gone + [m])
      ensures next == before.flight[m].entry.End()
    {
      SettlingStep(before, id, o, gone, m);
      SettlingVerdict(before, id, o, gone, m);
      var w := Remove(m);
      assert w.stage == L.Carried(id) && w.entry.at == at;
      next := at + |w.entry.records|;
      if !w.dropped {
        done := done[m := L.PartOf(o, w.entry)];
      }
    }

    method SettleLoad(id: nat, carries: seq<nat>, end: nat, o: W.Outcome, ghost before: L.Lanes)
      requires Distinct(flight) && L.Inv(before) && id in before.flight
      requires carries == before.flight[id].carries && end == before.flight[id].entry.End()
      requires State() == Settling(before, id, o, [])
      modifies this
      ensures Distinct(flight) && id !in carries
      ensures forall m :: m in carries ==> m in before.flight
      ensures State() == Settling(before, id, o, carries)
    {
      var at := end;
      for k := 0 to |carries|
        invariant Distinct(flight)
        invariant forall m :: m in carries[..k] ==> m in before.flight
        invariant State() == Settling(before, id, o, carries[..k])
        invariant at == L.ChainEnd(before.flight, end, carries[..k])
        invariant id !in carries[..k]
      {
        MemberOf(before, id, k);
        at := SettleMember(id, carries[k], o, at, before, carries[..k]);
      }
      assert carries[..|carries|] == carries;
    }

    /** The whole group leaves the flight; `own` is `id`'s part of `o`, the other parts are in `done`. */
    method Settle(id: nat, o: W.Outcome) returns (own: W.Outcome)
      requires Valid() && id in ByTicket(flight) && !ByTicket(flight)[id].stage.Carried?
      modifies this
      ensures L.InHand(old(State()), id)
      ensures Valid() && State() == L.Settle(old(State()), id, o)
      ensures own == L.PartOf(o, old(ByTicket(flight))[id].entry)
    {
      ghost var before := State();
      L.SettleKeeps(before, id, o);
      var i := Find(id);
      var w := flight[i];
      assert w.id == id;
      Put(w.(carries := []));
      assert State().flight == Settling(before, id, o, []).flight;
      SettleLoad(id, w.carries, w.entry.End(), o, before);
      SettlingEnds(before, id, o);
      var self := Remove(id);
      own := L.PartOf(o, w.entry);
    }

    method PartMember(id: nat, m: nat, leader: Uuid, ghost before: L.Lanes, ghost seen: seq<nat>)
      requires Distinct(flight) && id in before.flight && m in before.flight && m != id
      requires m !in seen && forall k :: k in seen ==> k in before.flight
      requires State() == Parting(before, id, seen) && leader == before.flight[id].entry.leader
      requires before.flight[m].id == m
      modifies this
      ensures Distinct(flight)
      ensures forall k :: k in seen + [m] ==> k in before.flight
      ensures State() == Parting(before, id, seen + [m])
    {
      PartingStep(before, id, seen, m);
      var at := Find(m);
      var other := flight[at];
      if other.dropped {
        if writer.Owner() == Some(leader) {
          broken := true;
        }
        var gone := Remove(m);
      } else {
        Put(other.(stage := L.Ready, alone := true));
      }
    }

    method PartLoad(id: nat, carries: seq<nat>, leader: Uuid, ghost before: L.Lanes)
      requires Distinct(flight) && L.Inv(before) && id in before.flight
      requires carries == before.flight[id].carries && leader == before.flight[id].entry.leader
      requires State() == Parting(before, id, [])
      modifies this
      ensures Distinct(flight)
      ensures forall m :: m in carries ==> m in before.flight
      ensures State() == Parting(before, id, carries)
    {
      for k := 0 to |carries|
        invariant Distinct(flight)
        invariant forall m :: m in carries[..k] ==> m in before.flight
        invariant State() == Parting(before, id, carries[..k])
      {
        MemberOf(before, id, k);
        assert L.Good(before, carries[k]);
        PartMember(id, carries[k], leader, before, carries[..k]);
      }
      assert carries[..|carries|] == carries;
    }

    /** The carried writes are ready and alone again, the dropped ones gone. */
    method TakeApart(id: nat)
      requires Valid() && id in ByTicket(flight) && ByTicket(flight)[id].carries != []
      modifies this
      ensures L.InHand(old(State()), id)
      ensures Valid() && State() == L.TakeApart(old(State()), id)
    {
      ghost var before := State();
      L.TakeApartKeeps(before, id);
      var i := Find(id);
      var w := flight[i];
      Put(w.(carries := [], alone := true));
      assert State().flight == Parting(before, id, []).flight;
      PartLoad(id, w.carries, w.entry.leader, before);
      PartingEnds(before, id);
    }

    /** Fold `id`'s outcome. */
    method Fold(id: nat, o: W.Outcome, mint: Uuid) returns (folded: L.Folded)
      requires Valid() && L.Answering(State(), id, o) && L.Unspent(State(), mint)
      modifies this
      ensures Valid() && (State(), folded) == L.Fold(old(State()), id, o, mint)
    {
      var i := Find(id);
      var w := flight[i];
      var leader := w.entry.leader;
      var current := writer.Owner() == Some(leader);
      if L.ViewIn(o).Some? {
        Observe(leader, L.ViewIn(o).value, mint);
      }
      if o.TooLarge? && w.carries != [] {
        TakeApart(id);
        folded := L.Apart;
      } else if o.Written? {
        var sent := SentEntry(id);
        assert o.at == sent.at && o.count == |sent.records|;
        folded := Succeed(id, o);
      } else if o.Refused? && current && writer.Owner() == Some(leader)
                && o.view.leader == Some(leader) && o.view.nextSeq < w.entry.at {
        MarkEarly(id, w, o.view);
        folded := L.Early;
      } else {
        folded := Fail(id, o, current);
      }
    }

    /** Only the early mark of `id` changes. */
    method MarkEarly(id: nat, w: L.InFlight, view: View)
      requires Valid() && id in ByTicket(flight) && w == ByTicket(flight)[id] && w.stage == L.Sending
      requires view.leader == Some(w.entry.leader) && view.nextSeq < w.entry.at
      modifies this
      ensures Valid() && State() == old(State()).(flight := old(State()).flight[id := w.(early := Some(view))])
    {
      assert L.Good(State(), id);
      L.MarkKeeps(State(), id, w.(early := Some(view)));
      Put(w.(early := Some(view)));
    }

    /** Settle `id` with a failure; one of the writer's term breaks the pipeline. */
    method Fail(id: nat, o: W.Outcome, current: bool) returns (folded: L.Folded)
      requires Valid() && id in ByTicket(flight) && !ByTicket(flight)[id].stage.Carried?
      modifies this
      ensures L.InHand(old(State()), id) && Valid()
      ensures State() == L.Settle(L.Break(old(State()), current), id, o)
      ensures folded == L.Done(L.PartOf(o, old(ByTicket(flight))[id].entry))
    {
      L.InHandOf(State(), id);
      L.BreakKeeps(State(), current);
      if current {
        broken := true;
      }
      var own := Settle(id, o);
      folded := L.Done(own);
    }

    /** Settle `id` as written: the known tail moves past it. */
    method Succeed(id: nat, o: W.Outcome) returns (folded: L.Folded)
      requires Valid() && id in ByTicket(flight) && !ByTicket(flight)[id].stage.Carried? && o.Written?
      modifies this
      ensures L.InHand(old(State()), id) && Valid()
      ensures State() == L.Settle(L.Forward(old(State()), o.at + o.count), id, o)
      ensures folded == L.Done(L.PartOf(o, old(ByTicket(flight))[id].entry))
    {
      L.InHandOf(State(), id);
      L.ForwardKeeps(State(), o.at + o.count);
      Forward(o.at + o.count);
      var own := Settle(id, o);
      folded := L.Done(own);
    }

    /** Sent unchanged, left waiting or refused, as the specification says. */
    method Resume(id: nat) returns (resumed: L.Resumed)
      requires Valid() && id in ByTicket(flight) && ByTicket(flight)[id].early.Some?
      modifies this
      ensures L.InHand(old(State()), id)
      ensures Valid() && (State(), resumed) == L.Resume(old(State()), id)
    {
      ghost var before := State();
      L.InHandOf(before, id);
      var i := Find(id);
      var w := flight[i];
      var aheadOfIt := AnyAhead(w);
      if aheadOfIt {
        return L.Wait;
      }
      var current := writer.Owner() == Some(w.entry.leader);
      if current && writer.nextSeq >= w.entry.at {
        L.ResumeKeeps(before, id);
        var again := SentEntry(id);
        Put(w.(early := None));
        return L.Send(again);
      }
      L.BreakKeeps(before, current);
      if current {
        broken := true;
      }
      assert L.Good(before, id);
      var own := Settle(id, W.Refused(w.early.value));
      resumed := L.Finished(own);
    }

    method AnyAhead(w: L.InFlight) returns (any: bool)
      requires Distinct(flight) && w.id in ByTicket(flight) && ByTicket(flight)[w.id] == w
      ensures any <==> L.AheadOfIt(ByTicket(flight), w.id)
    {
      for i := 0 to |flight|
        invariant forall k :: 0 <= k < i ==>
          !(flight[k].entry.leader == w.entry.leader && flight[k].entry.at < w.entry.at)
      {
        if flight[i].entry.leader == w.entry.leader && flight[i].entry.at < w.entry.at {
          ByTicketHas(flight, i);
          return true;
        }
      }
      any := false;
      forall k | k in ByTicket(flight)
        ensures !(ByTicket(flight)[k].entry.leader == w.entry.leader && ByTicket(flight)[k].entry.at < w.entry.at)
      {
        var i := ByTicketAt(flight, k);
        ByTicketHas(flight, i);
      }
    }

    /** A carried write is marked, any other settled as ambiguous; an unknown ticket changes nothing. */
    method Abandon(id: nat)
      requires Valid()
      modifies this
      ensures id in old(State()).flight ==> L.InHand(old(State()), id)
      ensures Valid() && State() == L.Abandon(old(State()), id)
    {
      L.AbandonKeeps(State(), id);
      var held := Holds(id);
      if !held {
        return;
      }
      var i := Find(id);
      var w := flight[i];
      if w.stage.Carried? {
        Put(w.(dropped := true));
        return;
      }
      L.BreakKeeps(State(), writer.Owner() == Some(w.entry.leader));
      if writer.Owner() == Some(w.entry.leader) {
        broken := true;
      }
      var own := Settle(id, W.Ambiguous);
    }

    /** Only the stage of `id` changes. */
    method Ready(id: nat)
      requires Valid() && id in ByTicket(flight) && ByTicket(flight)[id].stage == L.Opened
      modifies this
      ensures Valid() && State() == L.Start(old(State()), id)
    {
      L.StartKeeps(State(), id);
      var i := Find(id);
      var w := flight[i];
      assert w.stage == L.Opened;
      Put(w.(stage := L.Ready));
    }

    /** The first ready write that may follow one ending at `end`. */
    method Next(leader: Uuid, end: nat, records: nat, bytes: nat) returns (found: Option<nat>)
      requires Distinct(flight)
      ensures found.Some? ==>
        found.value in ByTicket(flight) && L.Follows(ByTicket(flight)[found.value], leader, end, records, bytes)
      ensures found.None? ==>
        forall m :: m in ByTicket(flight) ==> !L.Follows(ByTicket(flight)[m], leader, end, records, bytes)
    {
      for i := 0 to |flight|
        invariant forall k :: 0 <= k < i ==> !L.Follows(flight[k], leader, end, records, bytes)
      {
        if L.Follows(flight[i], leader, end, records, bytes) {
          ByTicketHas(flight, i);
          return Some(flight[i].id);
        }
      }
      found := None;
      forall m | m in ByTicket(flight)
        ensures !L.Follows(ByTicket(flight)[m], leader, end, records, bytes)
      {
        var i := ByTicketAt(flight, m);
        ByTicketHas(flight, i);
      }
    }

    method Join(id: nat, c: seq<nat>, m: nat, ghost before: L.Lanes) returns (w: L.InFlight)
      requires Distinct(flight) && id in before.flight && m in before.flight
      requires State() == L.Lead(before, id, c) && m != id && m !in c
      modifies this
      ensures Distinct(flight) && State() == L.Lead(before, id, c + [m]) && w == before.flight[m]
    {
      JoinStep(before, id, c, m);
      var i := Find(m);
      w := flight[i];
      Put(w.(stage := L.Carried(id)));
      i := Find(id);
      var self := flight[i];
      Put(self.(carries := self.carries + [m]));
    }

    /** A verdict found, a wait, or a send of a load `c` that nothing ready can extend. */
    method Lead(id: nat) returns (lead: Led, ghost c: seq<nat>)
      requires Valid()
      requires id in done || id in ByTicket(flight)
      requires id !in done ==> ByTicket(flight)[id].stage == L.Ready || ByTicket(flight)[id].stage.Carried?
      modifies this
      ensures Valid()
      ensures id in old(done) ==>
        lead == Done(old(done)[id]) && State() == old(State()).(done := old(done) - {id})
      ensures id !in old(done) && old(ByTicket(flight))[id].stage.Carried? ==> lead == Wait && State() == old(State())
      ensures id !in old(done) && old(ByTicket(flight))[id].stage == L.Ready ==>
        && L.Greedy(old(State()), id, c) && State() == L.Lead(old(State()), id, c)
        && L.InHand(State(), id) && lead == Send(L.SentEntry(State(), id))
    {
      ghost var before := State();
      c := [];
      if id in done {
        lead := Done(done[id]);
        done := done - {id};
        L.DoneKeeps(before, id);
        return;
      }
      var i := Find(id);
      var w := flight[i];
      if w.stage.Carried? {
        return Wait, [];
      }
      Put(w.(stage := L.Sending));
      assert L.Good(before, id);
      assert State().flight == L.Lead(before, id, []).flight;
      c := GrowLoad(id, w, before);
      L.LeadKeeps(before, id, c);
      L.LeadSends(before, id, c);
      var sent := SentEntry(id);
      lead := Send(sent);
    }

    method GrowLoad(id: nat, w: L.InFlight, ghost before: L.Lanes) returns (c: seq<nat>)
      requires Distinct(flight) && id in before.flight && w == before.flight[id]
      requires L.Joinable(before, id, []) && State() == L.Lead(before, id, [])
      modifies this
      ensures Distinct(flight) && L.Greedy(before, id, c) && State() == L.Lead(before, id, c)
    {
      c := [];
      assert L.Load(before.flight, id, []) == w.entry.records;
      if w.alone || w.entry.records == [] {
        return;
      }
      var end: nat, records: nat, bytes: nat := w.entry.End(), |w.entry.records|, L.Bytes(w.entry.records);
      var more := true;
      while more
        invariant Distinct(flight) && L.Grown(before, id, c, end, records, bytes)
        invariant State() == L.Lead(before, id, c)
        invariant !more ==> L.Greedy(before, id, c)
        decreases more, if records <= L.MERGE_RECORDS then L.MERGE_RECORDS + 1 - records else 0
      {
        c, end, records, bytes, more := GrowStep(id, w, c, end, records, bytes, before);
      }
    }

    method GrowStep(id: nat, w: L.InFlight, c: seq<nat>, end: nat, records: nat, bytes: nat, ghost before: L.Lanes)
      returns (c': seq<nat>, end': nat, records': nat, bytes': nat, more: bool)
      requires Distinct(flight) && L.Grown(before, id, c, end, records, bytes) && w == before.flight[id]
      requires State() == L.Lead(before, id, c)
      modifies this
      ensures Distinct(flight) && L.Grown(before, id, c', end', records', bytes')
      ensures State() == L.Lead(before, id, c')
      ensures if more then records < records' <= L.MERGE_RECORDS else L.Greedy(before, id, c')
    {
      var next := Next(w.entry.leader, end, records, bytes);
      if next.None? {
        L.GrownOut(before, id, c, end, records, bytes);
        return c, end, records, bytes, false;
      }
      var m := next.value;
      L.FollowsBoth(before, id, c, m, w.entry.leader, records, bytes);
      L.JoinGrows(before, id, c, m);
      var other := Join(id, c, m, before);
      return c + [m], end + |other.entry.records|, records + |other.entry.records|,
        bytes + L.Bytes(other.entry.records), true;
    }

    /** A uuid that leads is given only when no new term was asked for. */
    method BeginClaim(anew: bool, mint: Uuid) returns (uuid: Uuid, led: bool)
      requires Valid() && L.Unspent(State(), mint)
      modifies this
      ensures Valid() && State() == L.BeginClaim(old(State()), anew, mint)
      ensures uuid == writer.mine && led == writer.leads && (anew ==> !led)
    {
      L.BeginClaimKeeps(State(), anew, mint);
      if anew {
        writer := writer.BeginTerm(mint);
        assert writer.Owner() == None;
      }
      uuid, led := writer.mine, writer.Owner().Some?;
    }

    /** A claim of a uuid spent meanwhile changes nothing. */
    method Claimed(uuid: Uuid, claim: W.Claim, mint: Uuid)
      requires Valid() && L.Unspent(State(), mint)
      modifies this
      ensures Valid() && State() == L.Claimed(old(State()), uuid, claim, mint)
    {
      ghost var before := State();
      L.ClaimedKeeps(before, uuid, claim, mint);
      if writer.mine != uuid {
        return;
      }
      if writer.Owner() == Some(uuid) {
        if L.ClaimView(claim).Some? {
          Observe(uuid, L.ClaimView(claim).value, mint);
        }
        return;
      }
      writer := writer.Claimed(claim, mint);
      if writer.Owner() == Some(uuid) {
        forall k | k in before.flight
          ensures before.flight[k].entry.leader != uuid
        {
          assert L.Good(before, k);
        }
        ahead := writer.nextSeq;
        broken := false;
      }
    }
  }
}
