/**
  Claims of one journal by any number of clients, each by a read and a `SetLeader`
  over the leader it read. A `SetLeader` is proposed once, and decided any time later
  or never. When does a uuid lead at most one term, which the finality of `NotWritten`
  rests on? Exactly when no client asks under a uuid that led, or whose earlier ask is
  under way over the leader in force.
  */
module Claims {
  import opened Common
  import opened Journal
  import S = Settle

  /** What became of an ask. */
  datatype Status = Undecided | Won | Lost

  datatype Ask = Ask(mint: Uuid, prior: Option<Uuid>, status: Status) {
    function Command(): Command { SetLeader(mint, prior) }
  }

  datatype Sys = Sys(base: Journal, j: Journal, decided: seq<Command>, seen: set<View>, asks: map<nat, Ask>)

  datatype Event =
    | Send(id: nat, uuid: Uuid, view: View, mode: S.ClaimMode)
    | Decide(id: nat)
    | Other(command: Command)

  ghost predicate Enabled(s: Sys, ev: Event) {
    match ev
    case Send(id, uuid, view, mode) =>
      id !in s.asks && uuid != 0 && view in s.seen && S.ClaimAs(view, uuid, mode).Ask?
    case Decide(id) => id in s.asks && s.asks[id].status == Undecided
    case Other(c) => !c.SetLeader?
  }

  function Slot(s: Sys, c: Command): Sys {
    var j := Apply(Single, s.j, c).0;
    s.(j := j, decided := s.decided + [c], seen := s.seen + {ViewOf(j.state)})
  }

  function Next(s: Sys, ev: Event): Sys
    requires Enabled(s, ev)
  {
    match ev
    case Send(id, uuid, view, mode) => s.(asks := s.asks[id := Ask(uuid, view.leader, Undecided)])
    case Decide(id) =>
      var a := s.asks[id];
      Slot(s, a.Command()).(
        asks := s.asks[id := a.(status := if Apply(Single, s.j, a.Command()).1.Leader? then Won else Lost)])
    case Other(c) => Slot(s, c)
  }

  ghost predicate Init(s: Sys) {
    Valid(s.j) && s.base == s.j && s.decided == [] && s.seen == {ViewOf(s.j.state)} && s.asks == map[]
  }

  ghost predicate IsRun(s: Sys, events: seq<Event>)
    decreases |events|
  {
    events == [] || (Enabled(s, events[0]) && IsRun(Next(s, events[0]), events[1..]))
  }

  ghost function Reached(s: Sys, events: seq<Event>): Sys
    requires IsRun(s, events)
    decreases |events|
  {
    if events == [] then s else Reached(Next(s, events[0]), events[1..])
  }

  // ---- When a uuid is asked for ----

  /** The ask may win in the next slot. */
  ghost predicate InForce(s: Sys, id: nat) {
    id in s.asks && s.asks[id].status == Undecided && s.asks[id].prior == s.j.state.leader
  }

  /** The uuid led, or an ask of it under way may yet win. */
  ghost predicate Danger(s: Sys, uuid: Uuid) {
    uuid in s.j.led || exists id :: InForce(s, id) && s.asks[id].mint == uuid
  }

  /** The run asks only under uuids out of danger. */
  ghost predicate Careful(s: Sys, events: seq<Event>)
    requires IsRun(s, events)
    decreases |events|
  {
    events == [] ||
      ((events[0].Send? ==> !Danger(s, events[0].uuid)) && Careful(Next(s, events[0]), events[1..]))
  }

  /** What a client can tell: the uuid is new to the journal, and every ask of it was answered lost. */
  ghost predicate AllLost(s: Sys, uuid: Uuid) {
    uuid !in s.base.led && forall id :: id in s.asks && s.asks[id].mint == uuid ==> s.asks[id].status == Lost
  }

  // ---- What every careful run keeps ----

  /** The leader `prior`, or that there was none, lies behind. */
  ghost predicate Past(j: Journal, prior: Option<Uuid>) {
    j.state.leader.Some? && j.state.leader != prior && (prior.Some? ==> prior.value in j.led)
  }

  ghost predicate AskOk(s: Sys, id: nat)
    requires id in s.asks
  {
    var a := s.asks[id];
    && a.mint != 0 && a.prior != Some(a.mint)
    && (a.prior == s.j.state.leader || Past(s.j, a.prior))
    && (InForce(s, id) ==> a.mint !in s.j.led)
  }

  ghost predicate WonBy(s: Sys, uuid: Uuid) {
    exists id :: id in s.asks && s.asks[id].mint == uuid && s.asks[id].status == Won
  }

  ghost predicate Asks(s: Sys) {
    && (forall id {:trigger AskOk(s, id)} :: id in s.asks ==> AskOk(s, id))
    && (forall a, b {:trigger InForce(s, a), InForce(s, b)} ::
          InForce(s, a) && InForce(s, b) && a != b ==> s.asks[a].mint != s.asks[b].mint)
    && (forall u {:trigger WonBy(s, u)} :: u in s.j.led && u !in s.base.led ==> WonBy(s, u))
  }

  ghost predicate Inv(s: Sys) {
    && Valid(s.base) && Valid(s.j) && s.j == After(s.base, s.decided) && FreshRun(s.base, s.decided)
    && (forall v {:trigger v in s.seen} :: v in s.seen ==> v.leader == s.j.state.leader || Past(s.j, v.leader))
    && Asks(s)
  }

  lemma InitInv(s: Sys)
    requires Init(s)
    ensures Inv(s)
  {
  }

  lemma SlotHistory(s: Sys, c: Command)
    requires Valid(s.base) && Valid(s.j) && s.j == After(s.base, s.decided) && FreshRun(s.base, s.decided)
    requires FreshStep(s.j, c)
    ensures var t := Slot(s, c);
      Valid(t.j) && t.j == After(t.base, t.decided) && FreshRun(t.base, t.decided) && s.j.led <= t.j.led
  {
    ApplyKeepsValid(Single, s.j, c);
    ApplyMoves(Single, s.j, c);
    AfterBoth(s.base, s.decided, [c]);
    assert After(s.j, [c]) == Apply(Single, s.j, c).0;
  }

  /** A leader that lies behind stays behind, and one in force stays or falls behind. */
  lemma PastStays(j: Journal, c: Command, prior: Option<Uuid>)
    requires Valid(j) && FreshStep(j, c) && (prior == j.state.leader || Past(j, prior))
    ensures var k := Apply(Single, j, c).0;
      && (prior == k.state.leader || Past(k, prior))
      && (Past(j, prior) ==> Past(k, prior))
      && (Apply(Single, j, c).1.Leader? ==> Past(k, prior))
  {
    ApplyKeepsValid(Single, j, c);
    ApplyMoves(Single, j, c);
  }

  lemma SeenStays(s: Sys, c: Command)
    requires Inv(s) && FreshStep(s.j, c)
    ensures var t := Slot(s, c);
      forall v {:trigger v in t.seen} :: v in t.seen ==> v.leader == t.j.state.leader || Past(t.j, v.leader)
  {
    var t := Slot(s, c);
    forall v | v in t.seen
      ensures v.leader == t.j.state.leader || Past(t.j, v.leader)
    {
      if v in s.seen {
        PastStays(s.j, c, v.leader);
      }
    }
  }

  lemma OtherKeeps(s: Sys, c: Command)
    requires Inv(s) && Enabled(s, Other(c))
    ensures Inv(Next(s, Other(c)))
  {
    var t := Next(s, Other(c));
    assert !Apply(Single, s.j, c).1.Leader?;
    ApplyMoves(Single, s.j, c);
    SlotHistory(s, c);
    SeenStays(s, c);
    forall id | id in t.asks
      ensures AskOk(t, id)
    {
      assert AskOk(s, id);
      PastStays(s.j, c, s.asks[id].prior);
    }
    forall a, b | InForce(t, a) && InForce(t, b) && a != b
      ensures t.asks[a].mint != t.asks[b].mint
    {
      assert InForce(s, a) && InForce(s, b);
    }
    forall u | u in t.j.led && u !in t.base.led
      ensures WonBy(t, u)
    {
      assert WonBy(s, u);
    }
  }

  lemma SendKeeps(s: Sys, ev: Event)
    requires Inv(s) && ev.Send? && Enabled(s, ev) && !Danger(s, ev.uuid)
    ensures Inv(Next(s, ev))
  {
    var t := Next(s, ev);
    forall id | id in t.asks
      ensures AskOk(t, id)
    {
      if id != ev.id {
        assert AskOk(s, id);
      }
    }
    forall a, b | InForce(t, a) && InForce(t, b) && a != b
      ensures t.asks[a].mint != t.asks[b].mint
    {
      assert a != ev.id ==> InForce(s, a);
      assert b != ev.id ==> InForce(s, b);
    }
    forall u | u in t.j.led && u !in t.base.led
      ensures WonBy(t, u)
    {
      assert WonBy(s, u);
      var id :| id in s.asks && s.asks[id].mint == u && s.asks[id].status == Won;
      assert t.asks[id] == s.asks[id];
    }
  }

  /** A slot that gives a uuid its term: the first it leads. */
  lemma DecideFresh(s: Sys, id: nat)
    requires Inv(s) && Enabled(s, Decide(id))
    ensures FreshStep(s.j, s.asks[id].Command())
    ensures Apply(Single, s.j, s.asks[id].Command()).1.Leader? <==> InForce(s, id)
  {
    assert AskOk(s, id);
  }

  lemma DecideAsks(s: Sys, id: nat, k: nat)
    requires Inv(s) && Enabled(s, Decide(id)) && k in s.asks
    ensures AskOk(Next(s, Decide(id)), k)
    ensures InForce(Next(s, Decide(id)), k) ==> k != id && InForce(s, k) && !InForce(s, id)
  {
    var c := s.asks[id].Command();
    DecideFresh(s, id);
    assert AskOk(s, k);
    ApplyMoves(Single, s.j, c);
    PastStays(s.j, c, s.asks[k].prior);
  }

  lemma DecideWon(s: Sys, id: nat, u: Uuid)
    requires Inv(s) && Enabled(s, Decide(id)) && u in Next(s, Decide(id)).j.led && u !in s.base.led
    ensures WonBy(Next(s, Decide(id)), u)
  {
    var t := Next(s, Decide(id));
    if u in s.j.led {
      assert WonBy(s, u);
      var k :| k in s.asks && s.asks[k].mint == u && s.asks[k].status == Won;
      assert t.asks[k] == s.asks[k];
    } else {
      assert t.asks[id].mint == u && t.asks[id].status == Won;
    }
  }

  lemma DecideKeeps(s: Sys, id: nat)
    requires Inv(s) && Enabled(s, Decide(id))
    ensures Inv(Next(s, Decide(id)))
  {
    var t := Next(s, Decide(id));
    var c := s.asks[id].Command();
    DecideFresh(s, id);
    SlotHistory(s, c);
    SeenStays(s, c);
    forall k | k in t.asks
      ensures AskOk(t, k)
    {
      DecideAsks(s, id, k);
    }
    forall a, b | InForce(t, a) && InForce(t, b) && a != b
      ensures t.asks[a].mint != t.asks[b].mint
    {
      DecideAsks(s, id, a);
      DecideAsks(s, id, b);
    }
    forall u | u in t.j.led && u !in t.base.led
      ensures WonBy(t, u)
    {
      DecideWon(s, id, u);
    }
  }

  lemma {:induction false} CarefulKeeps(s: Sys, events: seq<Event>)
    requires Inv(s) && IsRun(s, events) && Careful(s, events)
    ensures Inv(Reached(s, events)) && Reached(s, events).base == s.base
    decreases |events|
  {
    if events != [] {
      match events[0] {
        case Send(_, _, _, _) => SendKeeps(s, events[0]);
        case Decide(id) => DecideKeeps(s, id);
        case Other(c) => OtherKeeps(s, c);
      }
      CarefulKeeps(Next(s, events[0]), events[1..]);
    }
  }

  // ---- Exactly when ----

  /**
    Over every interleaving of careful clients no uuid leads twice: the commands the
    journal decided are a run in which each uuid that won had never led.
    */
  lemma CarefulIsFresh(s: Sys, events: seq<Event>)
    requires Init(s) && IsRun(s, events) && Careful(s, events)
    ensures var t := Reached(s, events);
      t.j == After(s.j, t.decided) && FreshRun(s.j, t.decided)
  {
    InitInv(s);
    CarefulKeeps(s, events);
  }

  lemma {:induction false} FencedForGood(s: Sys, events: seq<Event>, request: Entry)
    requires Inv(s) && IsRun(s, events) && Careful(s, events) && Dead(s.j, request)
    ensures request !in Reached(s, events).j.held
    decreases |events|
  {
    if events != [] {
      var one := [events[0]];
      assert one[1..] == [];
      CarefulKeeps(s, one);
      match events[0] {
        case Send(_, _, _, _) =>
        case Decide(id) =>
          DecideFresh(s, id);
          DeadStays(s.j, s.asks[id].Command(), request);
        case Other(c) =>
          ApplyMoves(Single, s.j, c);
          DeadStays(s.j, c, request);
      }
      FencedForGood(Next(s, events[0]), events[1..], request);
    }
  }

  /** So among careful clients a write settled `NotWritten` is never in the journal, whatever is decided later. */
  lemma NotWrittenIsFinal(s: Sys, events: seq<Event>, more: seq<Event>, request: Entry, r: S.Resolution)
    requires Init(s) && IsRun(s, events) && Careful(s, events)
    requires IsRun(Reached(s, events), more) && Careful(Reached(s, events), more)
    requires r.NotWritten? && S.Right(Reached(s, events).j, request, r)
    ensures request !in Reached(Reached(s, events), more).j.held
  {
    InitInv(s);
    CarefulKeeps(s, events);
    FencedForGood(Reached(s, events), more, request);
  }

  /** What a client can tell is enough: a new uuid, all of whose asks were answered lost, is out of danger. */
  lemma LostIsCareful(s: Sys, events: seq<Event>, uuid: Uuid)
    requires Init(s) && IsRun(s, events) && Careful(s, events) && AllLost(Reached(s, events), uuid)
    ensures !Danger(Reached(s, events), uuid)
  {
    InitInv(s);
    CarefulKeeps(s, events);
    var t := Reached(s, events);
    assert uuid in t.j.led ==> WonBy(t, uuid);
  }

  /** The next claim of `uuid` reads the leader in force and asks over it. */
  lemma AskOver(s: Sys, uuid: Uuid, id: nat)
    requires Valid(s.j) && ViewOf(s.j.state) in s.seen && uuid != 0 && s.j.state.leader != Some(uuid) && id !in s.asks
    ensures var ev := Send(id, uuid, ViewOf(s.j.state), S.Fresh);
      Enabled(s, ev) && InForce(Next(s, ev), id) && Next(s, ev).asks[id].mint == uuid
  {
  }

  /** An ask in force makes its uuid lead. */
  lemma Takes(s: Sys, id: nat)
    requires Valid(s.j) && InForce(s, id) && s.asks[id].mint != 0 && s.j.state.leader != Some(s.asks[id].mint)
    ensures Enabled(s, Decide(id))
    ensures var t := Next(s, Decide(id));
      && Valid(t.j) && t.j.state.leader == Some(s.asks[id].mint) && s.asks[id].mint in t.j.led
      && ViewOf(t.j.state) in t.seen && t.asks.Keys == s.asks.Keys && s.j.led <= t.j.led
  {
    ApplyKeepsValid(Single, s.j, s.asks[id].Command());
  }

  /**
    From any state in which a uuid is in danger, one more claim of it makes it lead a
    second term in some continuation: after the ask under way won unheard, and another
    leader followed, the claim reads that leader and wins over it.
    */
  lemma DangerLeadsTwice(s: Sys, uuid: Uuid, rival: Uuid, id: nat) returns (events: seq<Event>)
    requires Valid(s.j) && ViewOf(s.j.state) in s.seen && uuid != 0 && Danger(s, uuid)
    requires rival != 0 && rival != uuid && rival !in s.j.led && id !in s.asks && id + 1 !in s.asks
    ensures IsRun(s, events)
    ensures var t := Reached(s, events);
      && id in t.asks && t.asks[id].mint == uuid && t.asks[id].status == Undecided
      && Apply(Single, t.j, t.asks[id].Command()).1.Leader? && !FreshStep(t.j, t.asks[id].Command())
  {
    if uuid in s.j.led && s.j.state.leader != Some(uuid) {
      AskOver(s, uuid, id);
      var ev := Send(id, uuid, ViewOf(s.j.state), S.Fresh);
      events := [ev];
      OneStep(s, ev);
    } else if uuid in s.j.led {
      events := DeposedLeadsTwice(s, uuid, rival, id);
    } else {
      var k :| InForce(s, k) && s.asks[k].mint == uuid;
      Takes(s, k);
      var t := Next(s, Decide(k));
      var more := DeposedLeadsTwice(t, uuid, rival, id);
      events := [Decide(k)] + more;
      assert events[1..] == more;
    }
  }

  lemma OneStep(s: Sys, ev: Event)
    requires Enabled(s, ev)
    ensures IsRun(s, [ev]) && Reached(s, [ev]) == Next(s, ev)
  {
    assert [ev][1..] == [];
  }

  /** The uuid leads now: a rival follows it, and it is claimed again. */
  lemma DeposedLeadsTwice(s: Sys, uuid: Uuid, rival: Uuid, id: nat) returns (events: seq<Event>)
    requires Valid(s.j) && ViewOf(s.j.state) in s.seen && s.j.state.leader == Some(uuid) && uuid != 0
    requires rival != 0 && rival != uuid && id !in s.asks && id + 1 !in s.asks
    ensures IsRun(s, events)
    ensures var t := Reached(s, events);
      && id in t.asks && t.asks[id].mint == uuid && t.asks[id].status == Undecided
      && Apply(Single, t.j, t.asks[id].Command()).1.Leader? && !FreshStep(t.j, t.asks[id].Command())
  {
    AskOver(s, rival, id + 1);
    var one := Send(id + 1, rival, ViewOf(s.j.state), S.Fresh);
    var t := Next(s, one);
    Takes(t, id + 1);
    var u := Next(t, Decide(id + 1));
    AskOver(u, uuid, id);
    var again := Send(id, uuid, ViewOf(u.j.state), S.Fresh);
    events := [one, Decide(id + 1), again];
    OneStep(u, again);
    assert events[1..] == [Decide(id + 1), again] && events[1..][1..] == [again];
    assert IsRun(t, events[1..]) && Reached(t, events[1..]) == Next(u, again);
  }
}
