/**
  Whole runs of the tenant lifecycle over its two journals. Sessions claim the
  directory, fold it, decide from their own fold, write at their own writer's next
  position, lose answers, save checkpoints, crash and race; a coordinator may hold any
  old prefix of the directory and of its own registry; a write may land long after
  whoever sent it went away. The directory takes a record only at its tail.
  */
module FleetRuns {
  import opened Common
  import opened Fleet

  /**
    An operator's entry: the position it asks for, and what it was decided from: a
    fold of `basis` records of the directory and of `read` entries of the tenant's cell.
    */
  datatype Request = Request(at: nat, basis: nat, cell: nat, read: nat, op: Operation, command: DirectoryCommand)

  /** A record of the directory journal: an entry, with the request that put it there, or one of a checkpoint run. */
  datatype Slot = Entry(request: Request) | Run

  function Stepped(d: Directory, r: Slot): Directory {
    if r.Entry? then ApplyDirectory(d, r.request.command).0 else d
  }

  function Directed(base: Directory, log: seq<Slot>): Directory {
    if log == [] then base else Stepped(Directed(base, log[..|log| - 1]), log[|log| - 1])
  }

  function Registered(log: seq<CellCommand>): Registry {
    if log == [] then NOTHING else ApplyCell(Registered(log[..|log| - 1]), log[|log| - 1])
  }

  datatype CellRequest = CellRequest(cell: nat, command: CellCommand)

  /** What a session is in the middle of. */
  datatype Phase = Idle | Opening | Asked(request: Request) | Catching | Saving

  datatype Session = Session(owner: Owner, phase: Phase)

  datatype Sys = Sys(
    base: Directory,
    log: seq<Slot>,
    sessions: map<nat, Session>,
    cells: map<nat, seq<CellCommand>>,
    sent: set<Request>,
    runs: set<nat>,
    cellSent: set<CellRequest>)

  datatype Event =
    | Arrive(id: nat)
    | Crash(id: nat)
    | Claim(id: nat, tail: nat)
    | Page(id: nat)
    | Opened(id: nat)
    | Behind(id: nat)
    | Decide(id: nat, cell: nat, read: nat, op: Operation)
    | Wrote(id: nat, seen: nat)
    | NotWritten(id: nat, seen: nat)
    | Caught(id: nat)
    | Save(id: nat)
    | Saved(id: nat)
    | SaveFailed(id: nat, seen: nat)
    | Close(id: nat)
    | Land(request: Request)
    | LandRun(at: nat)
    | CellDecide(cell: nat, basis: nat, read: nat, tenant: TenantId, fits: Option<bool>)
    | CellLand(cellRequest: CellRequest)

  function CellLog(s: Sys, cell: nat): seq<CellCommand> { if cell in s.cells then s.cells[cell] else [] }

  /** The cell whose registry a step of `op` looks at. */
  predicate LooksAt(d: Directory, op: Operation, cell: nat) {
    Named(d, op.name).Some? ==> d.tenants[Named(d, op.name).value].cell == cell
  }

  /** What a step of `op` decides from `d` and the first `read` entries of `cell`, if it writes. */
  function Decision(s: Sys, d: Directory, cell: nat, read: nat, op: Operation): Option<DirectoryCommand>
    requires read <= |CellLog(s, cell)|
  {
    if LooksAt(d, op, cell) && (op.Create? && op.place.Some? ==> op.place.value in d.cells)
    then CommandOf(StepOf(op, d, Registered(CellLog(s, cell)[..read]))) else None
  }

  /** The request was decided from the fold of `basis` records. */
  ghost predicate Decided(s: Sys, q: Request) {
    && q.basis <= |s.log| && q.read <= |CellLog(s, q.cell)|
    && Decision(s, Directed(s.base, s.log[..q.basis]), q.cell, q.read, q.op) == Some(q.command)
  }

  function CellStep(s: Sys, ev: Event): Option<CellCommand>
    requires ev.CellDecide? && ev.basis <= |s.log| && ev.read <= |CellLog(s, ev.cell)|
  {
    var d := Directed(s.base, s.log[..ev.basis]);
    if ev.tenant !in d.tenants || d.tenants[ev.tenant].cell != ev.cell then None
    else TenantStep(Registered(CellLog(s, ev.cell)[..ev.read]), ev.tenant, d.tenants[ev.tenant], ev.fits)
  }

  /** Session `id` is in phase `p`. */
  predicate In(s: Sys, id: nat, p: Phase) { id in s.sessions && s.sessions[id].phase == p }

  ghost predicate Enabled(s: Sys, ev: Event) {
    match ev
    case Arrive(id) => id !in s.sessions
    case Crash(id) => id in s.sessions
    case Claim(id, tail) => In(s, id, Idle) && !s.sessions[id].owner.open && tail <= |s.log|
    case Page(id) => (In(s, id, Opening) || In(s, id, Catching)) && s.sessions[id].owner.folded < |s.log|
    case Opened(id) => In(s, id, Opening)
    case Behind(id) => In(s, id, Opening) || In(s, id, Catching)
    case Decide(id, cell, read, op) =>
      && In(s, id, Idle) && s.sessions[id].owner.open && read <= |CellLog(s, cell)|
      && Decision(s, s.sessions[id].owner.directory, cell, read, op).Some?
    case Wrote(id, seen) =>
      && id in s.sessions && s.sessions[id].phase.Asked? && seen <= |s.log|
      && var q := s.sessions[id].phase.request;
      && q.at < |s.log| && s.log[q.at].Entry? && s.log[q.at].request.command == q.command
    case NotWritten(id, seen) => id in s.sessions && s.sessions[id].phase.Asked? && seen <= |s.log|
    case Caught(id) => In(s, id, Catching) && s.sessions[id].owner.next <= s.sessions[id].owner.folded
    case Save(id) =>
      In(s, id, Idle) && s.sessions[id].owner.open && s.sessions[id].owner.folded == s.sessions[id].owner.next
    case Saved(id) =>
      In(s, id, Saving) && s.sessions[id].owner.next < |s.log| && s.log[s.sessions[id].owner.next].Run?
    case SaveFailed(id, seen) => In(s, id, Saving) && seen <= |s.log|
    case Close(id) => In(s, id, Idle)
    case Land(q) => q in s.sent && q.at == |s.log|
    case LandRun(at) => at in s.runs && at == |s.log|
    case CellDecide(cell, basis, read, _, _) =>
      && cell in s.cells && basis <= |s.log| && read <= |CellLog(s, cell)| && CellStep(s, ev).Some?
    case CellLand(q) => q in s.cellSent
  }

  function Put(s: Sys, id: nat, owner: Owner, phase: Phase): Sys {
    s.(sessions := s.sessions[id := Session(owner, phase)])
  }

  /** The session asks for its entry at its writer's next position, as decided from its own fold. */
  function Asking(s: Sys, id: nat, cell: nat, read: nat, op: Operation): Request
    requires id in s.sessions && read <= |CellLog(s, cell)|
    requires Decision(s, s.sessions[id].owner.directory, cell, read, op).Some?
  {
    var o := s.sessions[id].owner;
    Request(o.next, o.folded, cell, read, op, Decision(s, o.directory, cell, read, op).value)
  }

  function Next(s: Sys, ev: Event): Sys
    requires Enabled(s, ev)
  {
    match ev
    case Arrive(id) => Put(s, id, Owner(false, 0, s.base, 0), Idle)
    case Crash(id) => s.(sessions := s.sessions - {id})
    case Claim(id, tail) => Put(s, id, Claimed(s.sessions[id].owner, tail), Opening)
    case Page(id) =>
      var o := s.sessions[id].owner;
      Put(s, id, Loaded(o, Stepped(o.directory, s.log[o.folded]), o.folded + 1), s.sessions[id].phase)
    case Opened(id) => Put(s, id, OpenedAt(s.sessions[id].owner), Idle)
    case Behind(id) => Put(s, id, Closed(s.sessions[id].owner, 0), Idle)
    case Decide(id, cell, read, op) =>
      var q := Asking(s, id, cell, read, op);
      Put(s, id, s.sessions[id].owner, Asked(q)).(sent := s.sent + {q})
    case Wrote(id, seen) =>
      var q := s.sessions[id].phase.request;
      var o := Written(s.sessions[id].owner, q.at, q.command, seen);
      Put(s, id, o, if o.folded < o.next then Catching else Idle)
    case NotWritten(id, seen) => Put(s, id, Closed(s.sessions[id].owner, seen), Idle)
    case Caught(id) => Put(s, id, s.sessions[id].owner, Idle)
    case Save(id) => Put(s, id, s.sessions[id].owner, Saving).(runs := s.runs + {s.sessions[id].owner.next})
    case Saved(id) => Put(s, id, SavedAt(s.sessions[id].owner, 1), Idle)
    case SaveFailed(id, seen) => Put(s, id, Closed(s.sessions[id].owner, seen), Idle)
    case Close(id) => Put(s, id, Closed(s.sessions[id].owner, 0), Idle)
    case Land(q) => s.(log := s.log + [Entry(q)])
    case LandRun(_) => s.(log := s.log + [Run])
    case CellDecide(cell, _, _, _, _) => s.(cellSent := s.cellSent + {CellRequest(cell, CellStep(s, ev).value)})
    case CellLand(q) => s.(cells := s.cells[q.cell := CellLog(s, q.cell) + [q.command]])
  }

  ghost predicate Init(s: Sys) {
    && s.base.tenants == map[] && s.base.names == map[] && s.base.removed == map[]
    && s.log == [] && s.sessions == map[] && s.sent == {} && s.runs == {} && s.cellSent == {}
    && forall c :: c in s.cells ==> s.cells[c] == []
  }

  // ---- Prefixes ----

  lemma DirectedStep(base: Directory, log: seq<Slot>, p: nat)
    requires p < |log|
    ensures Directed(base, log[..p + 1]) == Stepped(Directed(base, log[..p]), log[p])
  {
    assert log[..p + 1][..p] == log[..p];
  }

  lemma RegisteredStep(log: seq<CellCommand>, p: nat)
    requires p < |log|
    ensures Registered(log[..p + 1]) == ApplyCell(Registered(log[..p]), log[p])
  {
    assert log[..p + 1][..p] == log[..p];
  }

  lemma SteppedKeeps(d: Directory, r: Slot)
    requires ValidDirectory(d)
    ensures ValidDirectory(Stepped(d, r)) && Stepped(d, r).cells == d.cells
  {
    if r.Entry? {
      ApplyDirectoryKeeps(d, r.request.command);
    }
  }

  lemma {:induction false} DirectedValid(base: Directory, log: seq<Slot>)
    requires ValidDirectory(base)
    ensures ValidDirectory(Directed(base, log)) && Directed(base, log).cells == base.cells
    decreases |log|
  {
    if log != [] {
      DirectedValid(base, log[..|log| - 1]);
      SteppedKeeps(Directed(base, log[..|log| - 1]), log[|log| - 1]);
    }
  }

  /** The directory was told to remove `t`. */
  ghost predicate Leaving(d: Directory, t: TenantId) {
    t in d.removed || (t in d.tenants && d.tenants[t].state == Removing)
  }

  /** Once leaving, a tenant never comes back. */
  lemma {:induction false} LeavingStays(base: Directory, log: seq<Slot>, p: nat, t: TenantId)
    requires ValidDirectory(base) && p <= |log| && Leaving(Directed(base, log[..p]), t)
    ensures Leaving(Directed(base, log), t)
    decreases |log| - p
  {
    if p == |log| {
      assert log[..p] == log;
    } else {
      DirectedStep(base, log, p);
      LeavingStays(base, log, p + 1, t);
    }
  }

  lemma {:induction false} DroppedStays(log: seq<CellCommand>, p: nat, t: TenantId)
    requires p <= |log| && t in Registered(log[..p]).dropped
    ensures t in Registered(log).dropped
    decreases |log| - p
  {
    if p == |log| {
      assert log[..p] == log;
    } else {
      RegisteredStep(log, p);
      DroppedStays(log, p + 1, t);
    }
  }

  /** A tombstone is written by a drop. */
  lemma {:induction false} DroppedByDrop(log: seq<CellCommand>, t: TenantId)
    ensures t in Registered(log).dropped <==> Drop(t) in log
    decreases |log|
  {
    if log != [] {
      var n := |log| - 1;
      assert log == log[..n] + [log[n]];
      DroppedByDrop(log[..n], t);
    }
  }

  lemma {:induction false} HostedStays(log: seq<CellCommand>, p: nat, t: TenantId)
    requires p <= |log| && t in Registered(log[..p]).hosted && Drop(t) !in log
    ensures t in Registered(log).hosted
    decreases |log| - p
  {
    if p == |log| {
      assert log[..p] == log;
    } else {
      RegisteredStep(log, p);
      assert log[p] in log;
      HostedStays(log, p + 1, t);
    }
  }

  /** The first answer to a footprint stands. */
  lemma {:induction false} FootprintStays(log: seq<CellCommand>, p: nat, t: TenantId)
    requires p <= |log| && t in Registered(log[..p]).footprints
    ensures t in Registered(log).footprints && Registered(log).footprints[t] == Registered(log[..p]).footprints[t]
    decreases |log|
  {
    if p == |log| {
      assert log[..p] == log;
    } else {
      assert log[..|log| - 1][..p] == log[..p];
      FootprintStays(log[..|log| - 1], p, t);
    }
  }

  /** A cell hosts a tenant only with a footprint it granted. */
  lemma {:induction false} HostedIsGranted(log: seq<CellCommand>, t: TenantId)
    requires t in Registered(log).hosted
    ensures t in Registered(log).footprints && Registered(log).footprints[t]
    decreases |log|
  {
    if log[|log| - 1] != Host(t) || t in Registered(log[..|log| - 1]).hosted {
      HostedIsGranted(log[..|log| - 1], t);
    }
  }

  /** No cell hosts a tenant it dropped. */
  lemma {:induction false} DroppedNotHosted(log: seq<CellCommand>)
    ensures Registered(log).hosted !! Registered(log).dropped
    decreases |log|
  {
    if log != [] {
      DroppedNotHosted(log[..|log| - 1]);
    }
  }

  // ---- What every run keeps ----

  ghost predicate Serving(s: Sys, t: TenantId, e: TenantEntry) {
    e.state == Ready ==>
      t in Registered(CellLog(s, e.cell)).hosted && t !in Registered(CellLog(s, e.cell)).dropped
  }

  ghost predicate DropOk(d: Directory, c: CellCommand) { c.Drop? ==> Leaving(d, c.tenant) }

  ghost predicate CellOk(d: Directory, log: seq<CellCommand>) {
    forall c {:trigger c in log} :: c in log ==> DropOk(d, c)
  }

  ghost predicate Tombstoned(s: Sys, t: TenantId, cell: nat) { t in Registered(CellLog(s, cell)).dropped }

  /** An entry was decided from the fold of exactly the records below it. */
  ghost predicate Told(s: Sys, p: nat)
    requires p < |s.log|
  {
    s.log[p].Entry? ==> s.log[p].request.at == p == s.log[p].request.basis && Decided(s, s.log[p].request)
  }

  /** A request under way was decided from a fold that reaches the position it asks for. */
  ghost predicate SentOk(s: Sys, q: Request) { Decided(s, q) && q.at <= q.basis }

  /**
    A session's fold is the directory's at its own position; while it counts as open,
    and is not catching up, that position is at or past the one its writer goes on at.
    */
  ghost predicate SessionOk(s: Sys, x: Session) {
    var o := x.owner;
    && o.next <= |s.log| && o.folded <= |s.log| && o.directory == Directed(s.base, s.log[..o.folded])
    && (o.open && !x.phase.Catching? ==> o.next <= o.folded)
    && (x.phase.Asked? ==> o.open && x.phase.request.at == o.next)
    && (x.phase.Saving? ==> o.open && o.folded == o.next)
  }

  ghost predicate Inv(s: Sys) {
    && ValidDirectory(s.base) && s.base.tenants == map[] && s.base.removed == map[]
    && (forall q {:trigger SentOk(s, q)} :: q in s.sent ==> SentOk(s, q))
    && (forall p: nat {:trigger Told(s, p)} :: p < |s.log| ==> Told(s, p))
    && (forall id {:trigger s.sessions[id]} :: id in s.sessions ==> SessionOk(s, s.sessions[id]))
    && Lives(s)
  }

  ghost predicate Lives(s: Sys) {
    var d := Directed(s.base, s.log);
    && (forall q {:trigger q in s.cellSent} :: q in s.cellSent ==> DropOk(d, q.command))
    && (forall c {:trigger s.cells[c]} :: c in s.cells ==> CellOk(d, s.cells[c]))
    && (forall t {:trigger d.tenants[t]} :: t in d.tenants ==> Serving(s, t, d.tenants[t]))
    && (forall t {:trigger d.removed[t]} :: t in d.removed ==> Tombstoned(s, t, d.removed[t]))
  }

  lemma InitInv(s: Sys)
    requires Init(s)
    ensures Inv(s)
  {
  }

  /** Both journals only grow, so a decision stays what it was. */
  lemma DecidedStays(s: Sys, t: Sys, q: Request)
    requires Decided(s, q) && t.base == s.base && s.log <= t.log && CellLog(s, q.cell) <= CellLog(t, q.cell)
    ensures Decided(t, q)
  {
    assert t.log[..q.basis] == s.log[..q.basis];
    assert CellLog(t, q.cell)[..q.read] == CellLog(s, q.cell)[..q.read];
  }

  lemma SessionStays(s: Sys, t: Sys, x: Session)
    requires SessionOk(s, x) && t.base == s.base && s.log <= t.log
    ensures SessionOk(t, x)
  {
    assert t.log[..x.owner.folded] == s.log[..x.owner.folded];
  }

  /** What was told stays told, what was sent stays as decided, and every session's fold stays the directory's. */
  lemma GrownStays(s: Sys, t: Sys)
    requires Inv(s) && t.base == s.base && s.log <= t.log
    requires forall c {:trigger CellLog(s, c)} :: CellLog(s, c) <= CellLog(t, c)
    ensures forall q {:trigger SentOk(t, q)} :: q in s.sent ==> SentOk(t, q)
    ensures forall p: nat {:trigger Told(t, p)} :: p < |s.log| ==> Told(t, p)
    ensures forall id {:trigger s.sessions[id]} :: id in s.sessions ==> SessionOk(t, s.sessions[id])
  {
    forall q | q in s.sent
      ensures SentOk(t, q)
    {
      assert SentOk(s, q);
      assert CellLog(s, q.cell) <= CellLog(t, q.cell);
      DecidedStays(s, t, q);
    }
    forall p: nat | p < |s.log|
      ensures Told(t, p)
    {
      assert Told(s, p);
      if s.log[p].Entry? {
        assert CellLog(s, s.log[p].request.cell) <= CellLog(t, s.log[p].request.cell);
        DecidedStays(s, t, s.log[p].request);
      }
    }
    forall id | id in s.sessions
      ensures SessionOk(t, s.sessions[id])
    {
      SessionStays(s, t, s.sessions[id]);
    }
  }

  // ---- Each step ----

  lemma CellDecideKeeps(s: Sys, ev: Event)
    requires Inv(s) && ev.CellDecide? && Enabled(s, ev)
    ensures Inv(Next(s, ev))
  {
    var t := Next(s, ev);
    var c := CellStep(s, ev).value;
    GrownStays(s, t);
    if c.Drop? {
      LeavingStays(s.base, s.log, ev.basis, c.tenant);
    }
    LivesFrame(s, t);
  }

  /** Only the requests under way changed, and each new one may land. */
  lemma LivesFrame(s: Sys, t: Sys)
    requires Lives(s) && t.base == s.base && t.log == s.log && t.cells == s.cells
    requires forall q :: q in t.cellSent && q !in s.cellSent ==> DropOk(Directed(s.base, s.log), q.command)
    ensures Lives(t)
  {
    var d := Directed(s.base, s.log);
    forall x | x in d.tenants
      ensures Serving(t, x, d.tenants[x])
    {
      assert Serving(s, x, d.tenants[x]);
    }
    forall x | x in d.removed
      ensures Tombstoned(t, x, d.removed[x])
    {
      assert Tombstoned(s, x, d.removed[x]);
    }
  }

  /** A command appended to a cell drops only a tenant that is leaving. */
  lemma CellServes(s: Sys, t: Sys, d: Directory, q: CellRequest)
    requires ValidDirectory(d) && DropOk(d, q.command) && t.cells == s.cells[q.cell := CellLog(s, q.cell) + [q.command]]
    requires forall x {:trigger d.tenants[x]} :: x in d.tenants ==> Serving(s, x, d.tenants[x])
    requires forall x {:trigger d.removed[x]} :: x in d.removed ==> Tombstoned(s, x, d.removed[x])
    ensures forall x {:trigger d.tenants[x]} :: x in d.tenants ==> Serving(t, x, d.tenants[x])
    ensures forall x {:trigger d.removed[x]} :: x in d.removed ==> Tombstoned(t, x, d.removed[x])
  {
    var log := CellLog(s, q.cell);
    assert (log + [q.command])[..|log|] == log;
    forall x | x in d.tenants
      ensures Serving(t, x, d.tenants[x])
    {
      assert Serving(s, x, d.tenants[x]);
    }
    forall x | x in d.removed
      ensures Tombstoned(t, x, d.removed[x])
    {
      assert Tombstoned(s, x, d.removed[x]);
    }
  }

  lemma CellsOk(s: Sys, t: Sys, d: Directory, q: CellRequest)
    requires DropOk(d, q.command) && t.cells == s.cells[q.cell := CellLog(s, q.cell) + [q.command]]
    requires forall c {:trigger s.cells[c]} :: c in s.cells ==> CellOk(d, s.cells[c])
    ensures forall c {:trigger t.cells[c]} :: c in t.cells ==> CellOk(d, t.cells[c])
  {
    forall c | c in t.cells
      ensures CellOk(d, t.cells[c])
    {
      assert c in s.cells ==> CellOk(d, s.cells[c]);
    }
  }

  /** A command that lands in a cell drops no tenant the directory still serves. */
  lemma CellLandLives(s: Sys, q: CellRequest)
    requires Inv(s) && Enabled(s, CellLand(q))
    ensures Lives(Next(s, CellLand(q)))
  {
    var t := Next(s, CellLand(q));
    var d := Directed(s.base, s.log);
    assert DropOk(d, q.command);
    DirectedValid(s.base, s.log);
    CellServes(s, t, d, q);
    CellsOk(s, t, d, q);
  }

  lemma CellLandKeeps(s: Sys, q: CellRequest)
    requires Inv(s) && Enabled(s, CellLand(q))
    ensures Inv(Next(s, CellLand(q)))
  {
    GrownStays(s, Next(s, CellLand(q)));
    CellLandLives(s, q);
  }

  /** What lands was decided from the directory it lands on. */
  lemma LandsAsDecided(s: Sys, q: Request)
    requires Inv(s) && Enabled(s, Land(q))
    ensures q.basis == q.at == |s.log| && q.read <= |CellLog(s, q.cell)|
    ensures var d := Directed(s.base, s.log);
      && ValidDirectory(d) && LooksAt(d, q.op, q.cell)
      && (q.op.Create? && q.op.place.Some? ==> q.op.place.value in d.cells)
      && CommandOf(StepOf(q.op, d, Registered(CellLog(s, q.cell)[..q.read]))) == Some(q.command)
  {
    assert SentOk(s, q);
    assert s.log[..|s.log|] == s.log;
    DirectedValid(s.base, s.log);
  }

  /** A tenant marked `READY` was hosted when its operator looked, and no drop of it was ever asked for. */
  lemma LandReady(s: Sys, q: Request)
    requires Inv(s) && Enabled(s, Land(q)) && q.command.Mark? && q.command.state == Ready
    ensures var d := Directed(s.base, s.log); var t := q.command.tenant;
      && t in d.tenants && d.tenants[t].cell == q.cell && d.tenants[t].state == Registering
      && t in Registered(CellLog(s, q.cell)).hosted && t !in Registered(CellLog(s, q.cell)).dropped
  {
    LandsAsDecided(s, q);
    var d := Directed(s.base, s.log);
    var t := q.command.tenant;
    var log := CellLog(s, q.cell);
    assert q.cell in s.cells ==> CellOk(d, s.cells[q.cell]);
    assert Drop(t) in log ==> DropOk(d, Drop(t));
    assert !Leaving(d, t);
    HostedStays(log, q.read, t);
    DroppedByDrop(log, t);
  }

  lemma LandRemove(s: Sys, q: Request)
    requires Inv(s) && Enabled(s, Land(q)) && q.command.Remove?
    ensures var d := Directed(s.base, s.log); var t := q.command.tenant;
      t in d.tenants && d.tenants[t].cell == q.cell && Tombstoned(s, t, q.cell)
  {
    LandsAsDecided(s, q);
    DroppedStays(CellLog(s, q.cell), q.read, q.command.tenant);
  }

  lemma LandDirects(s: Sys, q: Request)
    requires Enabled(s, Land(q))
    ensures Directed(s.base, Next(s, Land(q)).log) == ApplyDirectory(Directed(s.base, s.log), q.command).0
  {
    var log := Next(s, Land(q)).log;
    assert log[..|log| - 1] == s.log;
  }

  /** What a request that lands asks for holds where it lands. */
  lemma LandMay(s: Sys, q: Request)
    requires Inv(s) && Enabled(s, Land(q))
    ensures ValidDirectory(Directed(s.base, s.log))
    ensures q.command.Mark? && q.command.state == Ready ==>
      var d := Directed(s.base, s.log); var x := q.command.tenant;
      x in d.tenants && Serving(s, x, d.tenants[x].(state := Ready))
    ensures q.command.Remove? ==>
      var d := Directed(s.base, s.log); var x := q.command.tenant;
      x in d.tenants && Tombstoned(s, x, d.tenants[x].cell)
  {
    DirectedValid(s.base, s.log);
    if q.command.Mark? && q.command.state == Ready {
      LandReady(s, q);
    } else if q.command.Remove? {
      LandRemove(s, q);
    }
  }

  lemma LandLives(s: Sys, q: Request)
    requires Inv(s) && Enabled(s, Land(q))
    ensures Lives(Next(s, Land(q)))
  {
    LandDirects(s, q);
    LandMay(s, q);
    LandTenants(s, Next(s, Land(q)), q);
    LandDrops(s, Next(s, Land(q)), q);
  }

  lemma LandTenants(s: Sys, t: Sys, q: Request)
    requires Lives(s) && t.cells == s.cells && t.base == s.base
    requires Directed(t.base, t.log) == ApplyDirectory(Directed(s.base, s.log), q.command).0
    requires q.command.Mark? && q.command.state == Ready ==>
      var d := Directed(s.base, s.log); var x := q.command.tenant;
      x in d.tenants && Serving(s, x, d.tenants[x].(state := Ready))
    requires q.command.Remove? ==>
      var d := Directed(s.base, s.log); var x := q.command.tenant;
      x in d.tenants && Tombstoned(s, x, d.tenants[x].cell)
    ensures var d' := Directed(t.base, t.log);
      && (forall x {:trigger d'.tenants[x]} :: x in d'.tenants ==> Serving(t, x, d'.tenants[x]))
      && (forall x {:trigger d'.removed[x]} :: x in d'.removed ==> Tombstoned(t, x, d'.removed[x]))
  {
    var d, d' := Directed(s.base, s.log), Directed(t.base, t.log);
    forall x | x in d'.tenants
      ensures Serving(t, x, d'.tenants[x])
    {
      if x in d.tenants {
        assert Serving(s, x, d.tenants[x]);
      }
    }
    forall x | x in d'.removed
      ensures Tombstoned(t, x, d'.removed[x])
    {
      if x in d.removed {
        assert Tombstoned(s, x, d.removed[x]);
      }
    }
  }

  lemma LeavingStep(d: Directory, c: DirectoryCommand, x: TenantId)
    requires ValidDirectory(d) && Leaving(d, x)
    ensures Leaving(ApplyDirectory(d, c).0, x)
  {
  }

  lemma DropsStay(d: Directory, c: DirectoryCommand, log: seq<CellCommand>)
    requires ValidDirectory(d) && CellOk(d, log)
    ensures CellOk(ApplyDirectory(d, c).0, log)
  {
    forall x | x in log
      ensures DropOk(ApplyDirectory(d, c).0, x)
    {
      assert DropOk(d, x);
      if x.Drop? {
        LeavingStep(d, c, x.tenant);
      }
    }
  }

  lemma LandDrops(s: Sys, t: Sys, q: Request)
    requires Lives(s) && t.cells == s.cells && t.cellSent == s.cellSent && t.base == s.base
    requires ValidDirectory(Directed(s.base, s.log))
    requires Directed(t.base, t.log) == ApplyDirectory(Directed(s.base, s.log), q.command).0
    ensures var d' := Directed(t.base, t.log);
      && (forall r {:trigger r in t.cellSent} :: r in t.cellSent ==> DropOk(d', r.command))
      && (forall c {:trigger t.cells[c]} :: c in t.cells ==> CellOk(d', t.cells[c]))
  {
    var d := Directed(s.base, s.log);
    forall r | r in t.cellSent
      ensures DropOk(Directed(t.base, t.log), r.command)
    {
      assert DropOk(d, r.command);
      if r.command.Drop? {
        LeavingStep(d, q.command, r.command.tenant);
      }
    }
    forall c | c in t.cells
      ensures CellOk(Directed(t.base, t.log), t.cells[c])
    {
      DropsStay(d, q.command, s.cells[c]);
    }
  }

  lemma LandKeeps(s: Sys, q: Request)
    requires Inv(s) && Enabled(s, Land(q))
    ensures Inv(Next(s, Land(q)))
  {
    var t := Next(s, Land(q));
    GrownStays(s, t);
    LandLives(s, q);
    LandsAsDecided(s, q);
    forall p: nat | p < |t.log|
      ensures Told(t, p)
    {
      if p == |s.log| {
        assert SentOk(s, q);
        DecidedStays(s, t, q);
      }
    }
  }

  /** A checkpoint's record that lands, its owner there or not, changes no tenant's life. */
  lemma LandRunKeeps(s: Sys, at: nat)
    requires Inv(s) && Enabled(s, LandRun(at))
    ensures Inv(Next(s, LandRun(at)))
  {
    var t := Next(s, LandRun(at));
    GrownStays(s, t);
    assert t.log[..|t.log| - 1] == s.log;
    assert Directed(t.base, t.log) == Directed(s.base, s.log);
    SameLives(s, t);
  }

  lemma SameLives(s: Sys, t: Sys)
    requires Lives(s) && t.base == s.base && t.cells == s.cells && t.cellSent == s.cellSent
    requires Directed(t.base, t.log) == Directed(s.base, s.log)
    ensures Lives(t)
  {
    var d := Directed(s.base, s.log);
    forall x | x in d.tenants
      ensures Serving(t, x, d.tenants[x])
    {
      assert Serving(s, x, d.tenants[x]);
    }
    forall x | x in d.removed
      ensures Tombstoned(t, x, d.removed[x])
    {
      assert Tombstoned(s, x, d.removed[x]);
    }
  }

  // ---- Each step of a session ----

  /** Session `id` becomes `x`, the journals as they were; a request it sends may land. */
  lemma SessionMoves(s: Sys, id: nat, x: Session, sent: set<Request>, runs: set<nat>)
    requires Inv(s) && SessionOk(s, x) && forall q :: q in sent && q !in s.sent ==> SentOk(s, q)
    ensures Inv(s.(sessions := s.sessions[id := x], sent := sent, runs := runs))
  {
    var t := s.(sessions := s.sessions[id := x], sent := sent, runs := runs);
    forall q | q in t.sent
      ensures SentOk(t, q)
    {
      assert SentOk(s, q);
      DecidedStays(s, t, q);
    }
    GrownStays(s, t);
    SameLives(s, t);
  }

  lemma PutKeeps(s: Sys, id: nat, owner: Owner, phase: Phase)
    requires Inv(s) && SessionOk(s, Session(owner, phase))
    ensures Inv(Put(s, id, owner, phase))
  {
    SessionMoves(s, id, Session(owner, phase), s.sent, s.runs);
    var t := s.(sessions := s.sessions[id := Session(owner, phase)], sent := s.sent, runs := s.runs);
    assert t == Put(s, id, owner, phase);
  }

  lemma CrashKeeps(s: Sys, id: nat)
    requires Inv(s) && Enabled(s, Crash(id))
    ensures Inv(Next(s, Crash(id)))
  {
    var t := Next(s, Crash(id));
    GrownStays(s, t);
    SameLives(s, t);
  }

  /** A record read next keeps the fold the directory's. */
  lemma PageKeeps(s: Sys, id: nat)
    requires Inv(s) && Enabled(s, Page(id))
    ensures Inv(Next(s, Page(id)))
  {
    var o := s.sessions[id].owner;
    assert SessionOk(s, s.sessions[id]);
    DirectedStep(s.base, s.log, o.folded);
    PutKeeps(s, id, Loaded(o, Stepped(o.directory, s.log[o.folded]), o.folded + 1), s.sessions[id].phase);
  }

  /** An entry is decided from a fold at or past the position it asks for: what a session that counts as open has. */
  lemma DecideKeeps(s: Sys, id: nat, cell: nat, read: nat, op: Operation)
    requires Inv(s) && Enabled(s, Decide(id, cell, read, op))
    ensures Inv(Next(s, Decide(id, cell, read, op)))
  {
    assert SessionOk(s, s.sessions[id]);
    var q := Asking(s, id, cell, read, op);
    assert SentOk(s, q);
    SessionMoves(s, id, Session(s.sessions[id].owner, Asked(q)), s.sent + {q}, s.runs);
  }

  /** An entry written at the fold's position is folded there; one written elsewhere leaves the session catching up. */
  lemma WroteKeeps(s: Sys, id: nat, seen: nat)
    requires Inv(s) && Enabled(s, Wrote(id, seen))
    ensures Inv(Next(s, Wrote(id, seen)))
  {
    assert SessionOk(s, s.sessions[id]);
    var q := s.sessions[id].phase.request;
    var o := Written(s.sessions[id].owner, q.at, q.command, seen);
    DirectedStep(s.base, s.log, q.at);
    PutKeeps(s, id, o, if o.folded < o.next then Catching else Idle);
  }

  /** A checkpoint's record written at the position both stand at takes both on. */
  lemma SavedKeeps(s: Sys, id: nat)
    requires Inv(s) && Enabled(s, Saved(id))
    ensures Inv(Next(s, Saved(id)))
  {
    assert SessionOk(s, s.sessions[id]);
    DirectedStep(s.base, s.log, s.sessions[id].owner.next);
    PutKeeps(s, id, SavedAt(s.sessions[id].owner, 1), Idle);
  }

  lemma SessionKeeps(s: Sys, ev: Event)
    requires Inv(s) && Enabled(s, ev)
    requires ev.Arrive? || ev.Claim? || ev.Opened? || ev.Behind? || ev.NotWritten? || ev.Caught? || ev.Save?
             || ev.SaveFailed? || ev.Close?
    ensures Inv(Next(s, ev))
  {
    assert ev.id in s.sessions ==> SessionOk(s, s.sessions[ev.id]);
    match ev
    case Arrive(id) =>
      assert s.log[..0] == [];
      PutKeeps(s, id, Owner(false, 0, s.base, 0), Idle);
    case Claim(id, tail) => PutKeeps(s, id, Claimed(s.sessions[id].owner, tail), Opening);
    case Opened(id) => PutKeeps(s, id, OpenedAt(s.sessions[id].owner), Idle);
    case Behind(id) => PutKeeps(s, id, Closed(s.sessions[id].owner, 0), Idle);
    case NotWritten(id, seen) => PutKeeps(s, id, Closed(s.sessions[id].owner, seen), Idle);
    case Caught(id) => PutKeeps(s, id, s.sessions[id].owner, Idle);
    case Save(id) =>
      SessionMoves(s, id, Session(s.sessions[id].owner, Saving), s.sent, s.runs + {s.sessions[id].owner.next});
    case SaveFailed(id, seen) => PutKeeps(s, id, Closed(s.sessions[id].owner, seen), Idle);
    case Close(id) => PutKeeps(s, id, Closed(s.sessions[id].owner, 0), Idle);
  }

  lemma NextKeeps(s: Sys, ev: Event)
    requires Inv(s) && Enabled(s, ev)
    ensures Inv(Next(s, ev))
  {
    match ev
    case Crash(id) => CrashKeeps(s, id);
    case Page(id) => PageKeeps(s, id);
    case Decide(id, cell, read, op) => DecideKeeps(s, id, cell, read, op);
    case Wrote(id, seen) => WroteKeeps(s, id, seen);
    case Saved(id) => SavedKeeps(s, id);
    case Land(q) => LandKeeps(s, q);
    case LandRun(at) => LandRunKeeps(s, at);
    case CellDecide(_, _, _, _, _) => CellDecideKeeps(s, ev);
    case CellLand(q) => CellLandKeeps(s, q);
    case _ => SessionKeeps(s, ev);
  }

  // ---- Runs ----

  ghost predicate IsRun(s: Sys, events: seq<Event>)
    decreases |events|
  {
    events == [] || (Enabled(s, events[0]) && IsRun(Next(s, events[0]), events[1..]))
  }

  ghost function Reached(s: Sys, events: seq<Event>): Sys
    requires IsRun(s, events)
    decreases |events|
  {
    if events == [] then s else Reached(Next(s, events[0]), events[1..])
  }

  lemma {:induction false} RunKeepsInv(s: Sys, events: seq<Event>)
    requires Inv(s) && IsRun(s, events)
    ensures Inv(Reached(s, events)) && Reached(s, events).base == s.base
    ensures s.log <= Reached(s, events).log
    ensures forall c :: CellLog(s, c) <= CellLog(Reached(s, events), c)
    decreases |events|
  {
    if events != [] {
      NextKeeps(s, events[0]);
      RunKeepsInv(Next(s, events[0]), events[1..]);
      forall c
        ensures CellLog(s, c) <= CellLog(Reached(s, events), c)
      {
        assert CellLog(s, c) <= CellLog(Next(s, events[0]), c);
      }
    }
  }

  /**
    Over every interleaving: a `READY` tenant is hosted by its cell and not dropped,
    and a tenant the directory forgot was tombstoned by its cell first.
    */
  lemma TenantLives(s: Sys, events: seq<Event>, t: TenantId)
    requires Init(s) && IsRun(s, events)
    ensures var u := Reached(s, events); var d := Directed(u.base, u.log);
      && (t in d.tenants && d.tenants[t].state == Ready ==>
            var r := Registered(CellLog(u, d.tenants[t].cell)); t in r.hosted && t !in r.dropped)
      && (t in d.removed ==>
            var r := Registered(CellLog(u, d.removed[t])); t in r.dropped && t !in r.hosted)
  {
    InitInv(s);
    RunKeepsInv(s, events);
    var u := Reached(s, events);
    var d := Directed(u.base, u.log);
    if t in d.tenants {
      assert Serving(u, t, d.tenants[t]);
    }
    if t in d.removed {
      assert Tombstoned(u, t, d.removed[t]);
      DroppedNotHosted(CellLog(u, d.removed[t]));
    }
  }

  /** A tombstoned tenant is never hosted again, whatever lands later. */
  lemma TombstoneHolds(s: Sys, events: seq<Event>, more: seq<Event>, cell: nat, t: TenantId)
    requires Init(s) && IsRun(s, events) && IsRun(Reached(s, events), more)
    requires t in Registered(CellLog(Reached(s, events), cell)).dropped
    ensures var r := Registered(CellLog(Reached(Reached(s, events), more), cell)); t in r.dropped && t !in r.hosted
  {
    InitInv(s);
    RunKeepsInv(s, events);
    var u := Reached(s, events);
    RunKeepsInv(u, more);
    var was, log := CellLog(u, cell), CellLog(Reached(u, more), cell);
    assert log[..|was|] == was;
    DroppedStays(log, |was|, t);
    DroppedNotHosted(log);
  }

  /**
    Over every interleaving: a session that counts as open holds the directory's own
    fold, at or past the position its writer goes on at, and never past the journal.
    */
  lemma OpenIsFolded(s: Sys, events: seq<Event>, id: nat)
    requires Init(s) && IsRun(s, events) && id in Reached(s, events).sessions
    ensures var u := Reached(s, events); var x := u.sessions[id];
      && x.owner.folded <= |u.log| && x.owner.directory == Directed(u.base, u.log[..x.owner.folded])
      && (x.owner.open && !x.phase.Catching? ==> x.owner.next <= x.owner.folded)
  {
    InitInv(s);
    RunKeepsInv(s, events);
    assert SessionOk(Reached(s, events), Reached(s, events).sessions[id]);
  }

  /** An entry at `p` was decided from the fold of exactly the records below it, and changed it. */
  ghost predicate FromBelow(u: Sys, p: nat) {
    && p < |u.log|
    && (u.log[p].Entry? ==>
          var d := Directed(u.base, u.log[..p]); var q := u.log[p].request;
          && q.basis == p && q.read <= |CellLog(u, q.cell)|
          && CommandOf(StepOf(q.op, d, Registered(CellLog(u, q.cell)[..q.read]))) == Some(q.command)
          && ApplyDirectory(d, q.command).1 == Changed
          && Rank(d, Subject(q.command)) < Target(q.command)
          && Rank(Directed(u.base, u.log[..p + 1]), Subject(q.command)) == Target(q.command))
  }

  lemma ToldFromBelow(u: Sys, p: nat)
    requires Inv(u) && p < |u.log|
    ensures FromBelow(u, p)
  {
    assert Told(u, p);
    DirectedValid(u.base, u.log[..p]);
    DirectedStep(u.base, u.log, p);
    if u.log[p].Entry? {
      var d := Directed(u.base, u.log[..p]);
      var q := u.log[p].request;
      DecidedStepMoves(q.op, d, Registered(CellLog(u, q.cell)[..q.read]));
    }
  }

  lemma DecidedFromBelow(s: Sys, events: seq<Event>, p: nat)
    requires Init(s) && IsRun(s, events) && p < |Reached(s, events).log|
    ensures FromBelow(Reached(s, events), p)
  {
    InitInv(s);
    RunKeepsInv(s, events);
    ToldFromBelow(Reached(s, events), p);
  }

  lemma RankStep(u: Sys, p: nat, t: TenantId)
    requires Inv(u) && p < |u.log|
    ensures Rank(Directed(u.base, u.log[..p]), t) <= Rank(Directed(u.base, u.log[..p + 1]), t)
  {
    ToldFromBelow(u, p);
    DirectedValid(u.base, u.log[..p]);
    DirectedStep(u.base, u.log, p);
    if u.log[p].Entry? {
      ApplyDirectoryKeeps(Directed(u.base, u.log[..p]), u.log[p].request.command);
    }
  }

  /** A tenant's rank never goes down. */
  lemma {:induction false} RankGrows(u: Sys, p: nat, upTo: nat, t: TenantId)
    requires Inv(u) && p <= upTo <= |u.log|
    ensures Rank(Directed(u.base, u.log[..p]), t) <= Rank(Directed(u.base, u.log[..upTo]), t)
    decreases upTo
  {
    if p < upTo {
      RankGrows(u, p, upTo - 1, t);
      RankStep(u, upTo - 1, t);
    }
  }

  /** So no step of a tenant's life is ever written twice, by a resumed run or a rival one. */
  lemma StepsOnce(s: Sys, events: seq<Event>, p: nat, k: nat)
    requires Init(s) && IsRun(s, events) && p < k < |Reached(s, events).log|
    requires var u := Reached(s, events); u.log[p].Entry? && u.log[k].Entry?
    requires var u := Reached(s, events); Subject(u.log[p].request.command) == Subject(u.log[k].request.command)
    ensures var u := Reached(s, events); Target(u.log[p].request.command) < Target(u.log[k].request.command)
  {
    InitInv(s);
    RunKeepsInv(s, events);
    var u := Reached(s, events);
    ToldFromBelow(u, p);
    ToldFromBelow(u, k);
    RankGrows(u, p + 1, k, Subject(u.log[p].request.command));
  }
}
