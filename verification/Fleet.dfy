/**
  The two sides of a tenant's life: the fleet directory, which operators write,
  and the cell registry, which the cell's coordinator writes. Each is a fold of
  its own journal; an operation is a run of steps, each decided afresh from them.
  */
module Fleet {
  import opened Common

  type TenantId = nat

  type Name = seq<byte>

  const COLON: byte := 58

  const MAX_STEPS: nat := 8

  /** A tenant's identifier and its control journal's: `0` is unset. */
  datatype Draw = Draw(tenant: TenantId, journal: nat) {
    predicate IsSet() { tenant != 0 && journal != 0 }
  }

  datatype TenantState = Registering | Ready | Removing | UpdatingConfiguration | Error

  predicate MayBecome(from: TenantState, to: TenantState) {
    match to
    case Registering => false
    case Removing => true
    case Ready => from == Registering || from == UpdatingConfiguration
    case UpdatingConfiguration => from == Ready
    case Error => from != Removing
  }

  // ---- The directory ----

  datatype TenantEntry = TenantEntry(name: Name, cell: nat, control: nat, state: TenantState)

  /** The fold of the directory journal. `removed` remembers the cell a tenant lived in; no judgement reads it. */
  datatype Directory = Directory(
    fleet: Option<nat>,
    cells: set<nat>,
    tenants: map<TenantId, TenantEntry>,
    names: map<Name, TenantId>,
    removed: map<TenantId, nat>)

  datatype DirectoryCommand =
    | Register(draw: Draw, name: Name, cell: nat)
    | Mark(tenant: TenantId, state: TenantState)
    | Remove(tenant: TenantId)

  datatype Judged = Changed | Unchanged | Refused

  function ApplyDirectory(d: Directory, c: DirectoryCommand): (Directory, Judged) {
    match c
    case Register(draw, name, cell) =>
      var t := draw.tenant;
      if !draw.IsSet() || COLON in name then (d, Refused)
      else if t in d.tenants then
        var e := d.tenants[t];
        (d, if e.name == name && e.cell == cell && e.control == draw.journal then Unchanged else Refused)
      else if t in d.removed || name in d.names || cell !in d.cells then (d, Refused)
      else
        (d.(names := d.names[name := t], tenants := d.tenants[t := TenantEntry(name, cell, draw.journal, Registering)]),
         Changed)
    case Mark(t, state) =>
      if t !in d.tenants then (d, Refused)
      else if d.tenants[t].state == state then (d, Unchanged)
      else if !MayBecome(d.tenants[t].state, state) then (d, Refused)
      else (d.(tenants := d.tenants[t := d.tenants[t].(state := state)]), Changed)
    case Remove(t) =>
      if t in d.removed then (d, Unchanged)
      else if t !in d.tenants || d.tenants[t].state != Removing then (d, Refused)
      else
        var e := d.tenants[t];
        (d.(tenants := d.tenants - {t}, names := d.names - {e.name}, removed := d.removed[t := e.cell]), Changed)
  }

  function Named(d: Directory, name: Name): Option<TenantId> {
    if name in d.names && d.names[name] in d.tenants then Some(d.names[name]) else None
  }

  // ---- The cell ----

  /** `footprints` holds the answer of each footprint asked for: granted or refused. */
  datatype Registry = Registry(hosted: set<TenantId>, dropped: set<TenantId>, footprints: map<TenantId, bool>)

  datatype CellCommand = Grant(tenant: TenantId, granted: bool) | Host(tenant: TenantId) | Drop(tenant: TenantId)

  const NOTHING := Registry({}, {}, map[])

  function ApplyCell(r: Registry, c: CellCommand): Registry {
    match c
    case Grant(t, granted) => if t in r.footprints then r else r.(footprints := r.footprints[t := granted])
    case Host(t) =>
      if t in r.dropped || t in r.hosted || t !in r.footprints || !r.footprints[t] then r
      else r.(hosted := r.hosted + {t})
    case Drop(t) => r.(hosted := r.hosted - {t}, dropped := r.dropped + {t})
  }

  /** The cell's step for a tenant the directory holds, if any; `fits` is what a footprint plan would find. */
  function TenantStep(r: Registry, t: TenantId, e: TenantEntry, fits: Option<bool>): Option<CellCommand> {
    if t in r.dropped then None
    else
      match e.state
      case Registering =>
        if t in r.hosted then None
        else if t in r.footprints then if r.footprints[t] then Some(Host(t)) else None
        else if fits.Some? then Some(Grant(t, fits.value)) else None
      case Removing => Some(Drop(t))
      case _ => None
  }

  // ---- The operator's steps ----

  datatype Refusal =
    | NotInitialized | Unset | NameRefused | IdTaken | NoPlace
    | NameTaken(holder: TenantId, state: TenantState)
    | Removed(tenant: TenantId)
    | NoFootprint(tenant: TenantId)

  datatype Decision =
    | Write(command: DirectoryCommand)
    | Finish(command: DirectoryCommand, result: Option<TenantId>)
    | Done(result: Option<TenantId>)
    | Refuse(refusal: Refusal)
    | Await

  datatype Operation = Create(name: Name, draw: Draw, place: Option<nat>) | Delete(name: Name)

  /** What a creation does, from the directory and the registry of the tenant's cell. */
  function CreateStep(d: Directory, r: Registry, name: Name, draw: Draw, place: Option<nat>): Decision {
    if d.fleet == None then Refuse(NotInitialized)
    else if Named(d, name) == None then
      if !draw.IsSet() then Refuse(Unset)
      else if COLON in name then Refuse(NameRefused)
      else if draw.tenant in d.tenants || draw.tenant in d.removed then Refuse(IdTaken)
      else if place == None then Refuse(NoPlace)
      else Write(Register(draw, name, place.value))
    else
      var t := Named(d, name).value;
      var e := d.tenants[t];
      if t != draw.tenant || e.control != draw.journal then Refuse(NameTaken(t, e.state))
      else
        match e.state
        case Ready => Done(Some(t))
        case Removing => Refuse(Removed(t))
        case Error => Refuse(NoFootprint(t))
        case UpdatingConfiguration => Refuse(NameTaken(t, e.state))
        case Registering =>
          if t in r.dropped then Refuse(Removed(t))
          else if t in r.hosted then Finish(Mark(t, Ready), Some(t))
          else if t in r.footprints && !r.footprints[t] then Write(Mark(t, Error))
          else Await
  }

  /** What a removal does. */
  function RemoveStep(d: Directory, r: Registry, name: Name): Decision {
    if d.fleet == None then Refuse(NotInitialized)
    else if Named(d, name) == None then Done(None)
    else
      var t := Named(d, name).value;
      if d.tenants[t].state != Removing then Write(Mark(t, Removing))
      else if t !in r.dropped then Await
      else Finish(Remove(t), Some(t))
  }

  function StepOf(op: Operation, d: Directory, r: Registry): Decision {
    match op
    case Create(name, draw, place) => CreateStep(d, r, name, draw, place)
    case Delete(name) => RemoveStep(d, r, name)
  }

  /** The command a step writes, if it writes one. */
  function CommandOf(s: Decision): Option<DirectoryCommand> {
    match s
    case Write(c) => Some(c)
    case Finish(c, _) => Some(c)
    case _ => None
  }

  /** The tenant a command is about. */
  function Subject(c: DirectoryCommand): TenantId {
    match c
    case Register(draw, _, _) => draw.tenant
    case Mark(t, _) => t
    case Remove(t) => t
  }

  // ---- A life goes one way ----

  /** Names and tenants point at each other, and an id is never both held and removed. */
  ghost predicate ValidDirectory(d: Directory) {
    && (forall t {:trigger d.tenants[t]} :: t in d.tenants ==>
          t !in d.removed && d.tenants[t].name in d.names && d.names[d.tenants[t].name] == t)
    && (forall n {:trigger d.names[n]} :: n in d.names ==> d.names[n] in d.tenants && d.tenants[d.names[n]].name == n)
  }

  function Rank(d: Directory, t: TenantId): nat {
    if t in d.removed then 4
    else if t !in d.tenants then 0
    else
      match d.tenants[t].state
      case Registering => 1
      case Ready => 2
      case UpdatingConfiguration => 2
      case Error => 2
      case Removing => 3
  }

  /** The rank a creation's or a removal's command takes its tenant to. */
  function Target(c: DirectoryCommand): nat {
    match c
    case Register(_, _, _) => 1
    case Mark(_, state) => if state == Removing then 3 else 2
    case Remove(_) => 4
  }

  lemma ApplyDirectoryKeeps(d: Directory, c: DirectoryCommand)
    requires ValidDirectory(d)
    ensures ValidDirectory(ApplyDirectory(d, c).0)
    ensures forall t :: t != Subject(c) ==> Rank(ApplyDirectory(d, c).0, t) == Rank(d, t)
    ensures Rank(d, Subject(c)) <= Rank(ApplyDirectory(d, c).0, Subject(c))
    ensures ApplyDirectory(d, c).1 == Changed <==> ApplyDirectory(d, c).0 != d
  {
    if c.Remove? && c.tenant in d.tenants && d.tenants[c.tenant].state == Removing {
      assert c.tenant !in ApplyDirectory(d, c).0.tenants;
    }
  }

  /** The moves of a life, one by one. */
  const MOVES: set<(TenantState, TenantState)> := {
    (Registering, Ready), (Registering, Error), (Registering, Removing),
    (Ready, UpdatingConfiguration), (Ready, Error), (Ready, Removing),
    (UpdatingConfiguration, Ready), (UpdatingConfiguration, Error), (UpdatingConfiguration, Removing),
    (Error, Removing)}

  /** A mark moves its tenant along a life, or says what already is; anything else is refused. */
  lemma MarkMoves(d: Directory, t: TenantId, state: TenantState)
    requires ValidDirectory(d)
    ensures var (e, judged) := ApplyDirectory(d, Mark(t, state));
      && (judged == Refused <==>
            t !in d.tenants || (d.tenants[t].state != state && (d.tenants[t].state, state) !in MOVES))
      && (judged == Unchanged <==> t in d.tenants && d.tenants[t].state == state)
      && (judged == Changed ==> e == d.(tenants := d.tenants[t := d.tenants[t].(state := state)]))
  {
  }

  /**
    A command that changed the directory is told, written again, that nothing changed: a
    retry of an entry that landed is no failure. Told so, a registration is the very one
    held. One that is taken finds its name free, its id unused and its cell in the fleet; a
    removal that is taken finds its tenant leaving.
    */
  lemma RepeatIsUnchanged(d: Directory, c: DirectoryCommand)
    requires ValidDirectory(d)
    ensures var (e, judged) := ApplyDirectory(d, c);
      && (judged == Changed ==> ApplyDirectory(e, c) == (e, Unchanged))
      && (c.Register? && judged == Unchanged ==>
            c.draw.tenant in d.tenants
            && d.tenants[c.draw.tenant] == TenantEntry(c.name, c.cell, c.draw.journal, d.tenants[c.draw.tenant].state))
      && (c.Register? && judged == Changed ==>
            c.name !in d.names && Rank(d, c.draw.tenant) == 0 && c.cell in d.cells && c.draw.IsSet())
      && (c.Remove? && judged == Changed ==> Rank(d, c.tenant) == 3 && e.removed[c.tenant] == d.tenants[c.tenant].cell)
  {
  }

  /** Why a creation of a name that is held is refused. */
  lemma CreateRefusedWhy(d: Directory, r: Registry, name: Name, draw: Draw, place: Option<nat>)
    requires ValidDirectory(d) && d.fleet.Some? && name in d.names
    ensures var t := d.names[name]; var e := d.tenants[t]; var s := CreateStep(d, r, name, draw, place);
      var own := draw == Draw(t, e.control);
      && (s.Refuse? && s.refusal.NameTaken? ==> s.refusal == NameTaken(t, e.state))
      && (s.Refuse? && s.refusal.NameTaken? <==> !own || e.state == UpdatingConfiguration)
      && (s == Refuse(Removed(t)) <==> own && (e.state == Removing || (e.state == Registering && t in r.dropped)))
      && (s == Refuse(NoFootprint(t)) <==> own && e.state == Error)
      && (s.Refuse? ==> s.refusal.NameTaken? || s.refusal == Removed(t) || s.refusal == NoFootprint(t))
  {
  }

  /** Where its name is free and its cell known, a creation registers exactly when the directory takes it. */
  lemma RegistersWhenTaken(d: Directory, r: Registry, name: Name, draw: Draw, cell: nat)
    requires ValidDirectory(d) && d.fleet.Some? && name !in d.names && cell in d.cells
    ensures var c := Register(draw, name, cell); var s := CreateStep(d, r, name, draw, Some(cell));
      && (s == Write(c) <==> ApplyDirectory(d, c).1 == Changed)
      && (s != Write(c) ==> s.Refuse? && ApplyDirectory(d, c).1 == Refused)
      && (s == Refuse(IdTaken) <==> draw.IsSet() && COLON !in name && Rank(d, draw.tenant) > 0)
      && CreateStep(d, r, name, draw, None) == if s == Write(c) then Refuse(NoPlace) else s
  {
  }

  /**
    A step decided from the very directory it is applied to always changes it,
    and takes its tenant strictly up: a creation or removal never repeats a step.
    */
  lemma DecidedStepMoves(op: Operation, d: Directory, r: Registry)
    requires ValidDirectory(d) && CommandOf(StepOf(op, d, r)).Some?
    requires op.Create? && op.place.Some? ==> op.place.value in d.cells
    ensures var c := CommandOf(StepOf(op, d, r)).value;
      && ApplyDirectory(d, c).1 == Changed
      && Rank(d, Subject(c)) < Target(c) == Rank(ApplyDirectory(d, c).0, Subject(c))
      && (c.Mark? ==> c.state == Ready || c.state == Error || c.state == Removing)
  {
  }

  /**
    Judged from an older directory, the same step may change nothing or be refused:
    a creation that reads a directory without its own registration registers again.
    */
  lemma StaleStepRepeats(name: Name, draw: Draw, cell: nat)
    requires draw.IsSet() && COLON !in name
    ensures var d := Directory(Some(1), {cell}, map[], map[], map[]);
      var c := Register(draw, name, cell);
      && CreateStep(d, NOTHING, name, draw, Some(cell)) == Write(c)
      && ApplyDirectory(d, c).1 == Changed
      && ApplyDirectory(ApplyDirectory(d, c).0, c).1 == Unchanged
  {
  }

  // ---- A session's grip on the directory journal ----

  /**
    The owner of the directory journal: whether the session counts it as open, where
    its writer goes on, and its fold of the first `folded` records.
    */
  datatype Owner = Owner(open: bool, next: nat, directory: Directory, folded: nat)

  /** A claim was answered with the journal's tail. */
  function Claimed(o: Owner, tail: nat): Owner { o.(next := tail) }

  /** The fold was read on to `upTo`. */
  function Loaded(o: Owner, d: Directory, upTo: nat): Owner { o.(directory := d, folded := upTo) }

  /** A load ended: the owner opens only with a fold that reached its writer. */
  function OpenedAt(o: Owner): Owner { o.(open := o.next <= o.folded) }

  /** An entry was written at `at`: folded when the fold stands there. The writer saw the tail `seen`. */
  function Written(o: Owner, at: nat, c: DirectoryCommand, seen: nat): Owner {
    var next := Max(o.next, Max(at + 1, seen));
    if at == o.folded then Owner(o.open, next, ApplyDirectory(o.directory, c).0, at + 1) else o.(next := next)
  }

  /** A checkpoint run of `n` records was written and folded. */
  function SavedAt(o: Owner, n: nat): Owner { o.(next := o.next + n, folded := o.folded + n) }

  /** The owner is unsure: the next step opens it anew. */
  function Closed(o: Owner, seen: nat): Owner { o.(open := false, next := Max(o.next, seen)) }

  // ---- A session ----

  datatype Stop = NotOpen | NotRead | NotWritten | GoingRound

  datatype Step = Advanced(command: DirectoryCommand) | Ended(result: Option<TenantId>, last: Option<DirectoryCommand>)
    | Turned(refusal: Refusal) | Interrupted(stop: Stop) | Waits

  /** What a write of one entry came back with: written at a position, or not known to be. */
  datatype Answer = At(at: nat, seen: nat) | NotKnown(seen: nat)

  /** What a read of the directory to its tail came back with: the fold and the position it reached. */
  datatype Reading = Reading(directory: Directory, upTo: nat)

  /**
    The answers one step gets: to its claim and the load behind it, to its read of the
    cell, to its write, to the load and the checkpoint that may follow it.
    */
  datatype Answers = Answers(
    claim: Option<nat>,
    load: Option<Reading>,
    read: Option<Registry>,
    write: Answer,
    reload: Option<Reading>,
    due: bool,
    saved: Option<nat>)

  /** The owner after an attempt to open it. */
  function Reopened(o: Owner, claim: Option<nat>, load: Option<Reading>): Owner {
    if o.open || claim == None then o
    else if load == None then Claimed(o, claim.value)
    else OpenedAt(Loaded(Claimed(o, claim.value), load.value.directory, load.value.upTo))
  }

  /** The owner once it wrote `c`, before it saves a checkpoint. */
  function Appended(o: Owner, c: DirectoryCommand, a: Answers): Owner {
    if a.write.NotKnown? then Closed(o, a.write.seen)
    else
      var w := Written(o, a.write.at, c, a.write.seen);
      if w.next <= w.folded then w
      else if a.reload == None then Closed(w, 0)
      else
        var l := Loaded(w, a.reload.value.directory, a.reload.value.upTo);
        if l.next <= l.folded then l else Closed(l, 0)
  }

  /** The owner once a checkpoint that was due was saved, or was not. */
  function Checkpointed(o: Owner, due: bool, saved: Option<nat>): Owner {
    if !due then o else if saved.Some? && o.folded == o.next then SavedAt(o, saved.value) else Closed(o, 0)
  }

  /** An owner that counts as open has folded up to its writer at least. */
  predicate Sure(o: Owner) { o.open ==> o.next <= o.folded }

  /** An owner opens when its claim was answered and its load reached the tail claimed, and on the directory loaded. */
  lemma ReopensWhen(o: Owner, claim: Option<nat>, load: Option<Reading>)
    ensures var p := Reopened(o, claim, load);
      && (p.open <==> o.open || (claim.Some? && load.Some? && claim.value <= load.value.upTo))
      && (o.open ==> p == o)
      && (p.open && !o.open ==>
            p.directory == load.value.directory && p.folded == load.value.upTo && p.next == claim.value)
  {
  }

  /**
    An entry written where the fold stands is folded and leaves the owner open, unless its
    writer saw more; a load that reaches the tail seen keeps it open too. Whatever the
    answer, the owner never forgets the tail it saw.
    */
  lemma AppendedOpenWhen(o: Owner, c: DirectoryCommand, a: Answers)
    requires o.open && Sure(o)
    ensures var p := Appended(o, c, a);
      && p.next >= a.write.seen && p.next >= o.next
      && (a.write == At(o.next, a.write.seen) && a.write.seen <= o.next + 1 && o.folded == o.next ==>
            p == Owner(true, o.next + 1, ApplyDirectory(o.directory, c).0, o.next + 1))
      && (p.open <==>
            a.write.At?
            && var tail := Max(o.next, Max(a.write.at + 1, a.write.seen));
            (tail <= (if a.write.at == o.folded then a.write.at + 1 else o.folded)
             || (a.reload.Some? && tail <= a.reload.value.upTo)))
      && (p.open && a.write.at != o.folded ==>
            p.directory == o.directory || (a.reload.Some? && p.directory == a.reload.value.directory))
  {
  }

  /** A checkpoint that is due and saved moves fold and writer on together; one not saved closes the owner. */
  lemma CheckpointedWhen(o: Owner, due: bool, saved: Option<nat>)
    requires o.open && Sure(o)
    ensures var p := Checkpointed(o, due, saved);
      && p.directory == o.directory && p.next - o.next == p.folded - o.folded
      && (p.open <==> !due || (saved.Some? && o.folded == o.next))
      && p.next == o.next + (if p.open && due then saved.value else 0)
  {
  }

  /**
    What a decision comes to, from the owner `o` it was made with: an entry it writes is
    appended, and is told of only when the owner counts as open after; any other decision
    is told as it is and moves nothing.
    */
  ghost predicate Came(s: Decision, o: Owner, a: Answers, step: Step, after: Owner) {
    match s
    case Done(result) => step == Ended(result, None) && after == o
    case Refuse(refusal) => step == Turned(refusal) && after == o
    case Await => step == Waits && after == o
    case Write(c) =>
      var w := Appended(o, c, a);
      if w.open then step == Advanced(c) && after == Checkpointed(w, a.due, a.saved)
      else step == Interrupted(NotWritten) && after == w
    case Finish(c, result) =>
      var w := Appended(o, c, a);
      if w.open then step == Ended(result, Some(c)) && after == Checkpointed(w, a.due, a.saved)
      else step == Interrupted(NotWritten) && after == w
  }

  /** Some registry would make `op` decide otherwise than an empty one. */
  ghost predicate CellMatters(op: Operation, d: Directory) {
    exists r: Registry :: StepOf(op, d, r) != StepOf(op, d, NOTHING)
  }

  /** The directory holds `op`'s name in `state`; for a creation, under its own draw. */
  ghost predicate Life(op: Operation, d: Directory, state: TenantState) {
    && d.fleet.Some? && Named(d, op.name).Some?
    && var t := Named(d, op.name).value;
    && d.tenants[t].state == state
    && (op.Create? ==> t == op.draw.tenant && d.tenants[t].control == op.draw.journal)
  }

  /** The cell makes a difference exactly to a creation waiting to be hosted and a removal waiting to be dropped. */
  lemma CellMattersWhen(op: Operation, d: Directory)
    ensures CellMatters(op, d) <==> Life(op, d, if op.Create? then Registering else Removing)
  {
    if Life(op, d, if op.Create? then Registering else Removing) {
      var t := Named(d, op.name).value;
      assert StepOf(op, d, Registry({}, {t}, map[])) != StepOf(op, d, NOTHING);
    }
  }

  class FleetSession {
    var directoryOpen: bool
    var next: nat
    var directory: Directory
    var folded: nat
    var cells: map<nat, Registry>

    ghost function View(): Owner
      reads this
    {
      Owner(directoryOpen, next, directory, folded)
    }

    constructor (d: Directory)
      ensures View() == Owner(false, 0, d, 0) && cells == map[] && Sure(View())
    {
      directoryOpen, next, directory, folded, cells := false, 0, d, 0, map[];
    }

    /** An open owner stays; another opens exactly when claim and load succeed and the fold reached the writer. */
    method OpenDirectory(claim: Option<nat>, load: Option<Reading>) returns (ok: bool)
      requires Sure(View())
      modifies this`directoryOpen, this`next, this`directory, this`folded
      ensures View() == Reopened(old(View()), claim, load) && Sure(View())
      ensures ok <==> directoryOpen
    {
      if !directoryOpen {
        if claim == None {
          return false;
        }
        next := claim.value;
        if load == None {
          return false;
        }
        directory, folded := load.value.directory, load.value.upTo;
        if folded < next {
          return false;
        }
        directoryOpen := true;
      }
      ok := true;
    }

    /** Read the directory on after a write; whether the fold reached the writer. */
    method Reload(reload: Option<Reading>) returns (ok: bool)
      modifies this`directory, this`folded
      ensures reload == None ==> View() == old(View())
      ensures reload.Some? ==> View() == Loaded(old(View()), reload.value.directory, reload.value.upTo)
      ensures ok <==> reload.Some? && next <= folded
    {
      if reload == None {
        return false;
      }
      directory, folded := reload.value.directory, reload.value.upTo;
      ok := next <= folded;
    }

    /**
      Write one entry as the directory's owner, fold it, and save a checkpoint if one is
      due. Whatever went wrong, the owner that still counts as open has folded up to its
      writer; a write that is not known, or a load that fell short, closes it.
      */
    method AppendDirectory(c: DirectoryCommand, a: Answers) returns (ok: bool)
      requires directoryOpen && Sure(View())
      modifies this`directoryOpen, this`next, this`directory, this`folded
      ensures Sure(View())
      ensures var w := Appended(old(View()), c, a);
        (ok <==> w.open) && View() == if ok then Checkpointed(w, a.due, a.saved) else w
      ensures a.write.NotKnown? ==> !ok && directory == old(directory)
    {
      if a.write.NotKnown? {
        directoryOpen, next := false, Max(next, a.write.seen);
        return false;
      }
      FoldWritten(c, a.write.at, a.write.seen);
      if folded < next {
        ok := Reload(a.reload);
        if !ok {
          directoryOpen := false;
          return;
        }
      }
      ok := true;
      Save(a.due, a.saved);
    }

    /** Save a checkpoint if one is due: fold and writer go on together, or the owner is closed. */
    method Save(due: bool, saved: Option<nat>)
      requires Sure(View())
      modifies this`directoryOpen, this`next, this`folded
      ensures View() == Checkpointed(old(View()), due, saved) && Sure(View())
    {
      if due {
        if saved.Some? && folded == next {
          next, folded := next + saved.value, folded + saved.value;
        } else {
          directoryOpen := false;
        }
      }
    }

    /** Fold the entry written at `at`, when the fold stands there. */
    method FoldWritten(c: DirectoryCommand, at: nat, seen: nat)
      modifies this`next, this`directory, this`folded
      ensures View() == Written(old(View()), at, c, seen)
    {
      next := Max(next, Max(at + 1, seen));
      if at == folded {
        directory, folded := ApplyDirectory(directory, c).0, at + 1;
      }
    }

    /** The registry of `cell` as this session last read it. */
    function RegistryOf(cell: nat): Registry
      reads this
    {
      if cell in cells then cells[cell] else NOTHING
    }

    method ReadCell(cell: nat, read: Option<Registry>) returns (ok: bool)
      modifies this`cells
      ensures ok <==> read.Some?
      ensures ok ==> RegistryOf(cell) == read.value
      ensures !ok ==> cells == old(cells)
    {
      if read == None {
        return false;
      }
      cells := cells[cell := read.value];
      ok := true;
    }

    /** A decision that writes is carried out by an append, and no other touches the directory. */
    method Carry(decision: Decision, a: Answers) returns (step: Step)
      requires directoryOpen && Sure(View())
      modifies this`directoryOpen, this`next, this`directory, this`folded
      ensures Sure(View())
      ensures Came(decision, old(View()), a, step, View())
    {
      match decision {
        case Write(c) =>
          var ok := AppendDirectory(c, a);
          step := if ok then Advanced(c) else Interrupted(NotWritten);
        case Finish(c, result) =>
          var ok := AppendDirectory(c, a);
          step := if ok then Ended(result, Some(c)) else Interrupted(NotWritten);
        case Done(result) => step := Ended(result, None);
        case Refuse(refusal) => step := Turned(refusal);
        case Await => step := Waits;
      }
    }

    /**
      One step of `op`, decided by `StepOf` from the owner's fold once it counts as open
      and, when the cell makes a difference to it, from the registry it just read; a
      creation removed under its own feet is turned away and the owner closed. What the
      step comes back with is what its decision came to.
      */
    method Take(op: Operation, a: Answers) returns (step: Step, ghost basis: Owner)
      requires Sure(View())
      modifies this
      ensures Sure(View()) && basis == Reopened(old(View()), a.claim, a.load)
      ensures !basis.open ==> step == Interrupted(NotOpen) && View() == basis
      ensures basis.open && !CellMatters(op, basis.directory) ==>
        Came(StepOf(op, basis.directory, NOTHING), basis, a, step, View())
      ensures basis.open && CellMatters(op, basis.directory) && a.read == None ==>
        step == Interrupted(NotRead) && View() == basis
      ensures basis.open && CellMatters(op, basis.directory) && a.read.Some? ==>
        var t := Named(basis.directory, op.name);
        if op.Create? && t.Some? && t.value in a.read.value.dropped
        then step == Turned(Removed(t.value)) && View() == basis.(open := false)
        else Came(StepOf(op, basis.directory, a.read.value), basis, a, step, View())
      ensures basis.open && op.Delete? && Life(op, basis.directory, Removing) && a.read.Some? ==>
        var t := Named(basis.directory, op.name).value;
        if t !in a.read.value.dropped then step == Waits
        else if Appended(basis, Remove(t), a).open then step == Ended(Some(t), Some(Remove(t)))
        else step == Interrupted(NotWritten)
      ensures basis.open && op.Create? && Life(op, basis.directory, Registering) && a.read.Some? ==>
        var t := op.draw.tenant; var r := a.read.value;
        if t in r.dropped then step == Turned(Removed(t))
        else if t !in r.hosted && (t !in r.footprints || r.footprints[t]) then step == Waits
        else
          var c := Mark(t, if t in r.hosted then Ready else Error);
          if !Appended(basis, c, a).open then step == Interrupted(NotWritten)
          else step == if t in r.hosted then Ended(Some(t), Some(c)) else Advanced(c)
      ensures step.Advanced? || (step.Ended? && step.last.Some?) ==>
        && basis.open
        && (exists r: Registry :: (r == NOTHING || a.read == Some(r))
              && var c := if step.Advanced? then step.command else step.last.value;
              && CommandOf(StepOf(op, basis.directory, r)) == Some(c)
              && View() == Checkpointed(Appended(basis, c, a), a.due, a.saved))
      ensures step.Interrupted? && step.stop == NotWritten ==> !directoryOpen
    {
      var ok := OpenDirectory(a.claim, a.load);
      basis := View();
      if !ok {
        return Interrupted(NotOpen), basis;
      }
      var decision := StepOf(op, directory, NOTHING);
      var t := Named(directory, op.name);
      CellMattersWhen(op, directory);
      if t.Some? && NeedsCell(op, directory, t.value) {
        var cell := directory.tenants[t.value].cell;
        ok := ReadCell(cell, a.read);
        if !ok {
          return Interrupted(NotRead), basis;
        }
        decision := StepOf(op, directory, RegistryOf(cell));
        if op.Create? && t.value in RegistryOf(cell).dropped {
          // Removed under this operation: its fold of the directory is stale.
          directoryOpen := false;
          return Turned(Removed(t.value)), basis;
        }
      }
      step := Carry(decision, a);
    }

    /** Whether the step looks at the tenant's cell. */
    predicate NeedsCell(op: Operation, d: Directory, t: TenantId)
      requires t in d.tenants
    {
      match op
      case Create(_, draw, _) =>
        d.fleet.Some? && t == draw.tenant && d.tenants[t].control == draw.journal && d.tenants[t].state == Registering
      case Delete(_) => d.fleet.Some? && d.tenants[t].state == Removing
    }
  }

  // ---- A creation to its end ----

  datatype CreateRun = CreateRun(outcome: Step, steps: seq<DirectoryCommand>)

  /** The entries the steps `looks` wrote, in order. */
  function Wrote(looks: seq<Step>): seq<DirectoryCommand> {
    if looks == [] then []
    else
      var last := looks[|looks| - 1];
      Wrote(looks[..|looks| - 1])
        + (if last.Advanced? then [last.command] else if last.Ended? && last.last.Some? then [last.last.value] else [])
  }

  function Position(draws: seq<Draw>, t: TenantId, draw: Draw): (k: Option<nat>)
    ensures k.Some? ==> k.value < |draws| && draws[k.value].tenant == t && draws[k.value] != draw
    ensures k.None? ==> forall i :: 0 <= i < |draws| ==> draws[i].tenant != t || draws[i] == draw
    decreases |draws|
  {
    if draws == [] then None
    else
      var k := Position(draws[..|draws| - 1], t, draw);
      if k.Some? then k
      else if draws[|draws| - 1].tenant == t && draws[|draws| - 1] != draw then Some(|draws| - 1)
      else None
  }

  /** The draw a refused look moves the creation to, when it is one of its own. */
  function Switch(draws: seq<Draw>, at: nat, draw: Draw, step: Step): (k: Option<nat>)
    ensures k.Some? ==> k.value < |draws| && (at < |draws| && draw == draws[at] ==> k.value != at)
    ensures k.Some? ==> step.Turned?
    ensures step.Turned? && draw == DrawAt(draws, at) ==>
      if k.Some? then MovesTo(draws, at, step.refusal, k.value)
      else forall to :: !MovesTo(draws, at, step.refusal, to)
  {
    if step == Turned(IdTaken) && at + 1 < |draws| then Some(at + 1)
    else if step.Turned? && step.refusal.NameTaken? then Position(draws, step.refusal.holder, draw)
    else None
  }

  /** The look is made again after a pause, while patience lasts. */
  predicate Pauses(s: Step) { s.Interrupted? || s.Waits? }

  /** How long `looks` took, with the pauses slept between them; look `k` itself took `ticks(k)`. */
  function Elapsed(looks: seq<Step>, backoff: nat, ticks: nat -> nat): nat {
    if looks == [] then 0
    else
      var n := |looks| - 1;
      Elapsed(looks[..n], backoff, ticks) + ticks(n) + if Pauses(looks[n]) then backoff else 0
  }

  /** When the look after `before` came back. */
  function Now(before: seq<Step>, backoff: nat, ticks: nat -> nat): nat {
    Elapsed(before, backoff, ticks) + ticks(|before|)
  }

  /** When its patience began to count: at the start, and anew with every entry written. */
  function Heard(before: seq<Step>, backoff: nat, ticks: nat -> nat): nat {
    if before == [] then 0
    else
      var rest := before[..|before| - 1];
      if before[|rest|].Advanced? then Now(rest, backoff, ticks) else Heard(rest, backoff, ticks)
  }

  /** How many of `looks` were refused. */
  function Turns(looks: seq<Step>): nat {
    if looks == [] then 0 else Turns(looks[..|looks| - 1]) + if looks[|looks| - 1].Turned? then 1 else 0
  }

  function DrawAt(draws: seq<Draw>, k: nat): Draw { if k < |draws| then draws[k] else Draw(0, 0) }

  /** A look refused under draw `from` moves the creation to draw `to` of its own. */
  ghost predicate MovesTo(draws: seq<Draw>, from: nat, refusal: Refusal, to: nat) {
    && to < |draws|
    && (refusal == IdTaken ==> to == from + 1)
    && (refusal.NameTaken? ==> draws[to].tenant == refusal.holder && draws[to] != DrawAt(draws, from))
    && (refusal == IdTaken || refusal.NameTaken?)
  }

  /** What a creation is run with. */
  datatype Terms = Terms(draws: seq<Draw>, patience: nat, backoff: nat, ticks: nat -> nat, slept: nat -> bool)

  /** After the look that followed `before` there is patience left, and the pause after it is slept out. */
  ghost predicate Patient(w: Terms, before: seq<Step>) {
    w.slept(|before|) && Now(before, w.backoff, w.ticks) < Heard(before, w.backoff, w.ticks) + w.patience
  }

  /** The look `s` after `before`, made under draw `from`, led on to another under draw `to`. */
  ghost predicate LedOn(w: Terms, before: seq<Step>, from: nat, s: Step, to: nat) {
    && !s.Ended? && (Pauses(s) ==> Patient(w, before))
    && (if s.Turned? then MovesTo(w.draws, from, s.refusal, to) else to == from)
  }

  /** How the looks of a creation followed each other, `at` saying under which draw each was made, and the next is. */
  ghost predicate Followed(w: Terms, look: (nat, Draw) -> Step, looks: seq<Step>, at: seq<nat>) {
    if looks == [] then at == [0]
    else
      var n := |looks| - 1;
      && |at| == n + 2 && Followed(w, look, looks[..n], at[..n + 1])
      && looks[n] == look(n, DrawAt(w.draws, at[n])) && LedOn(w, looks[..n], at[n], looks[n], at[n + 1])
  }

  lemma FollowedOn(w: Terms, look: (nat, Draw) -> Step, looks: seq<Step>, at: seq<nat>, s: Step, to: nat)
    requires Followed(w, look, looks, at) && |at| == |looks| + 1 && s == look(|looks|, DrawAt(w.draws, at[|looks|]))
    requires LedOn(w, looks, at[|looks|], s, to)
    ensures Followed(w, look, looks + [s], at + [to])
  {
    assert (looks + [s])[..|looks|] == looks && (at + [to])[..|at|] == at;
  }

  /** The look `s` after `before`, made under draw `from`, ended the run. */
  ghost predicate EndsRun(w: Terms, before: seq<Step>, from: nat, s: Step, run: CreateRun) {
    && run.steps == Wrote(before + [s]) && |run.steps| <= MAX_STEPS
    && (if s.Advanced? then run.outcome == Interrupted(GoingRound) && |run.steps| == MAX_STEPS else Concludes(s, run))
    && (Pauses(s) ==> !Patient(w, before))
    && (s.Turned? ==> Turns(before) == 2 * |w.draws| || forall to :: !MovesTo(w.draws, from, s.refusal, to))
  }

  /** What the loop of a creation keeps: what it wrote, the time, its patience, how often it may still move. */
  datatype Creating = Creating(at: nat, steps: seq<DirectoryCommand>, switches: nat, now: nat, deadline: nat)

  /** That is where `looks` leave it. */
  ghost predicate Stands(w: Terms, look: (nat, Draw) -> Step, looks: seq<Step>, under: seq<nat>, c: Creating) {
    && |under| == |looks| + 1 && under[|looks|] == c.at && Followed(w, look, looks, under)
    && c.steps == Wrote(looks) && c.now == Elapsed(looks, w.backoff, w.ticks)
    && c.deadline == Heard(looks, w.backoff, w.ticks) + w.patience && c.switches + Turns(looks) == 2 * |w.draws|
    && (|c.steps| >= MAX_STEPS ==> |c.steps| == MAX_STEPS && looks != [] && looks[|looks| - 1].Advanced?)
    && (w.draws != [] ==> c.at < |w.draws|)
  }

  /** The look is made again after a pause. */
  predicate Retries(w: Terms, k: nat, c: Creating, s: Step) {
    Pauses(s) && c.now + w.ticks(k) < c.deadline && w.slept(k)
  }

  /** What the loop keeps after look `k` came back with `s` and does not end it: it goes on under draw `to`. */
  function Onward(w: Terms, k: nat, c: Creating, s: Step, to: nat): Creating {
    var now := c.now + w.ticks(k);
    match s
    case Advanced(command) => c.(steps := c.steps + [command], now := now, deadline := now + w.patience)
    case Turned(_) => c.(at := to, switches := if c.switches > 0 then c.switches - 1 else 0, now := now)
    case _ => c.(now := now + w.backoff)
  }

  function TimeLeft(c: Creating): nat { if c.now < c.deadline then c.deadline - c.now else 0 }

  lemma OnwardEnds(w: Terms, k: nat, c: Creating, s: Step, to: nat)
    requires w.backoff > 0 && (if s.Turned? then c.switches > 0 else s.Advanced? || Retries(w, k, c, s))
    ensures var n := Onward(w, k, c, s, to);
      && n.at == (if s.Turned? then to else c.at)
      && (|n.steps| == |c.steps| + 1
          || (n.steps == c.steps && (n.switches < c.switches
                                     || (n.switches == c.switches && TimeLeft(n) < TimeLeft(c)))))
  {
  }

  lemma StandsOn(w: Terms, look: (nat, Draw) -> Step, looks: seq<Step>, under: seq<nat>, c: Creating, s: Step, to: nat)
    requires Stands(w, look, looks, under, c) && |c.steps| < MAX_STEPS && s == look(|looks|, DrawAt(w.draws, c.at))
    requires if s.Turned? then c.switches > 0 && MovesTo(w.draws, c.at, s.refusal, to)
             else to == c.at && (s.Advanced? || Retries(w, |looks|, c, s))
    ensures Stands(w, look, looks + [s], under + [to], Onward(w, |looks|, c, s, to))
  {
    LooksGrow(w, looks, s);
    FollowedOn(w, look, looks, under, s, to);
  }

  lemma StandsEnd(w: Terms, look: (nat, Draw) -> Step, looks: seq<Step>, under: seq<nat>, c: Creating, s: Step)
    requires Stands(w, look, looks, under, c) && |c.steps| < MAX_STEPS && !s.Advanced? && !Retries(w, |looks|, c, s)
    requires s.Turned? ==> c.switches == 0 || forall to :: !MovesTo(w.draws, c.at, s.refusal, to)
    ensures EndsRun(w, looks, c.at, s, Concluded(s, c.steps))
  {
    LooksGrow(w, looks, s);
  }

  lemma StandsRound(w: Terms, look: (nat, Draw) -> Step, looks: seq<Step>, under: seq<nat>, c: Creating)
    requires Stands(w, look, looks, under, c) && |c.steps| >= MAX_STEPS
    ensures looks != []
    ensures var n := |looks| - 1;
      && Followed(w, look, looks[..n], under[..n + 1]) && looks[n] == look(n, DrawAt(w.draws, under[n]))
      && EndsRun(w, looks[..n], under[n], looks[n], CreateRun(Interrupted(GoingRound), c.steps))
  {
    var n := |looks| - 1;
    assert looks[..n] + [looks[n]] == looks;
  }

  /** The run that a look that is no advance ends. */
  function Concluded(s: Step, steps: seq<DirectoryCommand>): CreateRun {
    if s.Ended? then
      var all := if s.last.Some? then steps + [s.last.value] else steps;
      CreateRun(Ended(s.result, if all == [] then None else Some(all[|all| - 1])), all)
    else CreateRun(s, steps)
  }

  lemma LooksGrow(w: Terms, looks: seq<Step>, s: Step)
    ensures Wrote(looks + [s]) ==
            Wrote(looks) + if s.Advanced? then [s.command] else if s.Ended? && s.last.Some? then [s.last.value] else []
    ensures Elapsed(looks + [s], w.backoff, w.ticks) ==
            Now(looks, w.backoff, w.ticks) + if Pauses(s) then w.backoff else 0
    ensures Turns(looks + [s]) == Turns(looks) + if s.Turned? then 1 else 0
    ensures Heard(looks + [s], w.backoff, w.ticks) ==
            if s.Advanced? then Now(looks, w.backoff, w.ticks) else Heard(looks, w.backoff, w.ticks)
  {
    assert (looks + [s])[..|looks|] == looks;
  }

  /**
    Create a tenant under one of the draws of `w`. `look(k, d)` is what the step of attempt
    `k` under the draw `d` comes back with. Time is what the looks take and the pauses
    slept; a pause may be cut short (`slept`), which ends the run. A run ends; the steps it
    reports are those its looks wrote, at most `MAX_STEPS`, and it goes round only with all
    of them written. It is given up on a look that waits or was interrupted exactly when
    its patience ran out or the pause was cut short, and on a refusal exactly when no other
    draw of its own can answer it, or it moved too often.
    */
  method CreateTenant(w: Terms, look: (nat, Draw) -> Step)
    returns (run: CreateRun, ghost looks: seq<Step>, ghost under: seq<nat>, ghost last: Step)
    requires w.backoff > 0
    ensures Followed(w, look, looks, under) && |under| == |looks| + 1
    ensures last == look(|looks|, DrawAt(w.draws, under[|looks|]))
    ensures EndsRun(w, looks, under[|looks|], last, run)
  {
    var k: nat := 0;
    var draw := if w.draws == [] then Draw(0, 0) else w.draws[0];
    var c := Creating(0, [], 2 * |w.draws|, 0, w.patience);
    looks, under := [], [0];
    while |c.steps| < MAX_STEPS
      invariant k == |looks| && Stands(w, look, looks, under, c)
      invariant draw == DrawAt(w.draws, c.at)
      decreases MAX_STEPS - |c.steps|, c.switches, TimeLeft(c)
    {
      var step := look(k, draw);
      var own := Switch(w.draws, c.at, draw, step);
      var to := c.at;
      if own.Some? && c.switches > 0 {
        to, draw := own.value, w.draws[own.value];
      } else if !step.Advanced? && !Retries(w, k, c, step) {
        StandsEnd(w, look, looks, under, c, step);
        return Concluded(step, c.steps), looks, under, step;
      }
      StandsOn(w, look, looks, under, c, step, to);
      OnwardEnds(w, k, c, step, to);
      c := Onward(w, k, c, step, to);
      looks, under, k := looks + [step], under + [to], k + 1;
    }
    StandsRound(w, look, looks, under, c);
    return CreateRun(Interrupted(GoingRound), c.steps), looks[..k - 1], under[..k], looks[k - 1];
  }

  /** The run's outcome is its last look's, naming the last entry the whole run wrote. */
  ghost predicate Concludes(last: Step, run: CreateRun) {
    if last.Ended? then
      run.outcome == Ended(last.result, if run.steps == [] then None else Some(run.steps[|run.steps| - 1]))
    else run.outcome == last && !last.Advanced?
  }

  // ---- A life goes on ----

  /** How far a tenant is in its cell: unknown, its footprint judged, hosted, dropped. */
  function CellRank(r: Registry, t: TenantId): nat {
    if t in r.dropped then 3 else if t in r.hosted then 2 else if t in r.footprints then 1 else 0
  }

  lemma CellRankGrows(r: Registry, c: CellCommand, t: TenantId)
    ensures CellRank(r, t) <= CellRank(ApplyCell(r, c), t)
  {
  }

  /** An operation that waits waits for its cell, which has a step that takes the tenant strictly on. */
  lemma AwaitMoves(op: Operation, d: Directory, r: Registry, fits: bool)
    requires ValidDirectory(d) && StepOf(op, d, r) == Await
    ensures Named(d, op.name).Some?
    ensures var t := Named(d, op.name).value; var c := TenantStep(r, t, d.tenants[t], Some(fits));
      c.Some? && CellRank(r, t) < CellRank(ApplyCell(r, c.value), t)
  {
  }

  /**
    What the end of an operation means: a creation that ends well leaves its draw's
    tenant `READY` under its name, hosted if this step made it so; a removal leaves
    the name free, the tenant it forgot dropped by its cell.
    */
  lemma EndMeans(op: Operation, d: Directory, r: Registry)
    requires ValidDirectory(d) && (StepOf(op, d, r).Done? || StepOf(op, d, r).Finish?)
    ensures var s := StepOf(op, d, r); var after := if s.Finish? then ApplyDirectory(d, s.command).0 else d;
      && (op.Create? ==>
            var t := op.draw.tenant;
            && s.result == Some(t) && t in after.tenants && Named(after, op.name) == Some(t)
            && after.tenants[t] == TenantEntry(op.name, after.tenants[t].cell, op.draw.journal, Ready)
            && (s.Finish? ==> t in r.hosted && t !in r.dropped))
      && (op.Delete? ==>
            && op.name !in after.names && Named(after, op.name) == None
            && (s.Finish? <==> s.result.Some?)
            && (s.Finish? ==> s.result.value in after.removed && s.result.value in r.dropped))
  {
  }

  /** The next step of `op` when only its session and the tenant's cell move. */
  function Moved(op: Operation, d: Directory, r: Registry, fits: bool): (Directory, Registry) {
    var s := StepOf(op, d, r);
    if CommandOf(s).Some? then (ApplyDirectory(d, CommandOf(s).value).0, r)
    else if s == Await && Named(d, op.name).Some? then
      var t := Named(d, op.name).value;
      var c := TenantStep(r, t, d.tenants[t], Some(fits));
      (d, if c.Some? then ApplyCell(r, c.value) else r)
    else (d, r)
  }

  function MovedBy(op: Operation, d: Directory, r: Registry, fits: bool, n: nat): (Directory, Registry)
    decreases n
  {
    if n == 0 then (d, r) else var (e, q) := Moved(op, d, r, fits); MovedBy(op, e, q, fits, n - 1)
  }

  /** The directory once the registration of `draw` under `name` was taken, its tenant at `state` since. */
  function Taking(d: Directory, name: Name, draw: Draw, cell: nat, state: TenantState): Directory {
    d.(names := d.names[name := draw.tenant],
       tenants := d.tenants[draw.tenant := TenantEntry(name, cell, draw.journal, state)])
  }

  lemma CreationBegins(d: Directory, r: Registry, name: Name, draw: Draw, cell: nat, fits: bool)
    requires ValidDirectory(d) && d.fleet.Some? && name !in d.names && cell in d.cells
    requires draw.IsSet() && COLON !in name && Rank(d, draw.tenant) == 0 && CellRank(r, draw.tenant) == 0
    ensures var op := Create(name, draw, Some(cell)); var e := Taking(d, name, draw, cell, Registering);
      && Moved(op, d, r, fits) == (e, r)
      && Moved(op, e, r, fits) == (e, r.(footprints := r.footprints[draw.tenant := fits]))
  {
  }

  lemma CreationJudged(d: Directory, r: Registry, name: Name, draw: Draw, cell: nat, fits: bool)
    requires d.fleet.Some? && CellRank(r, draw.tenant) == 1 && r.footprints[draw.tenant] == fits
    ensures var op := Create(name, draw, Some(cell)); var e := Taking(d, name, draw, cell, Registering);
      var (e', q) := Moved(op, e, r, fits);
      && (fits ==>
            && e' == e && q == r.(hosted := r.hosted + {draw.tenant})
            && Moved(op, e, q, fits) == (Taking(d, name, draw, cell, Ready), q))
      && (!fits ==> (e', q) == (Taking(d, name, draw, cell, Error), r) && Moved(op, e', r, fits) == (e', r))
  {
    var e := Taking(d, name, draw, cell, Registering);
    assert e.tenants[draw.tenant := TenantEntry(name, cell, draw.journal, Ready)]
        == Taking(d, name, draw, cell, Ready).tenants;
    assert e.tenants[draw.tenant := TenantEntry(name, cell, draw.journal, Error)]
        == Taking(d, name, draw, cell, Error).tenants;
  }

  lemma MovedFour(op: Operation, d: Directory, r: Registry, fits: bool)
    ensures var (e1, q1) := Moved(op, d, r, fits); var (e2, q2) := Moved(op, e1, q1, fits);
      var (e3, q3) := Moved(op, e2, q2, fits); MovedBy(op, d, r, fits, 4) == Moved(op, e3, q3, fits)
  {
    var (e1, q1) := Moved(op, d, r, fits);
    var (e2, q2) := Moved(op, e1, q1, fits);
    var (e3, q3) := Moved(op, e2, q2, fits);
    assert MovedBy(op, e1, q1, fits, 3) == MovedBy(op, e2, q2, fits, 2);
    assert MovedBy(op, e2, q2, fits, 2) == MovedBy(op, e3, q3, fits, 1);
  }

  /**
    A creation under a draw nobody used comes to its end: its tenant is hosted and `READY`
    under its name when the footprint fits, and refused for its footprint when it does not.
    */
  lemma CreationEnds(d: Directory, r: Registry, name: Name, draw: Draw, cell: nat, fits: bool)
    requires ValidDirectory(d) && d.fleet.Some? && name !in d.names && cell in d.cells
    requires draw.IsSet() && COLON !in name && Rank(d, draw.tenant) == 0 && CellRank(r, draw.tenant) == 0
    ensures var op := Create(name, draw, Some(cell)); var (e, q) := MovedBy(op, d, r, fits, 4); var t := draw.tenant;
      && e == Taking(d, name, draw, cell, if fits then Ready else Error) && (t in q.hosted <==> fits)
      && StepOf(op, e, q) == if fits then Done(Some(t)) else Refuse(NoFootprint(t))
  {
    CreationBegins(d, r, name, draw, cell, fits);
    CreationJudged(d, r.(footprints := r.footprints[draw.tenant := fits]), name, draw, cell, fits);
    MovedFour(Create(name, draw, Some(cell)), d, r, fits);
  }

  /** A removal comes to its end, whatever its tenant was at: the name is free, and the cell dropped the tenant. */
  lemma RemovalEnds(d: Directory, r: Registry, name: Name, fits: bool)
    requires ValidDirectory(d) && d.fleet.Some? && name in d.names
    ensures var op := Delete(name); var (e, q) := MovedBy(op, d, r, fits, 3); var t := d.names[name];
      && name !in e.names && t in e.removed && t !in e.tenants && t in q.dropped
      && StepOf(op, e, q) == Done(None)
  {
    var op := Delete(name);
    var (e1, q1) := Moved(op, d, r, fits);
    var (e2, q2) := Moved(op, e1, q1, fits);
    assert MovedBy(op, d, r, fits, 3) == MovedBy(op, e1, q1, fits, 2);
    assert MovedBy(op, e1, q1, fits, 2) == Moved(op, e2, q2, fits);
  }
}
