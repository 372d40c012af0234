/**
  A writer: its uuid, whether it leads, and the range in which its writes may overlap.
  The source copies a `Writer` freely, so it is a value here. The uuid of the
  writer's next term, which the source derives from its seed, is the parameter
  `mint`.
  */
module Writer {
  import opened Common
  import opened Journal

  datatype Outcome =
    | Written(at: nat, count: nat, duplicate: bool, resolved: bool)
    | NotOwner
    | Superseded(view: View)
    | Refused(view: View)
    | Truncated(view: View)
    | WrongMode(view: View)
    | NotWritten(view: View)
    | Unavailable(hint: Option<nat>)
    | UnknownJournal
    | TooLarge(maxRecords: nat, maxBytes: nat)
    | Denied
    | Moved
    | Ambiguous

  datatype Claim =
    | Won(view: View)
    | Lost(view: View)
    | Owned(view: View)
    | Unclaimed

  datatype Writer = Writer(
    mine: Uuid,
    leads: bool,
    nextSeq: nat,
    ledFrom: Option<nat>,
    openedTo: nat,
    shared: Option<(nat, nat)>)
  {
    /** Its uuid while it leads; none otherwise. */
    function Owner(): Option<Uuid> { if leads then Some(mine) else None }

    function AdvanceTo(next: nat): Writer { this.(nextSeq := Max(nextSeq, next)) }

    function SawLeading(next: nat): Writer {
      this.(ledFrom := Some(if ledFrom.Some? then Min(ledFrom.value, next) else next))
    }

    function NextTerm(mint: Uuid): Writer {
      this.(mine := mint, ledFrom := None, openedTo := 0, shared := None)
    }

    function BeginTerm(mint: Uuid): Writer {
      if leads then this.(leads := false).NextTerm(mint) else this
    }

    function Learn(view: View, mint: Uuid): Writer {
      if view.leader == Some(mine) then
        this.(leads := true, nextSeq := Max(nextSeq, view.nextSeq)).SawLeading(view.nextSeq)
      else if leads then this.(leads := false).NextTerm(mint)
      else this
    }

    function Claimed(claim: Claim, mint: Uuid): Writer {
      match claim
      case Won(view) =>
        if view.leader == Some(mine) then
          this.(leads := true, nextSeq := view.nextSeq).SawLeading(view.nextSeq)
        else Learn(view, mint)
      case Lost(view) => Learn(view, mint)
      case Owned(view) => Learn(view, mint)
      case Unclaimed => this
    }

    /** Note a new write; the positions two writes may share grow with it. */
    function Open(e: Entry): Writer {
      if Owner() != Some(e.leader) then this
      else
        var range := if shared.Some? then shared.value else (e.at, openedTo);
        this.(
          openedTo := Max(openedTo, e.End()),
          shared := if e.at < openedTo then Some((Min(range.0, e.at), Max(range.1, openedTo))) else shared)
    }

    /** The position `e`'s uuid is known to lead from, unless `e` shares one. */
    function LedFrom(e: Entry): Option<nat> {
      if Owner() != Some(e.leader) then None
      else if shared.Some? && e.at < shared.value.1 && shared.value.0 < e.End() then None
      else ledFrom
    }
  }

  /**
    Of the writes `opens`, those under the writer's uuid lie below the frontier,
    and any position two of them share lies in the range the writer keeps.
    */
  ghost predicate Tracks(w: Writer, opens: map<nat, Entry>) {
    && (forall k :: k in opens && opens[k].leader == w.mine ==> opens[k].End() <= w.openedTo)
    && (forall a, b :: a in opens && b in opens && a != b ==> Kept(w, opens[a], opens[b]))
    && (w.shared.Some? ==> w.shared.value.0 < w.shared.value.1 <= w.openedTo)
  }

  ghost predicate Kept(w: Writer, a: Entry, b: Entry) {
    a.leader == b.leader == w.mine && a.Overlaps(b) ==>
      w.shared.Some? && w.shared.value.0 <= Max(a.at, b.at) && Min(a.End(), b.End()) <= w.shared.value.1
  }

  lemma OpenTracks(w: Writer, opens: map<nat, Entry>, id: nat, e: Entry)
    requires Tracks(w, opens) && w.Owner() == Some(e.leader) && id !in opens
    ensures Tracks(w.Open(e), opens[id := e])
  {
    var more := opens[id := e];
    forall a, b | a in more && b in more && a != b
      ensures Kept(w.Open(e), more[a], more[b])
    {
      if a != id && b != id {
        assert Kept(w, opens[a], opens[b]);
      }
    }
  }

  /** A write opened past all opened before it knows where its uuid leads from, whatever is opened past it later. */
  lemma OpenedAloneKnows(w: Writer, opens: map<nat, Entry>, e: Entry, later: Entry)
    requires Tracks(w, opens) && w.Owner() == Some(e.leader) && w.openedTo <= e.at
    ensures w.Open(e).LedFrom(e) == w.ledFrom && w.Open(e).openedTo == e.End()
    ensures e.End() <= later.at ==> w.Open(e).Open(later).LedFrom(e) == w.ledFrom
  {
  }

  /** A writer that led begins a term of which nothing is known yet; one that did not still has its own to claim. */
  lemma TermBegins(w: Writer, opens: map<nat, Entry>, mint: Uuid)
    requires Tracks(w, opens) && forall k :: k in opens ==> opens[k].leader != mint
    ensures var n := w.BeginTerm(mint);
      && !n.leads && Tracks(n, opens) && n.nextSeq == w.nextSeq
      && n.mine == (if w.leads then mint else w.mine)
      && (w.leads ==> n.ledFrom == None && n.shared == None)
  {
    var n := w.BeginTerm(mint);
    forall a, b | a in opens && b in opens && a != b
      ensures Kept(n, opens[a], opens[b])
    {
      assert Kept(w, opens[a], opens[b]);
    }
  }

  /** A write with a known `led_from` shares no position with a write opened before it or after it. */
  lemma LedFromIsAlone(w: Writer, opens: map<nat, Entry>, whole: Entry, a: nat, b: nat, p: nat)
    requires Tracks(w, opens) && a in opens && b in opens && a != b
    requires w.LedFrom(whole).Some? && opens[a].leader == whole.leader
    requires whole.Covers(p) && opens[a].Covers(p)
    ensures !(opens[b].leader == whole.leader && opens[b].Covers(p))
  {
    assert Kept(w, opens[a], opens[b]);
  }
}
