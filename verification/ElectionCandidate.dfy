/**
  The candidate as the source keeps it: one object around its fold, whose fields
  each call updates in place. Each method is proved to move it as the function of
  Election.dfy says; records it appends are returned.
  */
module ElectionCandidate {
  import opened Common
  import F = ElectionFold
  import E = Election
  import opened ElectionLeads

  class Election {
    const fold: F.ElectionFold
    var me: F.Candidate
    var minted: set<F.Uuid>
    var handed: Option<F.Uuid>
    var leading: Option<nat>
    var resigned: Option<nat>
    var published: bool
    var caughtUp: bool
    var floor: nat

    ghost function View(): E.Inc
      reads this, fold
    {
      E.Inc(me, fold.View(), minted, handed, leading, resigned, published, caughtUp, floor)
    }

    /** It leads no term it gave up. */
    ghost predicate Valid()
      reads this, fold
    {
      fold.Valid() && (leading.Some? && resigned.Some? ==> leading.value > resigned.value)
    }

    constructor (candidate: F.Candidate)
      requires candidate.id != 0
      ensures Valid() && fresh(fold) && View() == E.New(candidate)
    {
      fold := new F.ElectionFold();
      me, minted, handed := candidate, {}, None;
      leading, resigned, published, caughtUp, floor := None, None, false, false, 0;
    }

    method Note(change: F.Change)
      requires Valid()
      modifies this`handed
      ensures Valid() && View() == E.Noted(old(View()), change)
    {
      if change.HandedOff? && caughtUp && fold.leader.Some? && fold.leader.value.candidate.id == me.id {
        handed := Some(fold.leader.value.uuid);
      }
    }

    method TakeAll(records: seq<F.Record>)
      requires Valid()
      modifies this`handed, fold
      ensures Valid() && View() == E.TookAll(old(View()), records)
    {
      for k := 0 to |records|
        invariant Valid() && E.TookAll(old(View()), records) == E.TookAll(View(), records[k..])
        invariant leading == old(leading) && resigned == old(resigned)
      {
        assert records[k..][1..] == records[k + 1..];
        var change := fold.Absorb(fold.next, records[k]);
        Note(change);
      }
    }

    /** After a page: at the tail it caught up, unless it goes back to the floor (`None`: read on). */
    method EndPage(first: nat, tail: nat, nothing: bool) returns (reached: Option<bool>)
      requires Valid() && E.Rewindable(fold.View(), first)
      modifies this`caughtUp, fold
      ensures Valid() && (reached == Some(true) ==> caughtUp)
      ensures reached == Some(false) <==> nothing && old(fold.next) < tail
      ensures var (f, done) := E.PageEnd(old(fold.View()), first, tail);
        && View() == old(View()).(fold := f, caughtUp := old(caughtUp) || done)
        && (reached == Some(true) <==> done)
    {
      if fold.next < tail {
        return if nothing then Some(false) else None;
      }
      if |fold.tail| >= E.TAIL_WAITS {
        var unknown := fold.Rewind(first);
        if unknown {
          return None;
        }
      }
      caughtUp := true;
      reached := Some(true);
    }

    /** Fold a page read at the fold's position; whether it reached the tail. */
    method FoldPage(records: seq<F.Record>, first: nat, tail: nat) returns (reached: Option<bool>)
      requires Valid() && E.Rewindable(E.PageFold(View(), records, first), first)
      modifies this`handed, this`caughtUp, this`floor, fold
      ensures Valid() && View() == E.Paged(old(View()), records, first, tail)
      ensures reached == Some(true) <==> E.PageEnd(E.PageFold(old(View()), records, first), first, tail).1
      ensures reached == Some(true) ==> caughtUp
      ensures reached == Some(false) <==> records == [] && E.PageFold(old(View()), records, first).next < tail
    {
      E.TookFolds(View(), records);
      TakeAll(records);
      floor := first;
      var anchored := fold.SeeFloor(first);
      assert fold.View() == E.PageFold(old(View()), records, first);
      reached := EndPage(first, tail, records == []);
    }

    /** Overtaken by the floor: it stands there, or the second time at the tail, unless a record held anchors it. */
    method ChaseFloor(first: nat, tail: nat, chased: bool) returns (anchored: bool)
      requires Valid()
      modifies this`floor, fold
      ensures Valid() && View() == E.Chased(old(View()), first, tail, chased)
      ensures anchored <==> F.Anchors(old(fold.View()), first)
      ensures anchored ==> fold.known
    {
      floor := first;
      anchored := fold.SeeFloor(first);
      if anchored {
        return;
      }
      if chased {
        fold.ResumeAtTail(first, tail);
      } else {
        fold.Gap(first);
      }
    }

    method Publish(interface: Value)
      requires Valid()
      modifies this`me, this`published
      ensures Valid() && View() == E.Published(old(View()), interface)
      ensures E.RenewalOf(View()).Some? ==> E.RenewalOf(View()).value.candidate.interface == interface
      ensures forall mint :: E.Campaigned(View(), mint).1.candidate.interface == []
    {
      me := me.(interface := interface);
      published := true;
    }

    method Unpublish()
      requires Valid()
      modifies this`me, this`published
      ensures Valid() && View() == E.Unpublished(old(View())) && !published
    {
      if published {
        me := me.(interface := []);
      }
      published := false;
    }

    method Current() returns (leader: Option<F.Leader>)
      ensures leader == E.Leading(View())
    {
      if leading.Some? && fold.leader.Some? && fold.leader.value.term == leading.value {
        return fold.leader;
      }
      return None;
    }

    /** The leadership it holds is the fold's for the term it leads: its own incarnation's, and not given up. */
    method Led(ghost log: seq<F.Record>) returns (leader: Option<F.Leader>)
      requires Valid() && E.Reads(log, View()) && LeadOk(log, View())
      ensures leader == E.Leading(View())
      ensures leader.Some? ==> E.Mine(View(), leader.value) && (resigned.Some? ==> resigned.value < leader.value.term)
    {
      leader := Current();
      if leader.Some? {
        LeadsItsOwn(log, View());
      }
    }

    /** The record asks for one term more than the fold's, under `mint`, and names nothing published. */
    method Campaign(mint: F.Uuid) returns (record: F.Record)
      requires Valid() && mint != 0
      modifies this`me, this`published, this`minted
      ensures Valid() && (View(), record) == E.Campaigned(old(View()), mint)
    {
      var term := fold.term + 1;
      minted := minted + {mint};
      Unpublish();
      record := F.Campaign(term, me, mint);
    }

    /** The end of one turn: it leads what its fold says. Whether the term is new to it. */
    method Settle() returns (anew: bool)
      requires Valid()
      modifies this`leading, this`me, this`published
      ensures Valid() && View() == E.Settled(old(View()))
      ensures anew <==> leading.Some? && leading != old(leading)
    {
      var before := leading;
      leading := None;
      if fold.leader.Some? {
        var l := fold.leader.value;
        var mine := l.candidate.id == me.id && (l.uuid in minted || handed == Some(l.uuid));
        if mine && !(resigned.Some? && l.term <= resigned.value) {
          leading := Some(l.term);
        }
      }
      assert leading.Some? ==> resigned.None? || leading.value > resigned.value;
      anew := leading.Some? && leading != before;
      if anew {
        Unpublish();
      }
    }

    /** The renewal it appends when one is due is of a term of its own; it may truncate to a record the rule counted. */
    method Renew(ghost log: seq<F.Record>) returns (record: Option<F.Record>, upTo: Option<nat>)
      requires Valid() && E.Reads(log, View()) && LeadOk(log, View())
      ensures record == E.RenewalOf(View()) && (record.Some? <==> upTo.Some?)
      ensures record.Some? ==> E.Mine(View(), fold.leader.value) && F.Legit(log, upTo.value)
    {
      var leader := Led(log);
      if leader == None {
        return None, None;
      }
      assert leader.value.candidate.id == me.id && (leader.value.uuid in minted || handed == Some(leader.value.uuid));
      F.AnchorIsLegit(log, fold.next);
      return Some(F.Renew(leader.value.term, me, leader.value.uuid)), Some(leader.value.anchor);
    }

    /** The truncation it asked for was applied. */
    method Told(first: nat)
      requires Valid()
      modifies this`floor
      ensures Valid() && View() == E.Told(old(View()), first) && floor == first
    {
      floor := first;
    }

    method GiveUp(term: nat)
      requires Valid()
      modifies this`resigned, this`leading
      ensures Valid() && View() == E.GaveUp(old(View()), term)
      ensures resigned.Some? && resigned.value >= term && E.Leading(View()) == None
    {
      resigned := Some(if resigned.Some? then Max(resigned.value, term) else term);
      leading := None;
    }

    /** It leads nothing after; the record names `successor`, under `mint`, when that is another candidate. */
    method Resign(successor: Option<F.Candidate>, mint: F.Uuid) returns (record: Option<F.Record>)
      requires Valid() && mint != 0
      modifies this`minted, this`resigned, this`leading
      ensures Valid() && (View(), record) == E.Resigned(old(View()), successor, mint)
      ensures record.Some? <==> E.Leading(old(View())).Some?
      ensures record.Some? ==>
        && E.Leading(View()) == None && resigned.Some? && resigned.value >= record.value.term
        && record.value.Resign? && record.value.term == E.Leading(old(View())).value.term && record.value.who == me.id
        && (record.value.successor.Some? <==> successor.Some? && successor.value.id !in {0, me.id})
        && (record.value.successor.Some? ==> record.value.successor.value == (successor.value, mint))
      ensures record == None ==> View() == old(View())
    {
      var leader := Current();
      if leader == None {
        return None;
      }
      var next := successor.Some? && successor.value.id != 0 && successor.value.id != me.id;
      if next {
        minted := minted + {mint};
      }
      GiveUp(leader.value.term);
      record := Some(F.Resign(leader.value.term, me.id, if next then Some((successor.value, mint)) else None));
    }

    /** Stop leading without a record. */
    method StepDown() returns (term: Option<nat>)
      requires Valid()
      modifies this`resigned, this`leading
      ensures Valid() && View() == E.SteppedDown(old(View()))
      ensures E.Leading(old(View())) == None ==> term == None && View() == old(View())
      ensures E.Leading(old(View())).Some? ==>
        && term == Some(E.Leading(old(View())).value.term)
        && E.Leading(View()) == None && resigned.Some? && resigned.value >= term.value
    {
      var leader := Current();
      if leader == None {
        return None;
      }
      GiveUp(leader.value.term);
      term := Some(leader.value.term);
    }
  }
}
