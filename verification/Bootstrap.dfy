/** Which cell a list of addresses serves: the one a majority of them names. */
module Bootstrap {
  import opened Common

  /** The control journals a machine names; `cell` is the cell's id. */
  datatype ControlJournals = ControlJournals(cell: nat, control: nat, fleet: Option<nat>)

  /** A machine's answer: its node, the control journals it serves, its machine interface. */
  datatype Answer = Answer(node: nat, journals: ControlJournals, interface: Value)

  datatype Server = Server(node: nat, address: nat, interface: Value)

  datatype Cell = Cell(journals: ControlJournals, servers: seq<Server>)

  /** Whether address `k` answered with `journals`; one with no node, or none at all, says nothing. */
  predicate Names(answers: seq<Option<Answer>>, k: nat, journals: ControlJournals)
    requires k < |answers|
  {
    answers[k].Some? && answers[k].value.node != 0 && answers[k].value.journals == journals
  }

  predicate NamesCell(a: Option<Answer>, cell: nat) { a.Some? && a.value.node != 0 && a.value.journals.cell == cell }

  /** The journals of the first answer that names `cell`. */
  function First(answers: seq<Option<Answer>>, cell: nat): Option<ControlJournals> {
    if answers == [] then None
    else
      var n := |answers| - 1;
      var before := First(answers[..n], cell);
      if before.Some? then before
      else if NamesCell(answers[n], cell) then Some(answers[n].value.journals) else None
  }

  /** The servers that named `journals`, in the list's order. */
  function Serving(answers: seq<Option<Answer>>, journals: ControlJournals): seq<Server> {
    if answers == [] then []
    else
      var n := |answers| - 1;
      var before := Serving(answers[..n], journals);
      if Names(answers, n, journals) then before + [Server(answers[n].value.node, n, answers[n].value.interface)]
      else before
  }

  /** Each address names one cell at most: two cells' servers are at most the list. */
  lemma {:induction false} CountsMeet(answers: seq<Option<Answer>>, a: ControlJournals, b: ControlJournals)
    requires a != b
    ensures |Serving(answers, a)| + |Serving(answers, b)| <= |answers|
    decreases |answers|
  {
    if answers != [] {
      CountsMeet(answers[..|answers| - 1], a, b);
    }
  }

  lemma {:induction false} FirstNames(answers: seq<Option<Answer>>, cell: nat)
    ensures First(answers, cell).Some? ==> First(answers, cell).value.cell == cell
    decreases |answers|
  {
    if answers != [] {
      FirstNames(answers[..|answers| - 1], cell);
    }
  }

  /** The cells collected from the answers so far. */
  ghost predicate Collected(cells: map<nat, Cell>, answers: seq<Option<Answer>>) {
    && (forall c {:trigger First(answers, c)} :: c in cells <==> First(answers, c).Some?)
    && (forall c {:trigger cells[c]} :: c in cells ==>
          First(answers, c).Some?
          && cells[c] == Cell(First(answers, c).value, Serving(answers, First(answers, c).value)))
  }

  /** What `cell` holds once the answers `up` are taken, `k` the last. */
  lemma CollectStep(cells: map<nat, Cell>, answers: seq<Option<Answer>>, k: nat, c: nat)
    requires k < |answers| && Collected(cells, answers[..k])
    ensures var up := answers[..k + 1];
      && up[..k] == answers[..k]
      && (c in cells ==> First(up, c) == First(answers[..k], c))
      && (c !in cells ==> First(up, c) == if NamesCell(answers[k], c) then Some(answers[k].value.journals) else None)
  {
    assert answers[..k + 1][..k] == answers[..k];
    assert First(answers[..k], c).Some? <==> c in cells;
  }

  lemma {:induction false} NobodyServes(answers: seq<Option<Answer>>, j: ControlJournals)
    requires First(answers, j.cell) == None
    ensures Serving(answers, j) == []
    decreases |answers|
  {
    if answers != [] {
      NobodyServes(answers[..|answers| - 1], j);
    }
  }

  method Collect(answers: seq<Option<Answer>>) returns (cells: map<nat, Cell>)
    ensures Collected(cells, answers)
  {
    cells := map[];
    for k := 0 to |answers|
      invariant Collected(cells, answers[..k])
    {
      ghost var before := cells;
      if answers[k].Some? && answers[k].value.node != 0 {
        var a := answers[k].value;
        var held := if a.journals.cell in cells then cells[a.journals.cell] else Cell(a.journals, []);
        if held.journals == a.journals {
          held := held.(servers := held.servers + [Server(a.node, k, a.interface)]);
        }
        cells := cells[a.journals.cell := held];
      }
      CollectKeeps(before, cells, answers, k);
    }
    assert answers[..|answers|] == answers;
  }

  lemma CollectKeeps(before: map<nat, Cell>, after: map<nat, Cell>, answers: seq<Option<Answer>>, k: nat)
    requires k < |answers| && Collected(before, answers[..k])
    requires if answers[k].Some? && answers[k].value.node != 0 then
        var a := answers[k].value;
        var held := if a.journals.cell in before then before[a.journals.cell] else Cell(a.journals, []);
        after == before[a.journals.cell :=
          if held.journals == a.journals then held.(servers := held.servers + [Server(a.node, k, a.interface)])
          else held]
      else after == before
    ensures Collected(after, answers[..k + 1])
  {
    var up := answers[..k + 1];
    forall c: nat
      ensures c in after <==> First(up, c).Some?
      ensures c in after ==> after[c] == Cell(First(up, c).value, Serving(up, First(up, c).value))
    {
      CollectStep(before, answers, k, c);
      if c !in before && First(up, c).Some? {
        FirstNames(up, c);
        NobodyServes(answers[..k], First(up, c).value);
      }
      if c in before {
        FirstNames(answers[..k], c);
      }
    }
  }

  /** A majority of the list serves `j`, and the first answer that names its cell names `j`. */
  ghost predicate Elected(answers: seq<Option<Answer>>, j: ControlJournals) {
    First(answers, j.cell) == Some(j) && |Serving(answers, j)| >= |answers| / 2 + 1
  }

  /** At most one cell is elected. */
  lemma OneElected(answers: seq<Option<Answer>>, a: ControlJournals, b: ControlJournals)
    requires Elected(answers, a) && Elected(answers, b)
    ensures a == b
  {
    if a != b {
      CountsMeet(answers, a, b);
    }
  }

  /**
    The cell a majority of the list serves, with exactly the servers that named it:
    the answer is the one elected cell, and none when there is none.
    */
  method MajorityCell(answers: seq<Option<Answer>>) returns (cell: Option<Cell>)
    ensures cell.Some? ==>
      Elected(answers, cell.value.journals) && cell.value.servers == Serving(answers, cell.value.journals)
    ensures cell.None? ==> forall j :: !Elected(answers, j)
  {
    var cells := Collect(answers);
    var majority := |answers| / 2 + 1;
    cell := None;
    var left := cells.Keys;
    while left != {}
      invariant left <= cells.Keys
      invariant cell.Some? ==>
        Elected(answers, cell.value.journals) && cell.value.servers == Serving(answers, cell.value.journals)
      invariant cell.Some? ==> cell.value.journals.cell in cells.Keys - left
      invariant cell.None? ==> forall c :: c in cells.Keys - left ==> |cells[c].servers| < majority
      decreases left
    {
      var c :| c in left;
      left := left - {c};
      FirstNames(answers, c);
      if |cells[c].servers| >= majority {
        assert Elected(answers, cells[c].journals);
        if cell.Some? {
          OneElected(answers, cell.value.journals, cells[c].journals);
        }
        assert cell == None;
        cell := Some(cells[c]);
      }
    }
    if cell == None {
      forall j
        ensures !Elected(answers, j)
      {
        if First(answers, j.cell) == Some(j) {
          assert j.cell in cells;
        }
      }
    }
  }

  lemma OneMore(answers: seq<Option<Answer>>, a: Option<Answer>, j: ControlJournals)
    ensures |Serving(answers + [a], j)| ==
      |Serving(answers, j)| + if a.Some? && a.value.node != 0 && a.value.journals == j then 1 else 0
    ensures First(answers + [a], j.cell) ==
      if First(answers, j.cell).Some? then First(answers, j.cell)
      else if NamesCell(a, j.cell) then Some(a.value.journals) else None
  {
    assert (answers + [a])[..|answers|] == answers;
  }

  /** One answer of a broken server, asked first, hides a cell a majority serves. */
  lemma BrokenFirstHides(good: ControlJournals, bad: ControlJournals)
    requires good != bad && good.cell == bad.cell
    ensures var answers := [Some(Answer(1, bad, []))] + [Some(Answer(2, good, []))] + [Some(Answer(3, good, []))];
      && |Serving(answers, good)| == 2 >= |answers| / 2 + 1
      && forall j :: !Elected(answers, j)
  {
    var none: seq<Option<Answer>> := [];
    var a, b, c := Some(Answer(1, bad, [])), Some(Answer(2, good, [])), Some(Answer(3, good, []));
    assert none + [a] == [a];
    OneMore(none, a, good);
    OneMore([a], b, good);
    OneMore([a] + [b], c, good);
    var answers := [a] + [b] + [c];
    forall j
      ensures !Elected(answers, j)
    {
      if j != good {
        CountsMeet(answers, good, j);
      }
    }
  }
}
