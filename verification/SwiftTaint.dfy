/** The name sets of the pause scan (apps/ios/LoonextTests/
    CancelOneActionTests.swift, lines 1495-1543 and 1687-1734): what carries the
    pause read, which members draw the exit, and what the path reaches. A line is
    the names it mentions, the assignments on it, and whether it says "pause". */
module SwiftTaint {

  type Name = string

  /** One statement that assigns: its target and the names in its value. */
  datatype Assignment = Assignment(target: Name, value: seq<Name>)

  datatype Line = Line(saysPause: bool, names: seq<Name>, assignments: seq<Assignment>, blank: bool)

  /** A declaration, with the rows it is read by. */
  datatype Declared = Declared(name: Name, start: nat, rows: seq<nat>)

  predicate InSource(source: seq<Line>, rows: seq<nat>) { forall i :: 0 <= i < |rows| ==> rows[i] < |source| }

  predicate Mentions(names: seq<Name>, among: set<Name>) { exists n :: n in names && n in among }

  predicate RowsMention(source: seq<Line>, rows: seq<nat>, among: set<Name>)
    requires InSource(source, rows)
  {
    exists i :: 0 <= i < |rows| && Mentions(source[rows[i]].names, among)
  }

  predicate RowsSayPause(source: seq<Line>, rows: seq<nat>)
    requires InSource(source, rows)
  {
    exists i :: 0 <= i < |rows| && source[rows[i]].saysPause
  }

  /** The rows a declaration is judged by: those substituted for it, if any. */
  function RowsOf(entry: Declared, substituting: map<nat, seq<nat>>): seq<nat> {
    if entry.start in substituting then substituting[entry.start] else entry.rows
  }

  predicate AllInSource(source: seq<Line>, declared: seq<Declared>, substituting: map<nat, seq<nat>>) {
    forall i :: 0 <= i < |declared| ==> InSource(source, RowsOf(declared[i], substituting))
  }

  // ------------------------------------------------------------------- taint

  /** A declaration whose rows say it, or mention a name that carries it. */
  predicate Derives(source: seq<Line>, entry: Declared, substituting: map<nat, seq<nat>>, among: set<Name>)
    requires InSource(source, RowsOf(entry, substituting))
  {
    var rows := RowsOf(entry, substituting);
    RowsSayPause(source, rows) || RowsMention(source, rows, among)
  }

  /** Row `row` is one of those the declaration is judged by: where rows are
      substituted for it, those and no others. */
  ghost predicate ReadBy(e: Declared, substituting: map<nat, seq<nat>>, row: nat) {
    if e.start in substituting then row in substituting[e.start] else row in e.rows
  }

  /** The line says "pause" itself, or one of its names is among `names`. */
  ghost predicate Carries(line: Line, names: set<Name>) {
    line.saysPause || exists n :: n in line.names && n in names
  }

  ghost predicate DeclarationsClosed(source: seq<Line>, declared: seq<Declared>,
                                     substituting: map<nat, seq<nat>>, names: set<Name>)
  {
    forall e, row: nat {:trigger ReadBy(e, substituting, row)} ::
      e in declared && ReadBy(e, substituting, row) && row < |source| && Carries(source[row], names) ==> e.name in names
  }

  /** The test of the scan finds exactly the declarations that have such a row. */
  lemma DerivesByRow(source: seq<Line>, e: Declared, substituting: map<nat, seq<nat>>, names: set<Name>)
    requires InSource(source, RowsOf(e, substituting))
    ensures Derives(source, e, substituting, names) <==>
            exists row: nat :: ReadBy(e, substituting, row) && row < |source| && Carries(source[row], names)
  {
    var rows := RowsOf(e, substituting);
    if row: nat :| ReadBy(e, substituting, row) && row < |source| && Carries(source[row], names) {
      var i :| 0 <= i < |rows| && rows[i] == row;
    }
    if RowsSayPause(source, rows) {
      var i :| 0 <= i < |rows| && source[rows[i]].saysPause;
      assert ReadBy(e, substituting, rows[i]);
    } else if RowsMention(source, rows, names) {
      var i :| 0 <= i < |rows| && Mentions(source[rows[i]].names, names);
      assert ReadBy(e, substituting, rows[i]) && Carries(source[rows[i]], names);
    }
  }

  lemma NoneDerives(source: seq<Line>, declared: seq<Declared>, substituting: map<nat, seq<nat>>, names: set<Name>)
    requires AllInSource(source, declared, substituting)
    requires forall j :: 0 <= j < |declared| && Derives(source, declared[j], substituting, names) ==>
               declared[j].name in names
    ensures DeclarationsClosed(source, declared, substituting, names)
  {
    forall e, row: nat | e in declared && ReadBy(e, substituting, row) && row < |source| && Carries(source[row], names)
      ensures e.name in names
    {
      var j :| 0 <= j < |declared| && declared[j] == e;
      assert InSource(source, RowsOf(declared[j], substituting));
      DerivesByRow(source, e, substituting, names);
    }
  }

  ghost predicate LineClosed(line: Line, names: set<Name>) {
    forall a :: a in line.assignments && (exists n :: n in a.value && n in names) ==> a.target in names
  }

  ghost predicate LinesClosed(source: seq<Line>, from: nat, to: nat, names: set<Name>)
    requires to <= |source|
  {
    forall k :: from <= k < to ==> LineClosed(source[k], names)
  }

  /** Closed under both rules of the scan. */
  ghost predicate Closed(source: seq<Line>, declared: seq<Declared>, from: nat, to: nat,
                         substituting: map<nat, seq<nat>>, names: set<Name>)
    requires to <= |source|
  {
    DeclarationsClosed(source, declared, substituting, names) && LinesClosed(source, from, to, names)
  }

  /** Every name the scan could add. */
  ghost function Targets(line: Line): set<Name> { set a | a in line.assignments :: a.target }

  ghost function Candidates(source: seq<Line>, declared: seq<Declared>, incoming: set<Name>): set<Name> {
    incoming + (set e | e in declared :: e.name)
    + (set l, a | l in source && a in l.assignments :: a.target)
  }

  lemma MentionsGrow(names: seq<Name>, small: set<Name>, large: set<Name>)
    requires small <= large && Mentions(names, small)
    ensures Mentions(names, large)
  {
    var n :| n in names && n in small;
    assert n in large;
  }

  lemma DerivesGrow(source: seq<Line>, entry: Declared, substituting: map<nat, seq<nat>>,
                    small: set<Name>, large: set<Name>)
    requires InSource(source, RowsOf(entry, substituting)) && small <= large
    requires Derives(source, entry, substituting, small)
    ensures Derives(source, entry, substituting, large)
  {
    var rows := RowsOf(entry, substituting);
    if !RowsSayPause(source, rows) {
      var i :| 0 <= i < |rows| && Mentions(source[rows[i]].names, small);
      MentionsGrow(source[rows[i]].names, small, large);
    }
  }

  /** `found` lies inside every closed set that holds the incoming names. */
  ghost predicate Forced(source: seq<Line>, declared: seq<Declared>, from: nat, to: nat,
                         substituting: map<nat, seq<nat>>, incoming: set<Name>, found: set<Name>)
    requires to <= |source|
  {
    forall t: set<Name> :: incoming <= t && Closed(source, declared, from, to, substituting, t) ==> found <= t
  }

  lemma ForcedByDeclaration(source: seq<Line>, declared: seq<Declared>, from: nat, to: nat,
                            substituting: map<nat, seq<nat>>, incoming: set<Name>, found: set<Name>, i: nat)
    requires to <= |source| && AllInSource(source, declared, substituting) && i < |declared|
    requires Forced(source, declared, from, to, substituting, incoming, found)
    requires Derives(source, declared[i], substituting, found)
    ensures Forced(source, declared, from, to, substituting, incoming, found + {declared[i].name})
  {
    forall t: set<Name> | incoming <= t && Closed(source, declared, from, to, substituting, t)
      ensures found + {declared[i].name} <= t
    {
      DerivesGrow(source, declared[i], substituting, found, t);
      DerivesByRow(source, declared[i], substituting, t);
    }
  }

  lemma ForcedByAssignment(source: seq<Line>, declared: seq<Declared>, from: nat, to: nat,
                           substituting: map<nat, seq<nat>>, incoming: set<Name>, found: set<Name>,
                           k: nat, a: Assignment)
    requires to <= |source| && AllInSource(source, declared, substituting) && from <= k < to
    requires Forced(source, declared, from, to, substituting, incoming, found)
    requires a in source[k].assignments && Mentions(a.value, found)
    ensures Forced(source, declared, from, to, substituting, incoming, found + {a.target})
  {
    forall t: set<Name> | incoming <= t && Closed(source, declared, from, to, substituting, t)
      ensures found + {a.target} <= t
    {
      MentionsGrow(a.value, found, t);
      assert LineClosed(source[k], t);
    }
  }

  /** One pass over the declarations. `growing` says whether anything was added. */
  method DeclarationPass(source: seq<Line>, declared: seq<Declared>, ghost from: nat, ghost to: nat,
                         substituting: map<nat, seq<nat>>, ghost incoming: set<Name>, before: set<Name>)
    returns (found: set<Name>, growing: bool)
    requires to <= |source| && AllInSource(source, declared, substituting)
    requires Forced(source, declared, from, to, substituting, incoming, before)
    ensures Forced(source, declared, from, to, substituting, incoming, found)
    ensures before <= found <= before + set e | e in declared :: e.name
    ensures growing <==> found != before
    ensures !growing ==> DeclarationsClosed(source, declared, substituting, before)
  {
    found, growing := before, false;
    for i := 0 to |declared|
      invariant before <= found <= before + set e | e in declared :: e.name
      invariant growing <==> found != before
      invariant Forced(source, declared, from, to, substituting, incoming, found)
      invariant !growing ==> forall j :: 0 <= j < i && Derives(source, declared[j], substituting, before) ==>
        declared[j].name in before
    {
      var entry := declared[i];
      if entry.name !in found && Derives(source, entry, substituting, found) {
        ForcedByDeclaration(source, declared, from, to, substituting, incoming, found, i);
        found := found + {entry.name};
        growing := true;
      }
    }
    if !growing { NoneDerives(source, declared, substituting, before); }
  }

  /** One pass over the assignments of one line: every one of them, not the first. */
  method LinePass(source: seq<Line>, ghost declared: seq<Declared>, ghost from: nat, ghost to: nat,
                  ghost substituting: map<nat, seq<nat>>, ghost incoming: set<Name>, before: set<Name>, k: nat)
    returns (found: set<Name>, growing: bool)
    requires to <= |source| && AllInSource(source, declared, substituting) && from <= k < to
    requires Forced(source, declared, from, to, substituting, incoming, before)
    ensures Forced(source, declared, from, to, substituting, incoming, found)
    ensures before <= found <= before + Targets(source[k])
    ensures growing <==> found != before
    ensures !growing ==> LineClosed(source[k], before)
  {
    found, growing := before, false;
    var line := source[k];
    for i := 0 to |line.assignments|
      invariant before <= found <= before + Targets(line)
      invariant growing <==> found != before
      invariant Forced(source, declared, from, to, substituting, incoming, found)
      invariant !growing ==> forall a :: a in line.assignments[..i] && Mentions(a.value, before) ==> a.target in before
    {
      var statement := line.assignments[i];
      assert line.assignments[..i + 1] == line.assignments[..i] + [statement];
      if statement.target !in found && Mentions(statement.value, found) {
        ForcedByAssignment(source, declared, from, to, substituting, incoming, found, k, statement);
        found := found + {statement.target};
        growing := true;
      }
    }
    assert line.assignments[..|line.assignments|] == line.assignments;
  }

  /** The least set of names that holds the incoming ones and is closed under the
      declaration rule and the assignment rule. */
  method PauseDerived(source: seq<Line>, declared: seq<Declared>, from: nat, to: nat,
                      incoming: set<Name>, substituting: map<nat, seq<nat>>)
    returns (found: set<Name>)
    requires from <= to <= |source| && AllInSource(source, declared, substituting)
    ensures incoming <= found && Closed(source, declared, from, to, substituting, found)
    ensures forall t: set<Name> ::
      incoming <= t && Closed(source, declared, from, to, substituting, t) ==> found <= t
  {
    found := incoming;
    var growing := true;
    ghost var all := Candidates(source, declared, incoming);
    while growing
      invariant incoming <= found <= all
      invariant Forced(source, declared, from, to, substituting, incoming, found)
      invariant !growing ==> Closed(source, declared, from, to, substituting, found)
      decreases all - found, growing
    {
      ghost var before := found;
      found, growing := DeclarationPass(source, declared, from, to, substituting, incoming, found);
      for index := from to to
        invariant before <= found <= all
        invariant growing <==> found != before
        invariant Forced(source, declared, from, to, substituting, incoming, found)
        invariant !growing ==> DeclarationsClosed(source, declared, substituting, before)
        invariant !growing ==> LinesClosed(source, from, index, before)
      {
        var more;
        found, more := LinePass(source, declared, from, to, substituting, incoming, found, index);
        growing := growing || more;
      }
    }
  }

  /** `found` is what `PauseDerived` finds. */
  ghost predicate Least(source: seq<Line>, declared: seq<Declared>, from: nat, to: nat,
                        substituting: map<nat, seq<nat>>, incoming: set<Name>, found: set<Name>)
    requires to <= |source|
  {
    && incoming <= found && Closed(source, declared, from, to, substituting, found)
    && Forced(source, declared, from, to, substituting, incoming, found)
  }

  /** The same declarations but for the rows of those that others are substituted for. */
  ghost predicate SameButSubstituted(a: seq<Declared>, b: seq<Declared>, substituting: map<nat, seq<nat>>) {
    && |a| == |b|
    && forall i :: 0 <= i < |a| ==>
         a[i].name == b[i].name && a[i].start == b[i].start && (a[i].start !in substituting ==> a[i].rows == b[i].rows)
  }

  lemma SubstitutedClosed(source: seq<Line>, a: seq<Declared>, b: seq<Declared>, substituting: map<nat, seq<nat>>,
                          names: set<Name>)
    requires SameButSubstituted(a, b, substituting) && DeclarationsClosed(source, a, substituting, names)
    ensures DeclarationsClosed(source, b, substituting, names)
  {
    forall e, row: nat | e in b && ReadBy(e, substituting, row) && row < |source| && Carries(source[row], names)
      ensures e.name in names
    {
      var i :| 0 <= i < |b| && b[i] == e;
      assert a[i] in a && ReadBy(a[i], substituting, row);
    }
  }

  /** What a declaration's own rows hold does not matter where others are substituted
      for them. */
  lemma SubstitutedRowsAlone(source: seq<Line>, a: seq<Declared>, b: seq<Declared>, from: nat, to: nat,
                             substituting: map<nat, seq<nat>>, incoming: set<Name>, foundA: set<Name>, foundB: set<Name>)
    requires to <= |source| && SameButSubstituted(a, b, substituting)
    requires Least(source, a, from, to, substituting, incoming, foundA)
    requires Least(source, b, from, to, substituting, incoming, foundB)
    ensures foundA == foundB
  {
    SubstitutedClosed(source, a, b, substituting, foundA);
    assert SameButSubstituted(b, a, substituting);
    SubstitutedClosed(source, b, a, substituting, foundB);
    hide DeclarationsClosed;
    assert foundA <= foundB && foundB <= foundA;
  }

  /** A name is not found without a reason: it does not come in, no assignment sets
      it, and no row its declarations are judged by says "pause" or mentions another
      name found. */
  lemma NotWithoutReason(source: seq<Line>, declared: seq<Declared>, from: nat, to: nat,
                         substituting: map<nat, seq<nat>>, incoming: set<Name>, found: set<Name>, name: Name)
    requires to <= |source| && Least(source, declared, from, to, substituting, incoming, found) && name !in incoming
    requires forall k, a :: from <= k < to && a in source[k].assignments ==> a.target != name
    requires forall e, row: nat {:trigger ReadBy(e, substituting, row)} ::
               e in declared && e.name == name && ReadBy(e, substituting, row) && row < |source| ==>
                 !source[row].saysPause && forall n :: n in source[row].names && n != name ==> n !in found
    ensures name !in found
  {
    var t := found - {name};
    forall e, row: nat | e in declared && ReadBy(e, substituting, row) && row < |source| && Carries(source[row], t)
      ensures e.name in t
    {
      assert Carries(source[row], found);
    }
    forall k | from <= k < to ensures LineClosed(source[k], t) { assert LineClosed(source[k], found); }
    assert Closed(source, declared, from, to, substituting, t);
  }

  /** The holder of the exit is not found for what lies past the exit: its own second
      line says "pause", the one line substituted for both does not. */
  method HolderIsSpared() returns (found: set<Name>)
    ensures found == {}
  {
    var plain, pausing := Line(false, [], [], false), Line(true, [], [], false);
    var source, declared := [plain, pausing], [Declared("exit", 0, [0, 1])];
    found := PauseDerived(source, declared, 0, 0, {}, map[0 := [0]]);
    assert Closed(source, declared, 0, 0, map[0 := [0]], {});
  }
}
