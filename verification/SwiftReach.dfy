/** What draws the exit and what the path reaches (apps/ios/LoonextTests/
    CancelOneActionTests.swift, lines 1647-1663 and 1676-1735). */
module SwiftReach {
  import opened SwiftTaint

  const NOTHING: map<nat, seq<nat>> := map[]

  // ----------------------------------------------------------------- renders

  /** Closed under "a member that mentions one of the names draws it too". */
  ghost predicate DrawsClosed(source: seq<Line>, members: seq<Declared>, names: set<Name>) {
    forall e, row: nat, n :: e in members && row in e.rows && row < |source| && n in source[row].names && n in names ==>
      e.name in names
  }

  lemma MentionedByRow(source: seq<Line>, e: Declared, names: set<Name>)
    requires InSource(source, RowsOf(e, NOTHING))
    ensures RowsMention(source, RowsOf(e, NOTHING), names) <==>
            exists row: nat, n :: row in e.rows && row < |source| && n in source[row].names && n in names
  {
    var rows := RowsOf(e, NOTHING);
    if row: nat, n :| row in e.rows && row < |source| && n in source[row].names && n in names {
      var i :| 0 <= i < |rows| && rows[i] == row;
    }
    if RowsMention(source, rows, names) {
      var i :| 0 <= i < |rows| && Mentions(source[rows[i]].names, names);
      assert rows[i] in e.rows;
    }
  }

  lemma NoneMentions(source: seq<Line>, members: seq<Declared>, names: set<Name>)
    requires AllInSource(source, members, NOTHING)
    requires forall j :: 0 <= j < |members| && RowsMention(source, RowsOf(members[j], NOTHING), names) ==>
               members[j].name in names
    ensures DrawsClosed(source, members, names)
  {
    forall e, row: nat, n | e in members && row in e.rows && row < |source| && n in source[row].names && n in names
      ensures e.name in names
    {
      var j :| 0 <= j < |members| && members[j] == e;
      assert InSource(source, RowsOf(members[j], NOTHING));
      MentionedByRow(source, e, names);
    }
  }

  lemma RowsMentionGrow(source: seq<Line>, rows: seq<nat>, small: set<Name>, large: set<Name>)
    requires InSource(source, rows) && small <= large && RowsMention(source, rows, small)
    ensures RowsMention(source, rows, large)
  {
    var i :| 0 <= i < |rows| && Mentions(source[rows[i]].names, small);
    MentionsGrow(source[rows[i]].names, small, large);
  }

  ghost predicate Drawn(source: seq<Line>, members: seq<Declared>, holder: Name, names: set<Name>) {
    forall t: set<Name> :: holder in t && DrawsClosed(source, members, t) ==> names <= t
  }

  lemma DrawnByMention(source: seq<Line>, members: seq<Declared>, holder: Name, names: set<Name>, i: nat)
    requires AllInSource(source, members, NOTHING) && i < |members|
    requires Drawn(source, members, holder, names)
    requires RowsMention(source, RowsOf(members[i], NOTHING), names)
    ensures Drawn(source, members, holder, names + {members[i].name})
  {
    forall t: set<Name> | holder in t && DrawsClosed(source, members, t) ensures names + {members[i].name} <= t {
      RowsMentionGrow(source, RowsOf(members[i], NOTHING), names, t);
      MentionedByRow(source, members[i], t);
    }
  }

  /** The members that draw the holder of the exit, directly or through others. */
  method Renders(source: seq<Line>, members: seq<Declared>, holder: Name) returns (renders: set<Name>)
    requires AllInSource(source, members, NOTHING)
    ensures holder in renders && DrawsClosed(source, members, renders)
    ensures forall t: set<Name> :: holder in t && DrawsClosed(source, members, t) ==> renders <= t
  {
    renders := {holder};
    var growing := true;
    ghost var all := {holder} + set e | e in members :: e.name;
    while growing
      invariant holder in renders && renders <= all
      invariant Drawn(source, members, holder, renders)
      invariant !growing ==> DrawsClosed(source, members, renders)
      decreases all - renders, growing
    {
      growing := false;
      ghost var before := renders;
      for i := 0 to |members|
        invariant before <= renders <= all
        invariant growing <==> renders != before
        invariant Drawn(source, members, holder, renders)
        invariant !growing ==> forall j :: 0 <= j < i && RowsMention(source, RowsOf(members[j], NOTHING), before) ==>
          members[j].name in before
      {
        var entry := members[i];
        if entry.name !in renders && RowsMention(source, RowsOf(entry, NOTHING), renders) {
          DrawnByMention(source, members, holder, renders, i);
          renders := renders + {entry.name};
          growing := true;
        }
      }
      if !growing { NoneMentions(source, members, before); }
    }
  }

  // ---------------------------------------------------------------- frontier

  /** A name, as one of the two views declares it. */
  datatype Key = Key(inCard: bool, name: Name)

  /** The two views' members, and the rows that stand for the exit's own block. */
  datatype Views = Views(card: seq<Declared>, section: seq<Declared>, slices: map<nat, seq<nat>>)

  function Members(v: Views, inCard: bool): seq<Declared> { if inCard then v.card else v.section }

  predicate ViewsInSource(source: seq<Line>, v: Views) {
    AllInSource(source, v.card, v.slices) && AllInSource(source, v.section, v.slices)
  }

  /** Row `row` belongs to one of `members` named `name`. */
  ghost predicate RowAmong(members: seq<Declared>, slices: map<nat, seq<nat>>, name: Name, row: nat) {
    exists e :: e in members && e.name == name && ReadBy(e, slices, row)
  }

  ghost predicate LeadsAmong(source: seq<Line>, members: seq<Declared>, slices: map<nat, seq<nat>>,
                             name: Name, next: Name) {
    exists row: nat :: RowAmong(members, slices, name, row) && row < |source| && next in source[row].names
  }

  /** `next` is mentioned on a row of a declaration that `key` names. */
  ghost predicate Leads(source: seq<Line>, v: Views, key: Key, next: Key) {
    && next.inCard == key.inCard
    && LeadsAmong(source, if key.inCard then v.card else v.section, v.slices, key.name, next.name)
  }

  ghost predicate LeadsInto(source: seq<Line>, v: Views, key: Key, keys: set<Key>) {
    forall next :: Leads(source, v, key, next) ==> next in keys
  }

  ghost predicate ReachClosed(source: seq<Line>, v: Views, keys: set<Key>) {
    forall key :: key in keys ==> LeadsInto(source, v, key, keys)
  }

  /** The rows of the declarations named `name`, blank ones apart. */
  ghost function RowsNamed(source: seq<Line>, members: seq<Declared>, slices: map<nat, seq<nat>>, name: Name): set<nat> {
    set row: nat | 0 <= row < |source| && !source[row].blank && RowAmong(members, slices, name, row)
  }

  ghost function RowsOfKey(source: seq<Line>, v: Views, key: Key): set<nat> {
    RowsNamed(source, if key.inCard then v.card else v.section, v.slices, key.name)
  }

  /** The rows of everything reached. */
  ghost function RowsOfKeys(source: seq<Line>, v: Views, keys: set<Key>): set<nat> {
    set key, row | key in keys && row in RowsOfKey(source, v, key) :: row
  }

  predicate NoDuplicates<T(==)>(xs: seq<T>) { forall i, j :: 0 <= i < j < |xs| ==> xs[i] != xs[j] }

  /** The path so far and the rows it may not take again. */
  datatype Walk = Walk(path: seq<nat>, taken: set<nat>)

  /** `after` took exactly `rows` more, each of them once. */
  ghost predicate Took(before: Walk, after: Walk, rows: set<nat>) {
    && before.path <= after.path
    && after.taken == before.taken + rows
    && NoDuplicates(after.path[|before.path|..])
    && forall row :: row in after.path[|before.path|..] <==> row in rows && row !in before.taken
  }

  function Add(source: seq<Line>, w: Walk, row: nat): Walk
    requires row < |source|
  {
    if row in w.taken || source[row].blank then w else Walk(w.path + [row], w.taken + {row})
  }

  ghost function Visible(source: seq<Line>, rows: seq<nat>): set<nat> {
    set row | row in rows && row < |source| && !source[row].blank
  }

  lemma AddTakes(source: seq<Line>, before: Walk, w: Walk, rows: set<nat>, row: nat)
    requires row < |source| && Took(before, w, rows)
    ensures Took(before, Add(source, w, row), rows + if source[row].blank then {} else {row})
  {
    var extra := w.path[|before.path|..];
    if row !in w.taken && !source[row].blank {
      assert Add(source, w, row).path[|before.path|..] == extra + [row];
    }
  }

  ghost predicate NamedOn(source: seq<Line>, rows: seq<nat>, name: Name) {
    exists row: nat :: row in rows && row < |source| && name in source[row].names
  }

  /** One declaration: its rows are taken and the names on them join the frontier. */
  method Follow(source: seq<Line>, rows: seq<nat>, inCard: bool, w0: Walk, ghost start: Walk, ghost had: set<nat>)
    returns (w: Walk, added: seq<Key>)
    requires InSource(source, rows) && Took(start, w0, had)
    ensures Took(start, w, had + Visible(source, rows))
    ensures forall k :: k in added <==>
      k.inCard == inCard && NamedOn(source, rows, k.name)
  {
    w, added := w0, [];
    assert had + Visible(source, rows[..0]) == had;
    for i := 0 to |rows|
      invariant Took(start, w, had + Visible(source, rows[..i]))
      invariant forall k :: k in added <==>
        k.inCard == inCard && NamedOn(source, rows[..i], k.name)
    {
      var row := rows[i];
      assert rows[..i + 1] == rows[..i] + [row];
      AddTakes(source, start, w, had + Visible(source, rows[..i]), row);
      w := Add(source, w, row);
      assert had + Visible(source, rows[..i]) + (if source[row].blank then {} else {row})
          == had + Visible(source, rows[..i + 1]);
      var names := source[row].names;
      var keys := seq(|names|, n requires 0 <= n < |names| => Key(inCard, names[n]));
      forall k ensures k in keys <==> k.inCard == inCard && k.name in names {
        if k.inCard == inCard && k.name in names {
          var n :| 0 <= n < |names| && names[n] == k.name;
          assert keys[n] == k;
        }
      }
      added := added + keys;
    }
    assert rows[..|rows|] == rows;
  }

  lemma RowAmongSnoc(members: seq<Declared>, slices: map<nat, seq<nat>>, e: Declared, name: Name, row: nat)
    ensures RowAmong(members + [e], slices, name, row) <==>
            RowAmong(members, slices, name, row) || (e.name == name && row in RowsOf(e, slices))
  {
    if x :| x in members && x.name == name && ReadBy(x, slices, row) { assert x in members + [e]; }
    assert e in members + [e] && (ReadBy(e, slices, row) <==> row in RowsOf(e, slices));
  }

  lemma RowsNamedSnoc(source: seq<Line>, members: seq<Declared>, slices: map<nat, seq<nat>>, e: Declared, name: Name)
    ensures RowsNamed(source, members + [e], slices, name)
         == RowsNamed(source, members, slices, name)
            + if e.name == name then Visible(source, RowsOf(e, slices)) else {}
  {
    forall row: nat
      ensures RowAmong(members + [e], slices, name, row) <==>
              RowAmong(members, slices, name, row) || (e.name == name && row in RowsOf(e, slices))
    {
      RowAmongSnoc(members, slices, e, name, row);
    }
    hide RowAmong;
  }

  lemma LeadsAmongSnoc(source: seq<Line>, members: seq<Declared>, slices: map<nat, seq<nat>>, e: Declared,
                       name: Name, next: Name)
    ensures LeadsAmong(source, members + [e], slices, name, next) <==>
            || LeadsAmong(source, members, slices, name, next)
            || (e.name == name && NamedOn(source, RowsOf(e, slices), next))
  {
    forall row: nat
      ensures RowAmong(members + [e], slices, name, row) <==>
              RowAmong(members, slices, name, row) || (e.name == name && row in RowsOf(e, slices))
    {
      RowAmongSnoc(members, slices, e, name, row);
    }
    hide RowAmong;
  }

  /** Every declaration a key names, followed. */
  method Visit(source: seq<Line>, v: Views, key: Key, w0: Walk, ghost start: Walk, ghost had: set<nat>)
    returns (w: Walk, added: seq<Key>)
    requires ViewsInSource(source, v) && Took(start, w0, had)
    ensures Took(start, w, had + RowsOfKey(source, v, key))
    ensures forall k :: k in added <==> Leads(source, v, key, k)
  {
    var members := Members(v, key.inCard);
    w, added := w0, [];
    assert had + RowsNamed(source, members[..0], v.slices, key.name) == had;
    for i := 0 to |members|
      invariant Took(start, w, had + RowsNamed(source, members[..i], v.slices, key.name))
      invariant forall k :: k in added <==>
        k.inCard == key.inCard && LeadsAmong(source, members[..i], v.slices, key.name, k.name)
    {
      var entry := members[i];
      ghost var sofar := had + RowsNamed(source, members[..i], v.slices, key.name);
      assert members[..i + 1] == members[..i] + [entry];
      RowsNamedSnoc(source, members[..i], v.slices, entry, key.name);
      forall k: Key
        ensures LeadsAmong(source, members[..i + 1], v.slices, key.name, k.name) <==>
                || LeadsAmong(source, members[..i], v.slices, key.name, k.name)
                || (entry.name == key.name && NamedOn(source, RowsOf(entry, v.slices), k.name))
      {
        LeadsAmongSnoc(source, members[..i], v.slices, entry, key.name, k.name);
      }
      assert InSource(source, RowsOf(entry, v.slices));
      hide LeadsAmong, RowsNamed, Took, Visible, NamedOn, InSource, AllInSource;
      assert sofar + {} == sofar;
      if entry.name == key.name {
        var rows := RowsOf(entry, v.slices);
        var more;
        w, more := Follow(source, rows, key.inCard, w, start, sofar);
        assert sofar + Visible(source, rows) == had + RowsNamed(source, members[..i + 1], v.slices, key.name);
        added := added + more;
      }
    }
    assert members[..|members|] == members;
  }

  ghost function KeysOf(frontier: seq<Key>): set<Key> { set k | k in frontier }

  /** Every key the walk could ever meet. */
  ghost function Universe(source: seq<Line>, frontier: seq<Key>): set<Key> {
    KeysOf(frontier)
    + (set l, n | l in source && n in l.names :: Key(true, n))
    + (set l, n | l in source && n in l.names :: Key(false, n))
  }

  /** Every key of `keys` is in each closed set that holds the first frontier. */
  ghost predicate Needed(source: seq<Line>, v: Views, frontier: seq<Key>, keys: set<Key>) {
    forall t: set<Key> :: KeysOf(frontier) <= t && ReachClosed(source, v, t) ==> keys <= t
  }

  lemma NeededGrows(source: seq<Line>, v: Views, frontier: seq<Key>, keys: set<Key>, key: Key, added: seq<Key>)
    requires Needed(source, v, frontier, keys) && key in keys
    requires forall k :: k in added <==> Leads(source, v, key, k)
    ensures Needed(source, v, frontier, keys + KeysOf(added))
  {
    forall t: set<Key> | KeysOf(frontier) <= t && ReachClosed(source, v, t) ensures keys + KeysOf(added) <= t {
      assert key in t && LeadsInto(source, v, key, t);
      hide Leads;
    }
  }

  lemma LeadsStayInside(source: seq<Line>, v: Views, key: Key, added: seq<Key>, frontier: seq<Key>)
    requires forall k :: k in added <==> Leads(source, v, key, k)
    ensures KeysOf(added) <= Universe(source, frontier)
  {
    forall k | k in added ensures k in Universe(source, frontier) {
      var row: nat :| RowAmong(Members(v, k.inCard), v.slices, key.name, row) && row < |source|
                      && k.name in source[row].names;
      assert source[row] in source;
      hide RowAmong;
    }
  }

  /** Seen keys lead to seen keys or to keys still in the frontier. */
  ghost predicate Pending(source: seq<Line>, v: Views, seen: set<Key>, frontier: seq<Key>) {
    forall key :: key in seen ==> LeadsInto(source, v, key, seen + KeysOf(frontier))
  }

  lemma PendingShrinks(source: seq<Line>, v: Views, seen: set<Key>, frontier: seq<Key>)
    requires frontier != [] && Pending(source, v, seen, frontier) && frontier[|frontier| - 1] in seen
    ensures Pending(source, v, seen, frontier[..|frontier| - 1])
    ensures seen + KeysOf(frontier) == seen + KeysOf(frontier[..|frontier| - 1])
  {
    var front, last := frontier[..|frontier| - 1], frontier[|frontier| - 1];
    assert frontier == front + [last];
    assert seen + KeysOf(frontier) == seen + KeysOf(front);
  }

  lemma PendingGrows(source: seq<Line>, v: Views, seen: set<Key>, frontier: seq<Key>, key: Key, added: seq<Key>)
    requires Pending(source, v, seen, frontier + [key])
    requires forall k :: k in added <==> Leads(source, v, key, k)
    ensures Pending(source, v, seen + {key}, frontier + added)
    ensures seen + {key} + KeysOf(frontier + added) == seen + KeysOf(frontier + [key]) + KeysOf(added)
  {
    var old0, new0 := seen + KeysOf(frontier + [key]), seen + {key} + KeysOf(frontier + added);
    assert new0 == old0 + KeysOf(added);
    forall k | k in seen + {key} ensures LeadsInto(source, v, k, new0) {
      if k != key { assert LeadsInto(source, v, k, old0); }
      hide Leads;
    }
  }

  lemma RowsOfKeysGrow(source: seq<Line>, v: Views, keys: set<Key>, key: Key)
    ensures RowsOfKeys(source, v, keys + {key}) == RowsOfKeys(source, v, keys) + RowsOfKey(source, v, key)
  {
    hide RowsOfKey;
  }

  /** The worklist visits each key once, and what it has seen at the end is the
      least set that holds the first frontier and follows every mention. The rows it
      takes are exactly those keys' declarations, each of them once. */
  method FollowNames(source: seq<Line>, v: Views, frontier0: seq<Key>, start: Walk)
    returns (w: Walk, seen: set<Key>, ghost visits: seq<Key>)
    requires ViewsInSource(source, v)
    ensures KeysOf(frontier0) <= seen && ReachClosed(source, v, seen)
    ensures forall t: set<Key> :: KeysOf(frontier0) <= t && ReachClosed(source, v, t) ==> seen <= t
    ensures Took(start, w, RowsOfKeys(source, v, seen))
    ensures NoDuplicates(visits) && forall k :: k in visits <==> k in seen
  {
    hide Leads, LeadsInto, Took, RowsOfKeys, RowsOfKey, ViewsInSource, Members, NoDuplicates, Needed, Pending, Universe;
    var frontier := frontier0;
    w, seen, visits := start, {}, [];
    ghost var all := Universe(source, frontier0);
    StartsRight(source, v, frontier0, start);
    while frontier != []
      invariant seen + KeysOf(frontier) <= all
      invariant KeysOf(frontier0) <= seen + KeysOf(frontier)
      invariant Needed(source, v, frontier0, seen + KeysOf(frontier))
      invariant Pending(source, v, seen, frontier)
      invariant Took(start, w, RowsOfKeys(source, v, seen))
      invariant NoDuplicates(visits) && forall k :: k in visits <==> k in seen
      decreases all - seen, |frontier|
    {
      var next := frontier[|frontier| - 1];
      var rest := frontier[..|frontier| - 1];
      assert frontier == rest + [next];
      if next in seen {
        PendingShrinks(source, v, seen, frontier);
        frontier := rest;
      } else {
        var added;
        w, added := Visit(source, v, next, w, start, RowsOfKeys(source, v, seen));
        NeededGrows(source, v, frontier0, seen + KeysOf(frontier), next, added);
        LeadsStayInside(source, v, next, added, frontier0);
        PendingGrows(source, v, seen, rest, next, added);
        RowsOfKeysGrow(source, v, seen, next);
        NoDuplicatesSnoc(visits, next);
        visits := visits + [next];
        seen := seen + {next};
        frontier := rest + added;
      }
    }
    assert seen + KeysOf([]) == seen;
    EndsRight(source, v, frontier0, seen);
  }

  lemma NoDuplicatesSnoc<T>(xs: seq<T>, x: T)
    requires NoDuplicates(xs) && x !in xs
    ensures NoDuplicates(xs + [x])
  {
  }

  lemma StartsRight(source: seq<Line>, v: Views, frontier: seq<Key>, start: Walk)
    ensures {} + KeysOf(frontier) == KeysOf(frontier) <= Universe(source, frontier)
    ensures Needed(source, v, frontier, KeysOf(frontier)) && Pending(source, v, {}, frontier)
    ensures Took(start, start, RowsOfKeys(source, v, {})) && NoDuplicates<Key>([])
  {
    assert RowsOfKeys(source, v, {}) == {};
  }

  lemma EndsRight(source: seq<Line>, v: Views, frontier: seq<Key>, seen: set<Key>)
    requires Needed(source, v, frontier, seen) && Pending(source, v, seen, [])
    ensures ReachClosed(source, v, seen)
    ensures forall t: set<Key> :: KeysOf(frontier) <= t && ReachClosed(source, v, t) ==> seen <= t
  {
    assert seen + KeysOf([]) == seen;
    hide LeadsInto;
  }

  /** The same views but for the rows of declarations that slices stand for. */
  ghost predicate SameButSliced(a: Views, b: Views) {
    && a.slices == b.slices
    && SameButSubstituted(a.card, b.card, a.slices) && SameButSubstituted(a.section, b.section, a.slices)
  }

  lemma SlicedRowAmong(a: seq<Declared>, b: seq<Declared>, slices: map<nat, seq<nat>>, name: Name, row: nat)
    requires SameButSubstituted(a, b, slices) && RowAmong(a, slices, name, row)
    ensures RowAmong(b, slices, name, row)
  {
    var e :| e in a && e.name == name && ReadBy(e, slices, row);
    var i :| 0 <= i < |a| && a[i] == e;
    assert b[i] in b && ReadBy(b[i], slices, row);
  }

  lemma SlicedLeads(source: seq<Line>, a: Views, b: Views, key: Key, next: Key)
    requires SameButSliced(a, b) && Leads(source, a, key, next)
    ensures Leads(source, b, key, next)
  {
    var row: nat :| RowAmong(Members(a, key.inCard), a.slices, key.name, row) && row < |source|
                    && next.name in source[row].names;
    SlicedRowAmong(Members(a, key.inCard), Members(b, key.inCard), a.slices, key.name, row);
  }

  lemma SlicedReach(source: seq<Line>, a: Views, b: Views, keys: set<Key>)
    requires SameButSliced(a, b) && ReachClosed(source, a, keys)
    ensures ReachClosed(source, b, keys)
  {
    assert SameButSliced(b, a);
    forall key, next | key in keys && Leads(source, b, key, next) ensures next in keys {
      SlicedLeads(source, b, a, key, next);
      assert LeadsInto(source, a, key, keys);
    }
    hide Leads;
    forall key | key in keys ensures LeadsInto(source, b, key, keys) {}
  }

  /** The keys a walk sees and the rows it takes do not depend on the rows a sliced
      declaration has of its own. */
  lemma SlicedRowsAlone(source: seq<Line>, a: Views, b: Views, frontier: seq<Key>, seenA: set<Key>, seenB: set<Key>)
    requires SameButSliced(a, b)
    requires KeysOf(frontier) <= seenA && ReachClosed(source, a, seenA) && Needed(source, a, frontier, seenA)
    requires KeysOf(frontier) <= seenB && ReachClosed(source, b, seenB) && Needed(source, b, frontier, seenB)
    ensures seenA == seenB && RowsOfKeys(source, a, seenA) == RowsOfKeys(source, b, seenB)
  {
    assert SameButSliced(b, a);
    SlicedReach(source, a, b, seenA);
    SlicedReach(source, b, a, seenB);
    forall key ensures RowsOfKey(source, a, key) == RowsOfKey(source, b, key) { SlicedRows(source, a, b, key); }
    hide ReachClosed, RowsOfKey;
    assert seenA <= seenB && seenB <= seenA;
  }

  lemma SlicedRows(source: seq<Line>, a: Views, b: Views, key: Key)
    requires SameButSliced(a, b)
    ensures RowsOfKey(source, a, key) == RowsOfKey(source, b, key)
  {
    var x, y := Members(a, key.inCard), Members(b, key.inCard);
    forall row: nat ensures RowAmong(x, a.slices, key.name, row) <==> RowAmong(y, b.slices, key.name, row) {
      assert SameButSubstituted(y, x, a.slices);
      if RowAmong(x, a.slices, key.name, row) { SlicedRowAmong(x, y, a.slices, key.name, row); }
      if RowAmong(y, a.slices, key.name, row) { SlicedRowAmong(y, x, a.slices, key.name, row); }
    }
    hide RowAmong;
  }
}
