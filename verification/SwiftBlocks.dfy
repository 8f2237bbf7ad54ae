/** The two brace walks of the pause scan (apps/ios/LoonextTests/
    CancelOneActionTests.swift, lines 281-304 and 1198-1213): forward from a
    header to the end of its block, and backward from a line to its headers. A
    line is its net brace change, openings less closings. */
module SwiftBlocks {
  import opened Wrappers

  type Nets = seq<int>

  /** Half open, as the source's ranges are. */
  datatype Range = Range(from: nat, to: nat)

  predicate Holds(r: Range, k: nat) { r.from <= k < r.to }

  /** The net change of the lines from `i` up to, not including, `j`. */
  ghost function Net(d: Nets, i: nat, j: nat): int
    requires j <= |d|
  {
    if j <= i then 0 else Net(d, i, j - 1) + d[j - 1]
  }

  lemma {:induction false} NetSplit(d: Nets, i: nat, m: nat, j: nat)
    requires i <= m <= j <= |d|
    ensures Net(d, i, j) == Net(d, i, m) + Net(d, m, j)
  {
    if m < j { NetSplit(d, i, m, j - 1); }
  }

  // ------------------------------------------------------------------ forward

  /** Depth first rises above zero on line `o`, counting from the header. */
  ghost predicate OpensAt(d: Nets, header: nat, o: nat) {
    header <= o < |d| && Net(d, header, o + 1) > 0
    && forall j :: header < j <= o ==> Net(d, header, j) <= 0
  }

  /** Having risen on `o`, it first falls back to zero or below on `c`. */
  ghost predicate ClosesAt(d: Nets, header: nat, o: nat, c: nat) {
    o < c < |d| && Net(d, header, c + 1) <= 0
    && forall j :: o < j <= c ==> Net(d, header, j) > 0
  }

  ghost predicate IsBlock(d: Nets, header: nat, r: Range) {
    0 < r.from && OpensAt(d, header, r.from - 1) && ClosesAt(d, header, r.from - 1, r.to)
  }

  /** Depth never rose, or rose on the line before `first` and never fell back. */
  lemma NeverCloses(d: Nets, header: nat, first: Option<nat>)
    requires header <= |d|
    requires first.None? ==> forall j :: header < j <= |d| ==> Net(d, header, j) <= 0
    requires first.Some? ==>
      && 0 < first.value && OpensAt(d, header, first.value - 1)
      && forall j :: first.value <= j <= |d| ==> Net(d, header, j) > 0
    ensures forall r :: !IsBlock(d, header, r)
  {
    forall r ensures !IsBlock(d, header, r) {
      assert 0 < r.from <= |d| && header < r.from && Net(d, header, r.from) <= 0 ==> !IsBlock(d, header, r);
      assert r.to < |d| && Net(d, header, r.to + 1) > 0 ==> !IsBlock(d, header, r);
    }
  }

  method BlockRange(d: Nets, header: nat) returns (block: Option<Range>)
    requires header <= |d|
    ensures block.Some? ==> IsBlock(d, header, block.value)
    ensures block.None? ==> forall r :: !IsBlock(d, header, r)
  {
    var depth := 0;
    var first: Option<nat> := None;
    for index := header to |d|
      invariant depth == Net(d, header, index)
      invariant first.None? ==> forall j :: header < j <= index ==> Net(d, header, j) <= 0
      invariant first.Some? ==>
        && 0 < first.value <= index && OpensAt(d, header, first.value - 1)
        && forall j :: first.value <= j <= index ==> Net(d, header, j) > 0
    {
      depth := depth + d[index];
      if first.None? {
        if depth > 0 { first := Some(index + 1); }
      } else if depth <= 0 {
        return Some(Range(first.value, index));
      }
    }
    NeverCloses(d, header, first);
    block := None;
  }

  // ----------------------------------------------------------------- backward

  /** Line `k` is inside a block that line `h` opens: however far down from `h`
      one stops on the way to `k`, more has been opened than closed. */
  ghost predicate Encloses(d: Nets, h: nat, k: nat) {
    h < k <= |d| && forall j :: h < j <= k ==> Net(d, h, j) > 0
  }

  /** The last header found, or the line the walk started from. */
  function LastStop(found: seq<nat>, k: nat): nat {
    if found == [] then k else found[|found| - 1]
  }

  /** Crossing a line of the walk keeps exactly the enclosing ones. */
  lemma StopDecides(d: Nets, scan: nat, stop: nat, k: nat)
    requires scan < stop <= k <= |d|
    requires stop == k || Encloses(d, stop, k)
    requires forall j :: scan < j < stop ==> Net(d, j, stop) <= 0
    ensures Net(d, scan, stop) > 0 <==> Encloses(d, scan, k)
  {
    if Net(d, scan, stop) > 0 {
      forall j | scan < j <= k ensures Net(d, scan, j) > 0 {
        if j < stop {
          NetSplit(d, scan, j, stop);
        } else {
          NetSplit(d, scan, stop, j);
          assert stop < j ==> Net(d, stop, j) > 0;
        }
      }
    }
  }

  method EnclosingHeaders(d: Nets, index: nat) returns (found: seq<nat>)
    requires index <= |d|
    ensures forall h :: h in found <==> Encloses(d, h, index)
    ensures forall i, j :: 0 <= i < j < |found| ==> found[i] > found[j]
  {
    found := [];
    var pending: int, scan: nat := 0, index;
    while scan > 0
      invariant scan <= LastStop(found, index) <= index
      invariant found == [] || Encloses(d, LastStop(found, index), index)
      invariant pending == -Net(d, scan, LastStop(found, index))
      invariant forall j :: scan <= j < LastStop(found, index) ==> Net(d, j, LastStop(found, index)) <= 0
      invariant forall h :: h in found <==> scan <= h && Encloses(d, h, index)
      invariant forall i, j :: 0 <= i < j < |found| ==> found[i] > found[j]
    {
      var stop := LastStop(found, index);
      scan := scan - 1;
      NetSplit(d, scan, scan + 1, stop);
      pending := pending - d[scan];
      StopDecides(d, scan, stop, index);
      if pending < 0 {
        found := found + [scan];
        pending := 0;
      }
    }
  }

  // ---------------------------------------------------------------- agreement

  /** The walks tell the same story about `h` and every line: `h` encloses the
      lines of its block and the line that closes it, and no others. */
  ghost predicate Agree(d: Nets, h: nat, r: Range) {
    forall k: nat :: Encloses(d, h, k) <==> Holds(r, k) || k == r.to
  }

  lemma OpensOnItsOwnLine(d: Nets, h: nat, r: Range)
    requires IsBlock(d, h, r) && d[h] > 0
    ensures r.from == h + 1
  {
    assert Net(d, h, h + 1) == Net(d, h, h) + d[h];
  }

  /** For a header whose block closes, whatever the nets, the forward and the
      backward walk agree exactly when the header line itself opens more than it
      closes. */
  lemma WalksAgree(d: Nets, h: nat, r: Range)
    requires IsBlock(d, h, r)
    ensures Agree(d, h, r) <==> d[h] > 0
  {
    assert Net(d, h, h + 1) == Net(d, h, h) + d[h];
    if d[h] > 0 {
      OpensOnItsOwnLine(d, h, r);
      forall k: nat ensures Encloses(d, h, k) <==> Holds(r, k) || k == r.to {
        assert k > r.to && Net(d, h, r.to + 1) <= 0 ==> !Encloses(d, h, k);
        if h < k <= r.to {
          assert forall j :: h < j <= k ==> Net(d, h, j) > 0;
        }
      }
    } else {
      assert !Encloses(d, h, r.to);
    }
  }

  /** The walks do not agree on a header whose brace is on the next line: the
      forward walk finds its block, the backward walk does not pass through it. */
  lemma BraceBelowDisagrees()
    ensures IsBlock([0, 1, 0, -1], 0, Range(2, 3)) && !Agree([0, 1, 0, -1], 0, Range(2, 3))
  {
    var d := [0, 1, 0, -1];
    assert Net(d, 0, 1) == 0 && Net(d, 0, 2) == 1 && Net(d, 0, 3) == 1 && Net(d, 0, 4) == 0;
    WalksAgree(d, 0, Range(2, 3));
  }

  /** A header that opens a block which never closes encloses every later line, and
      the forward walk finds no block. */
  lemma UnclosedEnclosesAll(d: Nets, h: nat)
    requires h < |d| && d[h] > 0 && forall r :: !IsBlock(d, h, r)
    ensures forall k :: h < k <= |d| ==> Encloses(d, h, k)
  {
    assert Net(d, h, h + 1) == Net(d, h, h) + d[h];
    StaysOpen(d, h, |d|);
  }

  lemma {:induction false} StaysOpen(d: Nets, h: nat, k: nat)
    requires h < k <= |d| && d[h] > 0 && forall r :: !IsBlock(d, h, r)
    ensures forall j :: h < j <= k ==> Net(d, h, j) > 0
  {
    assert Net(d, h, h + 1) == Net(d, h, h) + d[h];
    if k > h + 1 {
      StaysOpen(d, h, k - 1);
      if Net(d, h, k) <= 0 {
        assert IsBlock(d, h, Range(h + 1, k - 1));
      }
    }
  }

  /** Blocks nest: of two headers around one line, the inner one's block ends no
      later than the outer one's. */
  lemma EnclosingBlocksNest(d: Nets, outer: nat, inner: nat, k: nat)
    requires outer < inner && Encloses(d, outer, k) && Encloses(d, inner, k)
    ensures Encloses(d, outer, inner)
    ensures forall e :: k <= e && Encloses(d, inner, e) ==> Encloses(d, outer, e)
  {
    forall e | k <= e && Encloses(d, inner, e) ensures Encloses(d, outer, e) {
      forall j | outer < j <= e ensures Net(d, outer, j) > 0 {
        if j > inner {
          NetSplit(d, outer, inner, j);
          assert Net(d, outer, inner) > 0 && Net(d, inner, j) > 0;
        }
      }
    }
  }
}
