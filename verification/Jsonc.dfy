/** The comment and trailing-comma passes of `parseJsonc` (apps/api/e2e/
    rig-stack.ts, lines 112-134). */
module Jsonc {

  const QUOTE := '"'

  /** Where the scan of a literal stops: on its closing quote, or past the end. */
  function LiteralStop(text: string, end: nat): (stop: nat)
    ensures end <= stop
    ensures stop < |text| ==> text[stop] == QUOTE
    ensures stop <= |text| + 1 || stop == end
    decreases |text| - end
  {
    if end < |text| && text[end] != QUOTE then LiteralStop(text, end + if text[end] == '\\' then 2 else 1)
    else end
  }

  /** The first `*` `/` at or after `from`, or the length. */
  function BlockStop(text: string, from: nat): (stop: nat)
    ensures from <= |text| ==> from <= stop <= |text|
    ensures from <= |text| && stop < |text| ==> stop + 2 <= |text|
    decreases |text| - from
  {
    if from + 1 < |text| then
      if text[from] == '*' && text[from + 1] == '/' then from else BlockStop(text, from + 1)
    else |text|
  }

  function LineStop(text: string, from: nat): (stop: nat)
    requires from <= |text|
    ensures from <= stop <= |text| && (stop < |text| ==> text[stop] == '\n')
    ensures '\n' !in text[from..stop]
    decreases |text| - from
  {
    if from < |text| && text[from] != '\n' then
      var stop := LineStop(text, from + 1);
      assert text[from..stop] == [text[from]] + text[from + 1..stop];
      stop
    else from
  }

  function Min(a: nat, b: nat): nat { if a < b then a else b }

  predicate StartsLine(text: string) { |text| >= 2 && text[0] == '/' && text[1] == '/' }

  predicate StartsBlock(text: string) { |text| >= 2 && text[0] == '/' && text[1] == '*' }

  /** What the first token or comment of a text keeps, and how long it is. */
  function TokenLength(text: string): (n: nat)
    requires text != ""
    ensures 0 < n <= |text|
  {
    if text[0] == QUOTE then Min(LiteralStop(text, 1) + 1, |text|)
    else if StartsLine(text) then LineStop(text, 2)
    else if StartsBlock(text) then
      var end := BlockStop(text, 2);
      if end < |text| then end + 2 else |text|
    else 1
  }

  predicate IsComment(text: string) { StartsLine(text) || StartsBlock(text) }

  /** The comment pass. */
  function Strip(text: string): string
    decreases |text|
  {
    if text == "" then ""
    else
      var n := TokenLength(text);
      (if IsComment(text) then "" else text[..n]) + Strip(text[n..])
  }

  lemma Continue(text: string, index: nat, n: nat)
    requires index < |text| && n == TokenLength(text[index..])
    ensures index + n <= |text| && text[index..][..n] == text[index..index + n]
    ensures Strip(text[index..])
         == (if IsComment(text[index..]) then "" else text[index..index + n]) + Strip(text[index + n..])
  {
    assert text[index..][n..] == text[index + n..];
  }

  /** The scans inside a suffix are the scans of the whole text, shifted. */
  lemma {:induction false} LiteralStopShift(text: string, index: nat, end: nat)
    requires index <= |text|
    ensures LiteralStop(text, index + end) == index + LiteralStop(text[index..], end)
    decreases |text| - index - end
  {
    if index + end < |text| && text[index + end] != QUOTE {
      LiteralStopShift(text, index, end + if text[index + end] == '\\' then 2 else 1);
    }
  }

  lemma {:induction false} BlockStopShift(text: string, index: nat, from: nat)
    requires index <= |text|
    ensures BlockStop(text, index + from) == index + BlockStop(text[index..], from)
    decreases |text| - index - from
  {
    if index + from + 1 < |text| && !(text[index + from] == '*' && text[index + from + 1] == '/') {
      BlockStopShift(text, index, from + 1);
    }
  }

  lemma LineStopIs(text: string, start: nat, stop: nat)
    requires start + 2 <= |text| && StartsLine(text[start..]) && start <= stop <= |text|
    requires '\n' !in text[start..stop] && (stop < |text| ==> text[stop] == '\n')
    ensures stop == start + LineStop(text[start..], 2)
  {
  }

  /** `indexOf("*" "/", from)`, with the length for "not found". */
  method IndexOfClose(text: string, from: nat) returns (end: nat)
    requires from <= |text|
    ensures end == BlockStop(text, from)
    ensures end < |text| ==> end + 1 < |text|
  {
    end := from;
    while end + 1 < |text| && !(text[end] == '*' && text[end + 1] == '/')
      invariant from <= end <= |text|
      invariant BlockStop(text, end) == BlockStop(text, from)
    {
      end := end + 1;
    }
    if end + 1 >= |text| { end := |text|; }
  }

  lemma LiteralStep(text: string, index: nat, end: nat)
    requires index < |text| && text[index] == QUOTE && end == LiteralStop(text, index + 1)
    ensures index < Min(end + 1, |text|) <= |text|
    ensures Strip(text[index..]) == text[index..Min(end + 1, |text|)] + Strip(text[Min(end + 1, |text|)..])
  {
    LiteralStopShift(text, index, 1);
    var n := Min(end + 1, |text|) - index;
    assert n == TokenLength(text[index..]) && !IsComment(text[index..]);
    hide TokenLength, IsComment, Strip, LiteralStop;
    Continue(text, index, n);
  }

  lemma LineStep(text: string, index: nat, stop: nat)
    requires index + 2 <= |text| && StartsLine(text[index..]) && index <= stop <= |text|
    requires '\n' !in text[index..stop] && (stop < |text| ==> text[stop] == '\n')
    ensures index < stop && Strip(text[index..]) == Strip(text[stop..])
  {
    LineStopIs(text, index, stop);
    Continue(text, index, stop - index);
  }

  lemma BlockStep(text: string, index: nat, end: nat)
    requires index + 2 <= |text| && StartsBlock(text[index..]) && end == BlockStop(text, index + 2)
    ensures index + 2 <= end
    ensures Strip(text[index..]) == Strip(text[if end < |text| then end + 2 else |text|..])
  {
    BlockStopShift(text, index, 2);
    var n := (if end < |text| then end + 2 else |text|) - index;
    assert n == TokenLength(text[index..]) && IsComment(text[index..]);
    hide TokenLength, IsComment, Strip, BlockStop;
    Continue(text, index, n);
  }

  lemma CodeStep(text: string, index: nat)
    requires index < |text| && text[index] != QUOTE && !IsComment(text[index..])
    ensures Strip(text[index..]) == [text[index]] + Strip(text[index + 1..])
  {
    Continue(text, index, 1);
    assert text[index..index + 1] == [text[index]];
  }

  /** The end of a literal, found by stepping over escapes. */
  method LiteralEnd(text: string, from: nat) returns (end: nat)
    ensures end == LiteralStop(text, from)
  {
    end := from;
    while end < |text| && text[end] != QUOTE
      invariant LiteralStop(text, end) == LiteralStop(text, from)
      decreases |text| - end
    {
      end := end + if text[end] == '\\' then 2 else 1;
    }
  }

  /** The end of a line comment, found a character at a time. */
  method LineEnd(text: string, from: nat) returns (end: nat)
    requires from <= |text|
    ensures from <= end <= |text| && '\n' !in text[from..end] && (end < |text| ==> text[end] == '\n')
  {
    end := from;
    while end < |text| && text[end] != '\n'
      invariant from <= end <= |text| && '\n' !in text[from..end]
    {
      assert text[from..end + 1] == text[from..end] + [text[end]];
      end := end + 1;
    }
  }

  /** `out` is the comment pass over what comes before `index`. */
  ghost predicate Through(text: string, index: nat, out: string) {
    index <= |text| && out + Strip(text[index..]) == Strip(text)
  }

  lemma Onward(text: string, index: nat, out: string, kept: string, next: nat)
    requires Through(text, index, out) && next <= |text|
    requires Strip(text[index..]) == kept + Strip(text[next..])
    ensures Through(text, next, out + kept)
  {
    hide Strip;
    assert out + (kept + Strip(text[next..])) == (out + kept) + Strip(text[next..]);
  }

  lemma CommentIsLong(text: string, index: nat)
    requires index <= |text|
    ensures StartsLine(text[index..]) || StartsBlock(text[index..]) ==> index + 2 <= |text|
    ensures IsComment(text[index..]) <==> StartsLine(text[index..]) || StartsBlock(text[index..])
  {
  }

  lemma Ends(text: string, out: string)
    ensures Through(text, 0, "")
    ensures Through(text, |text|, out) ==> out == Strip(text)
  {
    assert text[0..] == text;
  }

  method StripComments(text: string) returns (out: string)
    ensures out == Strip(text)
  {
    hide *;
    out := "";
    var index: nat := 0;
    Ends(text, "");
    while index < |text|
      invariant index <= |text| && Through(text, index, out)
    {
      var start := index;
      var kept := "";
      CommentIsLong(text, index);
      if text[index] == QUOTE {
        var end := LiteralEnd(text, index + 1);
        LiteralStep(text, index, end);
        index := Min(end + 1, |text|);
        kept := text[start..index];
      } else if StartsLine(text[index..]) {
        index := LineEnd(text, index);
        LineStep(text, start, index);
      } else if StartsBlock(text[index..]) {
        var end := IndexOfClose(text, index + 2);
        BlockStep(text, index, end);
        index := if end < |text| then end + 2 else |text|;
      } else {
        CodeStep(text, index);
        kept := [text[index]];
        index := index + 1;
      }
      assert Strip(text[start..]) == kept + Strip(text[index..]);
      Onward(text, start, out, kept, index);
      out := out + kept;
    }
    Ends(text, out);
  }
}
