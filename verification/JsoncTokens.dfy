/** What the passes of `parseJsonc` do to a text printed from tokens (apps/api/e2e/
    rig-stack.ts, lines 112-134). */
module JsoncTokens {
  import opened Jsonc

  /** A string literal with its body as written, a character of any other token or
      of white space, or a comment. Literals follow section 7 of RFC 8259. */
  datatype Piece = Literal(body: string) | Code(c: char) | LineComment(body: string) | BlockComment(body: string)

  /** No quote outside an escape, and no escape cut off. */
  predicate Escaped(body: string) {
    body == "" ||
    if body[0] == '\\' then |body| >= 2 && Escaped(body[2..])
    else body[0] != QUOTE && Escaped(body[1..])
  }

  predicate HasClose(body: string) {
    |body| >= 2 && ((body[0] == '*' && body[1] == '/') || HasClose(body[1..]))
  }

  predicate WellFormed(p: Piece) {
    match p
    case Literal(body) => Escaped(body)
    case Code(c) => c != QUOTE && c != '/'
    case LineComment(body) => '\n' !in body
    case BlockComment(body) => !HasClose(body)
  }

  ghost predicate AllWellFormed(ps: seq<Piece>) { forall p :: p in ps ==> WellFormed(p) }

  function Quoted(body: string): string { [QUOTE] + body + [QUOTE] }

  function TextOf(p: Piece): string {
    match p
    case Literal(body) => Quoted(body)
    case Code(c) => [c]
    case LineComment(body) => "//" + body + "\n"
    case BlockComment(body) => "/*" + body + "*/"
  }

  /** What is left of a piece. The newline that ends a line comment is not part of
      it. */
  function KeptOf(p: Piece): string {
    match p
    case Literal(body) => Quoted(body)
    case Code(c) => [c]
    case LineComment(_) => "\n"
    case BlockComment(_) => ""
  }

  function Text(ps: seq<Piece>): string { if ps == [] then "" else TextOf(ps[0]) + Text(ps[1..]) }

  function Kept(ps: seq<Piece>): string { if ps == [] then "" else KeptOf(ps[0]) + Kept(ps[1..]) }

  // ------------------------------------------------------------ the comment pass

  lemma {:induction false} EscapedStop(head: string, body: string, rest: string)
    requires Escaped(body)
    ensures LiteralStop(head + body + [QUOTE] + rest, |head|) == |head| + |body|
    decreases |body|
  {
    var text := head + body + [QUOTE] + rest;
    if body != "" {
      var n := if body[0] == '\\' then 2 else 1;
      assert text[|head|] == body[0];
      EscapedStop(head + body[..n], body[n..], rest);
      assert head + body[..n] + body[n..] + [QUOTE] + rest == text by { assert body[..n] + body[n..] == body; }
    }
  }

  lemma {:induction false} NoCloseStop(head: string, body: string, rest: string)
    requires !HasClose(body)
    ensures BlockStop(head + body + "*/" + rest, |head|) == |head| + |body|
    decreases |body|
  {
    var text := head + body + "*/" + rest;
    if body == "" {
      assert text[|head|] == '*' && text[|head| + 1] == '/';
    } else {
      assert text[|head|] == body[0];
      assert |body| >= 2 ==> text[|head| + 1] == body[1];
      assert |body| == 1 ==> text[|head| + 1] == '*';
      NoCloseStop(head + body[..1], body[1..], rest);
      assert head + body[..1] + body[1..] + "*/" + rest == text by { assert body[..1] + body[1..] == body; }
    }
  }

  lemma StripLiteral(body: string, rest: string)
    requires Escaped(body)
    ensures Strip(Quoted(body) + rest) == Quoted(body) + Strip(rest)
  {
    var text := Quoted(body) + rest;
    EscapedStop([QUOTE], body, rest);
    assert [QUOTE] + body + [QUOTE] + rest == text;
    assert text[..|body| + 2] == Quoted(body) && text[|body| + 2..] == rest;
  }

  lemma StripCode(c: char, rest: string)
    requires c != QUOTE && !IsComment([c] + rest)
    ensures Strip([c] + rest) == [c] + Strip(rest)
  {
    assert ([c] + rest)[1..] == rest && ([c] + rest)[..1] == [c];
  }

  lemma StripLine(body: string, rest: string)
    requires '\n' !in body
    ensures Strip("//" + body + "\n" + rest) == "\n" + Strip(rest)
  {
    var text := "//" + body + "\n" + rest;
    var n := |body| + 2;
    assert text[..n] == "//" + body && text[n..] == "\n" + rest && text[0..] == text;
    LineStopIs(text, 0, n);
    assert Strip(text) == Strip(text[n..]);
    StripCode('\n', rest);
  }

  lemma StripBlock(body: string, rest: string)
    requires !HasClose(body)
    ensures Strip("/*" + body + "*/" + rest) == Strip(rest)
  {
    var text := "/*" + body + "*/" + rest;
    NoCloseStop("/*", body, rest);
    assert text[|body| + 4..] == rest;
  }

  /** A comment that runs to the end of the text. */
  predicate OpenComment(tail: string) {
    tail == ""
    || (StartsLine(tail) && '\n' !in tail)
    || (StartsBlock(tail) && !HasClose(tail[2..]))
  }

  lemma {:induction false} NoCloseAtAll(head: string, body: string)
    requires !HasClose(body)
    ensures BlockStop(head + body, |head|) == |head| + |body|
    decreases |body|
  {
    if |body| >= 2 {
      assert (head + body)[|head|] == body[0] && (head + body)[|head| + 1] == body[1];
      NoCloseAtAll(head + body[..1], body[1..]);
      assert head + body[..1] + body[1..] == head + body;
    }
  }

  lemma StripTail(tail: string)
    requires OpenComment(tail)
    ensures Strip(tail) == ""
  {
    if StartsLine(tail) && '\n' !in tail {
      assert tail[0..] == tail;
      LineStopIs(tail, 0, |tail|);
      assert tail[|tail|..] == "";
    } else if tail != "" {
      NoCloseAtAll(tail[..2], tail[2..]);
      assert tail[..2] + tail[2..] == tail;
      assert tail[|tail|..] == "";
    }
  }

  lemma StripPiece(p: Piece, rest: string)
    requires WellFormed(p)
    ensures Strip(TextOf(p) + rest) == KeptOf(p) + Strip(rest)
  {
    match p {
      case Literal(body) => StripLiteral(body, rest);
      case Code(c) => StripCode(c, rest);
      case LineComment(body) =>
        assert TextOf(p) + rest == "//" + body + "\n" + rest;
        StripLine(body, rest);
      case BlockComment(body) =>
        assert TextOf(p) + rest == "/*" + body + "*/" + rest;
        StripBlock(body, rest);
    }
  }

  /** Tokens printed with comments between them strip to the same tokens, every
      literal as it was written. */
  lemma {:induction false} StripUndoesRendering(ps: seq<Piece>, tail: string)
    requires AllWellFormed(ps) && OpenComment(tail)
    ensures Strip(Text(ps) + tail) == Kept(ps)
  {
    if ps == [] {
      assert "" + tail == tail;
      StripTail(tail);
    } else {
      assert WellFormed(ps[0]);
      StripUndoesRendering(ps[1..], tail);
      StripPiece(ps[0], Text(ps[1..]) + tail);
      assert TextOf(ps[0]) + Text(ps[1..]) + tail == TextOf(ps[0]) + (Text(ps[1..]) + tail);
    }
  }

  lemma {:induction false} LiteralStopPrefix(a: string, b: string, m: nat, end: nat)
    requires m <= |a| && m <= |b| && a[..m] == b[..m] && LiteralStop(a, end) < m
    ensures LiteralStop(b, end) == LiteralStop(a, end)
    decreases m - end
  {
    if end < m {
      assert a[end] == a[..m][end] && b[end] == b[..m][end];
      if a[end] != QUOTE { LiteralStopPrefix(a, b, m, end + if a[end] == '\\' then 2 else 1); }
    }
  }

  lemma FirstKept(text: string)
    requires text != "" && !IsComment(text)
    ensures Strip(text) != "" && Strip(text)[0] == text[0]
  {
    var n := TokenLength(text);
    assert Strip(text) == text[..n] + Strip(text[n..]);
  }

  /** A closed literal is kept whole, whatever follows it. */
  lemma StripClosed(head: string, text: string, rest: string)
    requires text != "" && text[0] == QUOTE && LiteralStop(text, 1) < |text|
    requires head == text[..LiteralStop(text, 1) + 1]
    ensures Strip(head + rest) == head + Strip(rest)
  {
    var n := LiteralStop(text, 1) + 1;
    assert (head + rest)[..n] == head && (head + rest)[n..] == rest;
    LiteralStopPrefix(text, head + rest, n, 1);
    hide LiteralStop;
  }

  /** On any text at all, a second pass changes nothing. */
  lemma {:induction false} StripIdempotent(text: string)
    ensures Strip(Strip(text)) == Strip(text)
    decreases |text|
  {
    if text != "" {
      var n := TokenLength(text);
      var rest := text[n..];
      StripIdempotent(rest);
      assert Strip(text) == (if IsComment(text) then "" else text[..n]) + Strip(rest);
      assert !IsComment(text) && text[0] != QUOTE ==> n == 1;
      assert !IsComment(text) && text[0] == QUOTE ==> n == Min(LiteralStop(text, 1) + 1, |text|);
      hide TokenLength, LiteralStop;
      if IsComment(text) {
        assert "" + Strip(rest) == Strip(rest);
      } else if text[0] == QUOTE {
        if LiteralStop(text, 1) < |text| {
          StripClosed(text[..n], text, Strip(rest));
        } else {
          assert rest == "" && Strip(text) == text[..n] + Strip(rest);
          assert text[..n] + "" == text;
        }
      } else {
        assert text[..1] == [text[0]];
        assert [text[0]] + rest == text;
        NoNewComment(text[0], rest);
        StripCode(text[0], Strip(rest));
      }
    }
  }

  /** Taking comments out never brings the two halves of a comment mark together. */
  lemma NoNewComment(c: char, rest: string)
    requires !IsComment([c] + rest)
    ensures !IsComment([c] + Strip(rest))
  {
    if rest != "" && c == '/' {
      assert ([c] + rest)[1] == rest[0];
      FirstKept(rest);
      assert ([c] + Strip(rest))[1] == rest[0];
    } else if rest != "" {
      assert ([c] + Strip(rest))[0] == c;
    }
  }

  // ------------------------------------------------------- the trailing commas

  /** White space as a JavaScript pattern's `\s` has it. */
  predicate IsSpace(c: char) {
    var code := c as int;
    9 <= code <= 13 || code == 0x20 || code == 0xA0 || code == 0x1680 || 0x2000 <= code <= 0x200A
    || code == 0x2028 || code == 0x2029 || code == 0x202F || code == 0x205F || code == 0x3000 || code == 0xFEFF
  }

  predicate IsCloser(c: char) { c == '}' || c == ']' }

  /** White space and then a closing bracket. */
  predicate ClosesNext(text: string) {
    text != "" && (IsCloser(text[0]) || (IsSpace(text[0]) && ClosesNext(text[1..])))
  }

  /** The replacement: a comma goes when only white space parts it from a closing
      bracket. */
  function DropCommas(text: string): string {
    if text == "" then ""
    else if text[0] == ',' && ClosesNext(text[1..]) then DropCommas(text[1..])
    else [text[0]] + DropCommas(text[1..])
  }

  /** White space, character by character. */
  predicate White(c: char) {
    c in {'\t', '\n', '\U{000B}', '\U{000C}', '\r', ' ', '\U{00A0}', '\U{1680}', '\U{2000}', '\U{2001}', '\U{2002}',
          '\U{2003}', '\U{2004}', '\U{2005}', '\U{2006}', '\U{2007}', '\U{2008}', '\U{2009}', '\U{200A}', '\U{2028}',
          '\U{2029}', '\U{202F}', '\U{205F}', '\U{3000}', '\U{FEFF}'}
  }

  /** The character goes: it is a comma, and of what follows the first that is not white
      space is `}` or `]`. */
  ghost predicate Goes(text: string, i: nat)
    requires i < |text|
  {
    text[i] == ',' && exists j :: i < j < |text| && (text[j] == '}' || text[j] == ']')
                                  && forall k :: i < k < j ==> White(text[k])
  }

  /** The characters from `i` on that stay. */
  ghost function Remaining(text: string, i: nat): string
    requires i <= |text|
    decreases |text| - i
  {
    if i == |text| then "" else (if Goes(text, i) then "" else [text[i]]) + Remaining(text, i + 1)
  }

  lemma WhiteIs(c: char)
    ensures White(c) <==> IsSpace(c)
  {
    hide White, IsSpace;
    if c as int < 0x2000 { LowWhite(c); } else { HighWhite(c); }
  }

  lemma LowWhite(c: char)
    requires c as int < 0x2000
    ensures White(c) <==> IsSpace(c)
  {
  }

  lemma HighWhite(c: char)
    requires 0x2000 <= c as int
    ensures White(c) <==> IsSpace(c)
  {
  }

  /** A closing bracket comes next if and only if one stands after white space alone. */
  lemma {:induction false} ClosesAt(text: string, from: nat)
    requires from <= |text|
    ensures ClosesNext(text[from..]) <==>
            exists j :: from <= j < |text| && (text[j] == '}' || text[j] == ']')
                        && forall k :: from <= k < j ==> White(text[k])
    decreases |text| - from
  {
    if from < |text| {
      ClosesAt(text, from + 1);
      DropOne(text, from);
      WhiteIs(text[from]);
      hide White, ClosesNext, DropCommas;
      BracketsAreBlack();
    }
  }

  lemma BracketsAreBlack()
    ensures !White('}') && !White(']')
  {
  }

  /** The replacement keeps every character but the commas that go. */
  lemma {:induction false} DropsWhatGoes(text: string, i: nat)
    requires i <= |text|
    ensures DropCommas(text[i..]) == Remaining(text, i)
    decreases |text| - i
  {
    if i < |text| {
      DropsWhatGoes(text, i + 1);
      DropOne(text, i);
      ClosesAt(text, i + 1);
      hide White, ClosesNext, DropCommas;
    }
  }

  /** Some comma of `text` would go. */
  predicate Trails(text: string) {
    text != "" && ((text[0] == ',' && ClosesNext(text[1..])) || Trails(text[1..]))
  }

  lemma {:induction false} DropCommasShortens(text: string)
    ensures |DropCommas(text)| <= |text|
    ensures |DropCommas(text)| == |text| <==> !Trails(text)
    ensures !Trails(text) ==> DropCommas(text) == text
  {
    if text != "" {
      DropCommasShortens(text[1..]);
      assert [text[0]] + text[1..] == text;
    }
  }

  lemma DropOne(text: string, index: nat)
    requires index < |text|
    ensures text[index] != ',' || !ClosesNext(text[index + 1..]) ==>
      DropCommas(text[index..]) == [text[index]] + DropCommas(text[index + 1..])
    ensures text[index] == ',' && ClosesNext(text[index + 1..]) ==>
      DropCommas(text[index..]) == DropCommas(text[index + 1..])
    ensures ClosesNext(text[index..]) <==>
            IsCloser(text[index]) || (IsSpace(text[index]) && ClosesNext(text[index + 1..]))
  {
    assert text[index..][1..] == text[index + 1..];
  }

  /** White space and a bracket after a comma are copied: they hold no comma. */
  method SkipSpace(text: string, from: nat) returns (end: nat)
    requires from <= |text|
    ensures from <= end <= |text|
    ensures ClosesNext(text[from..]) <==> end < |text| && IsCloser(text[end])
    ensures DropCommas(text[from..]) == text[from..end] + DropCommas(text[end..])
  {
    end := from;
    assert text[from..from] == "";
    while end < |text| && IsSpace(text[end])
      invariant from <= end <= |text|
      invariant ClosesNext(text[from..]) <==> ClosesNext(text[end..])
      invariant DropCommas(text[from..]) == text[from..end] + DropCommas(text[end..])
    {
      DropOne(text, end);
      assert IsSpace(text[end]) && text[end] != ',' && !IsCloser(text[end]);
      hide *;
      assert text[from..end + 1] == text[from..end] + [text[end]];
      Reassociate(text[from..end], [text[end]], DropCommas(text[end + 1..]));
      end := end + 1;
    }
    if end < |text| { DropOne(text, end); }
  }

  lemma Reassociate(a: string, b: string, c: string)
    ensures a + (b + c) == a + b + c
  {
  }

  /** The global replacement: matches are taken from the left, each one resuming
      after its bracket. */
  method ReplaceTrailingCommas(text: string) returns (out: string)
    ensures out == DropCommas(text) == Remaining(text, 0)
  {
    assert DropCommas(text[|text|..]) == "";
    DropsWhatGoes(text, 0);
    hide *;
    out := "";
    var index: nat := 0;
    assert text[0..] == text;
    assert "" + DropCommas(text) == DropCommas(text);
    while index < |text|
      invariant index <= |text|
      invariant out + DropCommas(text[index..]) == DropCommas(text)
    {
      DropOne(text, index);
      if text[index] == ',' {
        var end := SkipSpace(text, index + 1);
        if end < |text| && IsCloser(text[end]) {
          DropOne(text, end);
          NoCommaCloses(text[end]);
          assert text[index + 1..end + 1] == text[index + 1..end] + [text[end]];
          Reassociate(text[index + 1..end], [text[end]], DropCommas(text[end + 1..]));
          Reassociate(out, text[index + 1..end + 1], DropCommas(text[end + 1..]));
          out := out + text[index + 1..end + 1];
          index := end + 1;
          continue;
        }
      }
      Reassociate(out, [text[index]], DropCommas(text[index + 1..]));
      out := out + [text[index]];
      index := index + 1;
    }
  }

  lemma NoCommaCloses(c: char)
    ensures IsCloser(c) ==> c != ','
  {
  }

  // ------------------------------------------------------------ both together

  /** The same rule on tokens: white space, comments and then a closing bracket. */
  predicate PiecesClose(ps: seq<Piece>) {
    ps != [] &&
    match ps[0]
    case Literal(_) => false
    case Code(c) => IsCloser(c) || (IsSpace(c) && PiecesClose(ps[1..]))
    case LineComment(_) => PiecesClose(ps[1..])
    case BlockComment(_) => PiecesClose(ps[1..])
  }

  /** The tokens with the trailing commas taken out, literals untouched. */
  function DropPieces(ps: seq<Piece>): seq<Piece> {
    if ps == [] then []
    else if ps[0] == Code(',') && PiecesClose(ps[1..]) then DropPieces(ps[1..])
    else [ps[0]] + DropPieces(ps[1..])
  }

  lemma {:induction false} ClosesKept(ps: seq<Piece>)
    ensures ClosesNext(Kept(ps)) <==> PiecesClose(ps)
  {
    if ps != [] {
      ClosesKept(ps[1..]);
      var rest := Kept(ps[1..]);
      match ps[0] {
        case Literal(body) => assert Kept(ps)[0] == QUOTE;
        case Code(c) => assert Kept(ps)[0] == c && Kept(ps)[1..] == rest;
        case LineComment(_) => assert Kept(ps)[0] == '\n' && Kept(ps)[1..] == rest;
        case BlockComment(_) => assert Kept(ps) == rest;
      }
    }
  }

  /** A quote parts what is before it from what is after. */
  lemma {:induction false} ClosesBeforeQuote(a: string, rest: string)
    ensures ClosesNext(a + ([QUOTE] + rest)) <==> ClosesNext(a)
  {
    if a == "" {
      assert a + ([QUOTE] + rest) == [QUOTE] + rest;
    } else {
      ClosesBeforeQuote(a[1..], rest);
      assert (a + ([QUOTE] + rest))[1..] == a[1..] + ([QUOTE] + rest);
    }
  }

  lemma {:induction false} DropBeforeQuote(a: string, rest: string)
    ensures DropCommas(a + ([QUOTE] + rest)) == DropCommas(a) + ([QUOTE] + DropCommas(rest))
  {
    var text := a + ([QUOTE] + rest);
    if a == "" {
      assert text == [QUOTE] + rest && text[1..] == rest;
    } else {
      DropBeforeQuote(a[1..], rest);
      ClosesBeforeQuote(a[1..], rest);
      assert text[1..] == a[1..] + ([QUOTE] + rest) && text[0] == a[0];
      hide ClosesNext;
    }
  }

  lemma DropLiteral(body: string, rest: string)
    ensures DropCommas(Quoted(body) + rest) == Quoted(DropCommas(body)) + DropCommas(rest)
  {
    var text := Quoted(body) + rest;
    assert text[0] == QUOTE && text[1..] == body + ([QUOTE] + rest);
    DropBeforeQuote(body, rest);
  }

  /** No literal holds a comma that only white space parts from a closing bracket. */
  ghost predicate LiteralsSafe(ps: seq<Piece>) { forall body :: Literal(body) in ps ==> !Trails(body) }

  lemma LiteralsSafeStep(ps: seq<Piece>)
    requires ps != []
    ensures LiteralsSafe(ps) <==> (ps[0].Literal? ==> !Trails(ps[0].body)) && LiteralsSafe(ps[1..])
  {
    assert ps == [ps[0]] + ps[1..];
  }

  /** The comma pass never lengthens, and is the token rule exactly when the
      literals are safe. */
  lemma {:induction false} CommaPass(ps: seq<Piece>)
    ensures |DropCommas(Kept(ps))| <= |Kept(DropPieces(ps))|
    ensures LiteralsSafe(ps) ==> DropCommas(Kept(ps)) == Kept(DropPieces(ps))
    ensures !LiteralsSafe(ps) ==> |DropCommas(Kept(ps))| < |Kept(DropPieces(ps))|
  {
    if ps != [] {
      var p, rest := ps[0], Kept(ps[1..]);
      CommaPass(ps[1..]);
      ClosesKept(ps[1..]);
      LiteralsSafeStep(ps);
      var kept := KeptOf(p) + rest;
      assert Kept(ps) == kept;
      var dropped := p == Code(',') && PiecesClose(ps[1..]);
      if !dropped {
        assert ([p] + DropPieces(ps[1..]))[1..] == DropPieces(ps[1..]);
        assert Kept(DropPieces(ps)) == KeptOf(p) + Kept(DropPieces(ps[1..]));
      }
      match p {
        case Literal(body) =>
          DropLiteral(body, rest);
          DropCommasShortens(body);
        case Code(c) => assert kept[0] == c && kept[1..] == rest;
        case LineComment(_) => assert kept[0] == '\n' && kept[1..] == rest;
        case BlockComment(_) => assert kept == rest;
      }
    }
  }

  /** Both passes on a printed text give the tokens without their trailing commas
      exactly when no literal holds a comma, white space and a closing bracket: the
      replacement does not know where a literal begins. */
  lemma PassesKeepTokens(ps: seq<Piece>, tail: string)
    requires AllWellFormed(ps) && OpenComment(tail)
    ensures DropCommas(Strip(Text(ps) + tail)) == Kept(DropPieces(ps)) <==> LiteralsSafe(ps)
  {
    StripUndoesRendering(ps, tail);
    CommaPass(ps);
  }

  /** A quote after a backslash does not end a literal, so what looks like a comment in
      it stays, and the comment after it goes. */
  lemma EscapedQuoteKept()
    ensures Strip("\"\\\"//\" //x") == "\"\\\"//\" "
  {
    var body := "\\\"//";
    EscapedBody();
    StripLiteral(body, " //x");
    CommentAfter();
    hide *;
    EscapedText(body);
  }

  lemma CommentAfter()
    ensures Strip(" //x") == " "
  {
    StripTail("//x");
    StripCode(' ', "//x");
    hide Strip;
    assert [' '] + "//x" == " //x" && [' '] + "" == " ";
  }

  lemma EscapedText(body: string)
    requires body == "\\\"//"
    ensures Quoted(body) + " //x" == "\"\\\"//\" //x" && Quoted(body) + " " == "\"\\\"//\" "
  {
  }

  lemma EscapedBody()
    ensures Escaped("\\\"//")
  {
    assert "\\\"//"[2..] == "//" && "//"[1..] == "/" && "/"[1..] == "";
    assert Escaped("/") && Escaped("//");
  }

  /** A string that holds the end of an array loses its comma. */
  lemma LiteralLosesComma()
    ensures Strip(Text([Literal("a,]")])) == "\"a,]\""
    ensures DropCommas(Strip(Text([Literal("a,]")]))) == "\"a]\""
  {
    var body := "a,]";
    CommaInside();
    OneLiteral(body);
    QuotedText();
    LiteralAlone(body);
    hide *;
  }

  lemma QuotedText()
    ensures Quoted("a,]") == "\"a,]\"" && Quoted("a]") == "\"a]\""
  {
  }

  /** The comma pass on a literal with nothing after it. */
  lemma LiteralAlone(body: string)
    ensures DropCommas(Quoted(body)) == Quoted(DropCommas(body))
  {
    DropLiteral(body, "");
    NothingToDrop();
    hide DropCommas;
    assert Quoted(body) + "" == Quoted(body) && Quoted(DropCommas(body)) + "" == Quoted(DropCommas(body));
  }

  lemma NothingToDrop()
    ensures DropCommas("") == ""
  {
  }

  /** A text of one literal is the literal, and so is what is kept of it. */
  lemma OnePiece(body: string)
    ensures Text([Literal(body)]) == Quoted(body) && Kept([Literal(body)]) == Quoted(body)
  {
    var ps := [Literal(body)];
    assert ps[0] == Literal(body) && ps[1..] == [];
    NoPieces();
    hide Quoted;
    assert TextOf(ps[0]) == Quoted(body) && KeptOf(ps[0]) == Quoted(body);
    assert Quoted(body) + "" == Quoted(body);
  }

  lemma NoPieces()
    ensures Text([]) == "" && Kept([]) == ""
  {
  }

  lemma WellFormedAlone(body: string)
    requires Escaped(body)
    ensures AllWellFormed([Literal(body)]) && OpenComment("")
  {
  }

  lemma OneLiteral(body: string)
    requires Escaped(body)
    ensures Strip(Text([Literal(body)])) == Quoted(body)
  {
    OnePiece(body);
    WellFormedAlone(body);
    StripUndoesRendering([Literal(body)], "");
    hide *;
    assert Quoted(body) + "" == Quoted(body);
  }

  lemma CommaInside()
    ensures Escaped("a,]") && DropCommas("a,]") == "a]"
  {
    assert "a,]"[1..] == ",]" && ",]"[1..] == "]" && "]"[1..] == "";
    assert Escaped("]") && Escaped(",]") && ClosesNext("]");
    assert DropCommas("]") == "]" && DropCommas(",]") == "]" && ['a'] + "]" == "a]";
  }
}
