/**
 * The golden-test generator of the BBCode module: it parses an input with the
 * (unmodelled) BBCode parser and records, on a KotlinPoet function builder, one
 * assertion per element of the resulting tree.
 *
 * The builder's code is modelled as the sequence of calls made on it: each
 * `addCode(format, args)` becomes a `Code` piece, each `addStatement(format, args)`
 * a `Statement` piece, and the two indentation markers `⇥`/`⇤` that KotlinPoet
 * interprets inside formats get pieces of their own.
 */
module TestCodegen {

  import opened Wrappers

  // ---------------------------------------------------------------------------
  // The parsed tree, restricted to the fields the generator reads
  // ---------------------------------------------------------------------------

  /** Size of text outside any [size] tag; its value is not part of this model. */
  const DEFAULT_SIZE: int

  datatype RichElement =
    | BangumiSticker(stickerId: int, jumpUrl: Option<string>)
    | Image(imageUrl: string, width: Option<int>, height: Option<int>, jumpUrl: Option<string>)
    | Kanmoji(kanmojiId: string, jumpUrl: Option<string>)
    | Quote(contents: RichText, jumpUrl: Option<string>)
    | Text(value: string, jumpUrl: Option<string>, size: int, color: Option<string>,
           bold: bool, italic: bool, underline: bool, strikethrough: bool, mask: bool, code: bool)

  /** The parser's result: an ordered document of elements. */
  datatype RichText = RichText(elements: seq<RichElement>)

  // ---------------------------------------------------------------------------
  // What the generator records on a function builder
  // ---------------------------------------------------------------------------

  /** A KotlinPoet format argument: `%L` takes ints and booleans, `%S` strings. */
  datatype Arg = IntLiteral(n: int) | BoolLiteral(b: bool) | StringLiteral(s: string)

  datatype CodePiece =
    | Indent                                      // addCode("⇥")
    | Unindent                                    // addCode("⇤")
    | Code(format: string, args: seq<Arg>)        // addCode(format, args)
    | Statement(format: string, args: seq<Arg>)   // addStatement(format, args)

  const EMPTY_CHECK := "kotlin.test.assertEquals(0, elements.size)"

  /** Decimal digits of a natural number, as Kotlin's toString writes them. */
  function Dec(n: nat): string
    decreases n
  {
    if n < 10 then [(n + '0' as int) as char] else Dec(n / 10) + Dec(n % 10)
  }

  /** Dec writes at least one character, and only digits. */
  lemma {:induction false} DecDigits(n: nat)
    ensures |Dec(n)| >= 1
    ensures forall k :: 0 <= k < |Dec(n)| ==> '0' <= Dec(n)[k] <= '9'
    decreases n
  {
    if n >= 10 {
      DecDigits(n / 10);
      DecDigits(n % 10);
      var high, low := Dec(n / 10), Dec(n % 10);
      forall k | 0 <= k < |high + low| ensures '0' <= (high + low)[k] <= '9' {
        if k >= |high| {
          assert (high + low)[k] == low[k - |high|];
        }
      }
    }
  }

  /** The number a string of decimal digits spells, read from the left. */
  function DigitsValue(s: string): int
  {
    if s == [] then 0 else 10 * DigitsValue(s[..|s| - 1]) + (s[|s| - 1] as int - '0' as int)
  }

  /** Dec writes the digits of n itself: reading them back gives n. */
  lemma {:induction false} DecValue(n: nat)
    ensures DigitsValue(Dec(n)) == n
    decreases n
  {
    if n >= 10 {
      DecValue(n / 10);
      var high, low := Dec(n / 10), Dec(n % 10);
      assert low == [(n % 10 + '0' as int) as char];
      assert (high + low)[..|high + low| - 1] == high;
      assert (high + low)[|high + low| - 1] == low[0];
    }
  }

  /** Different numbers are written differently. */
  lemma DecInjective(a: nat, b: nat)
    ensures Dec(a) == Dec(b) <==> a == b
  {
    DecValue(a);
    DecValue(b);
  }

  /** Kotlin's Int/Long toString: a minus sign before the digits of negatives. */
  function IntToDec(n: int): string
  {
    if n < 0 then "-" + Dec(-n) else Dec(n)
  }

  /** The expression the index-th assertion is applied to. */
  function At(index: nat): string
  {
    "elements.at(" + Dec(index) + ")"
  }

  /** Different indices give different targets, so no two assertions check the same element. */
  lemma AtInjective(i: nat, j: nat)
    ensures At(i) == At(j) <==> i == j
  {
    if At(i) == At(j) {
      var prefix := "elements.at(";
      assert At(i)[|prefix|..|At(i)| - 1] == Dec(i);
      assert At(j)[|prefix|..|At(j)| - 1] == Dec(j);
      DecInjective(i, j);
    }
  }

  /** `, jumpUrl=%S`, present exactly when the element has a link. */
  function JumpUrlArg(jumpUrl: Option<string>): seq<CodePiece>
  {
    if jumpUrl.Some? then [Code(", jumpUrl=%S", [StringLiteral(jumpUrl.value)])] else []
  }

  /** `width`/`height` of an image: emitted when non-null, 0 included. */
  function DimensionArg(format: string, dimension: Option<int>): seq<CodePiece>
  {
    if dimension.Some? then [Code(format, [IntLiteral(dimension.value)])] else []
  }

  /** A boolean flag of a text element: emitted only when true. */
  function FlagArg(format: string, flag: bool): seq<CodePiece>
  {
    if flag then [Code(format, [BoolLiteral(true)])] else []
  }

  /**
   * All assertions for one list of elements (one call of generateAssertions),
   * between an indent and an unindent marker.
   */
  function Assertions(elements: seq<RichElement>): (r: seq<CodePiece>)
    decreases elements, 1, 0
  {
    if elements == [] then
      [Indent, Statement(EMPTY_CHECK, []), Unindent]
    else
      [Indent] + ElementRange(elements, 0, |elements|) + [Unindent]
  }

  /** The assertions of elements[lo..hi], in list order. */
  function ElementRange(elements: seq<RichElement>, lo: nat, hi: nat): (r: seq<CodePiece>)
    requires lo <= hi <= |elements|
    decreases elements, 0, hi - lo
  {
    if lo == hi then []
    else ElementRange(elements, lo, hi - 1) + ElementAssertion(elements[hi - 1], hi - 1)
  }

  /** The assertion for one element at position index of its list. */
  function ElementAssertion(element: RichElement, index: nat): (r: seq<CodePiece>)
    decreases element, 0, 0
  {
    match element
    case BangumiSticker(_, jumpUrl) =>
      [Head(element, index)]
      + JumpUrlArg(jumpUrl)
      + [Statement(")", [])]
    case Image(_, width, height, jumpUrl) =>
      [Head(element, index)]
      + DimensionArg(", width=%L", width)
      + DimensionArg(", height=%L", height)
      + JumpUrlArg(jumpUrl)
      + [Statement(")", [])]
    case Kanmoji(_, jumpUrl) =>
      [Head(element, index)]
      + JumpUrlArg(jumpUrl)
      + [Statement(")", [])]
    case Quote(contents, jumpUrl) =>
      [Head(element, index)]
      + JumpUrlArg(jumpUrl)
      + [Statement(") {", [])]
      + Assertions(contents.elements)
      + [Statement("}", [])]
    case Text(_, _, _, _, _, _, _, _, _, _) =>
      [Head(element, index)]
      + TextArgs(element)
      + [Statement(")", [])]
  }

  /** The optional arguments of a text assertion, in the generator's fixed order. */
  function TextArgs(text: RichElement): seq<CodePiece>
    requires text.Text?
  {
    JumpUrlArg(text.jumpUrl)
    + (if text.size != DEFAULT_SIZE then [Code(", size=%L", [IntLiteral(text.size)])] else [])
    + (if text.color.Some? then [Code(", color=%S", [StringLiteral(text.color.value)])] else [])
    + FlagArgs(text)
  }

  function FlagArgs(text: RichElement): seq<CodePiece>
    requires text.Text?
  {
    FlagArg(", italic=%L", text.italic)
    + FlagArg(", underline=%L", text.underline)
    + FlagArg(", strikethrough=%L", text.strikethrough)
    + FlagArg(", bold=%L", text.bold)
    + FlagArg(", mask=%L", text.mask)
    + FlagArg(", code=%L", text.code)
  }

  /** The name of the helper assertion used for each kind of element. */
  function KindName(element: RichElement): string
  {
    match element
    case BangumiSticker(_, _) => "BangumiSticker"
    case Image(_, _, _, _) => "Image"
    case Kanmoji(_, _) => "Kanmoji"
    case Quote(_, _) => "Quote"
    case Text(_, _, _, _, _, _, _, _, _, _) => "Text"
  }

  /**
   * The first addCode of an element's assertion: it calls the helper for the
   * element's kind on elements.at(index) and carries the one field that is
   * always emitted (the sticker id, image URL, kanmoji id or text value).
   */
  function Head(element: RichElement, index: nat): CodePiece
  {
    var call := "assert" + KindName(element) + "(" + At(index);
    match element
    case BangumiSticker(id, _) => Code(call + ", id=%L", [IntLiteral(id)])
    case Image(url, _, _, _) => Code(call + ", imageUrl=%S", [StringLiteral(url)])
    case Kanmoji(id, _) => Code(call + ", id=%S", [StringLiteral(id)])
    case Quote(_, _) => Code(call, [])
    case Text(value, _, _, _, _, _, _, _, _, _) => Code(call + ", value=%S", [StringLiteral(value)])
  }

  lemma {:induction false} RangeStartsWithHead(elements: seq<RichElement>, lo: nat, hi: nat)
    requires lo < hi <= |elements|
    ensures |ElementRange(elements, lo, hi)| >= 2
    ensures ElementRange(elements, lo, hi)[0] == Head(elements[lo], lo)
    decreases hi - lo
  {
    if hi - 1 == lo {
      RangeSingle(elements, lo);
      ElementStart(elements[lo], lo);
    } else {
      RangeStartsWithHead(elements, lo, hi - 1);
      RangeStep(elements, lo, hi);
      FirstOfAppend(ElementRange(elements, lo, hi - 1), ElementAssertion(elements[hi - 1], hi - 1));
    }
  }

  lemma ElementStart(element: RichElement, index: nat)
    ensures |ElementAssertion(element, index)| >= 2
    ensures ElementAssertion(element, index)[0] == Head(element, index)
  {
  }

  lemma FirstOfAppend<T>(a: seq<T>, b: seq<T>)
    requires |a| >= 1
    ensures |a + b| >= |a| && (a + b)[0] == a[0]
  {
  }

  // ---------------------------------------------------------------------------
  // Nesting of the generated code
  // ---------------------------------------------------------------------------

  /** The two kinds of nesting in the generated code: indent markers and braces. */
  datatype Nesting = IndentMarkers | Braces

  function Max(a: int, b: int): int { if a < b then b else a }
  function Min(a: int, b: int): int { if a < b then a else b }

  /** Number of '{' minus number of '}' in a format string. */
  function BraceBalance(s: string): int
  {
    if s == [] then 0
    else (if s[0] == '{' then 1 else if s[0] == '}' then -1 else 0) + BraceBalance(s[1..])
  }

  /** How far one piece moves the nesting level of the given kind. */
  function Delta(kind: Nesting, p: CodePiece): int
  {
    match kind
    case IndentMarkers => if p.Indent? then 1 else if p.Unindent? then -1 else 0
    case Braces => if p.Code? || p.Statement? then BraceBalance(p.format) else 0
  }

  /** The nesting level after all of ps, starting from level 0. */
  function Depth(kind: Nesting, ps: seq<CodePiece>): int
  {
    if ps == [] then 0 else Delta(kind, ps[0]) + Depth(kind, ps[1..])
  }

  /** The highest level reached by any prefix of ps (0 for the empty prefix). */
  function Peak(kind: Nesting, ps: seq<CodePiece>): int
  {
    if ps == [] then 0 else Max(0, Delta(kind, ps[0]) + Peak(kind, ps[1..]))
  }

  /** The lowest level reached by any prefix of ps (0 for the empty prefix). */
  function Floor(kind: Nesting, ps: seq<CodePiece>): int
  {
    if ps == [] then 0 else Min(0, Delta(kind, ps[0]) + Floor(kind, ps[1..]))
  }

  /** Every opening is closed later and nothing is closed before it is opened. */
  predicate WellNested(kind: Nesting, ps: seq<CodePiece>)
  {
    Depth(kind, ps) == 0 && Floor(kind, ps) == 0
  }

  /** How deeply quotes are nested in a document: the deepest of its elements. */
  function QuoteDepth(elements: seq<RichElement>): nat
    decreases elements, 2, 0
  {
    RangeQuoteDepth(elements, 0, |elements|)
  }

  /** The deepest quote nesting among elements[lo..hi]. */
  function RangeQuoteDepth(elements: seq<RichElement>, lo: nat, hi: nat): nat
    requires lo <= hi <= |elements|
    decreases elements, 1, hi - lo
  {
    if lo == hi then 0 else Max(RangeQuoteDepth(elements, lo, hi - 1), ElementQuoteDepth(elements[hi - 1]))
  }

  /** A quote is one level deeper than the deepest quote inside it. */
  function ElementQuoteDepth(element: RichElement): nat
    decreases element, 0, 0
  {
    if element.Quote? then 1 + QuoteDepth(element.contents.elements) else 0
  }

  lemma {:induction false} BraceBalanceAppend(a: string, b: string)
    ensures BraceBalance(a + b) == BraceBalance(a) + BraceBalance(b)
  {
    if a == [] {
      assert a + b == b;
    } else {
      assert (a + b)[1..] == a[1..] + b;
      BraceBalanceAppend(a[1..], b);
    }
  }

  predicate NoBraceChars(s: string)
  {
    forall k :: 0 <= k < |s| ==> s[k] != '{' && s[k] != '}'
  }

  lemma {:induction false} NoBraceCharsBalance(s: string)
    requires NoBraceChars(s)
    ensures BraceBalance(s) == 0
  {
    if s != [] {
      NoBraceCharsBalance(s[1..]);
    }
  }

  /** Depth, Peak and Floor of a concatenation, from those of its parts. */
  lemma NestingAppend(kind: Nesting, a: seq<CodePiece>, b: seq<CodePiece>)
    ensures Depth(kind, a + b) == Depth(kind, a) + Depth(kind, b)
    ensures Peak(kind, a + b) == Max(Peak(kind, a), Depth(kind, a) + Peak(kind, b))
    ensures Floor(kind, a + b) == Min(Floor(kind, a), Depth(kind, a) + Floor(kind, b))
  {
    DepthAppend(kind, a, b);
    PeakAppend(kind, a, b);
    FloorAppend(kind, a, b);
  }

  lemma {:induction false} DepthAppend(kind: Nesting, a: seq<CodePiece>, b: seq<CodePiece>)
    ensures Depth(kind, a + b) == Depth(kind, a) + Depth(kind, b)
  {
    if a == [] {
      assert a + b == b;
    } else {
      assert (a + b)[1..] == a[1..] + b;
      DepthAppend(kind, a[1..], b);
    }
  }

  lemma {:induction false} PeakAppend(kind: Nesting, a: seq<CodePiece>, b: seq<CodePiece>)
    ensures Peak(kind, a + b) == Max(Peak(kind, a), Depth(kind, a) + Peak(kind, b))
  {
    if a == [] {
      assert a + b == b;
      PeakIsNonNegative(kind, b);
    } else {
      assert (a + b)[1..] == a[1..] + b;
      PeakAppend(kind, a[1..], b);
    }
  }

  lemma {:induction false} FloorAppend(kind: Nesting, a: seq<CodePiece>, b: seq<CodePiece>)
    ensures Floor(kind, a + b) == Min(Floor(kind, a), Depth(kind, a) + Floor(kind, b))
  {
    if a == [] {
      assert a + b == b;
      PeakIsNonNegative(kind, b);
    } else {
      assert (a + b)[1..] == a[1..] + b;
      FloorAppend(kind, a[1..], b);
    }
  }

  /** A run of pieces none of which opens or closes anything. */
  lemma {:induction false} FlatNesting(kind: Nesting, ps: seq<CodePiece>)
    requires forall k :: 0 <= k < |ps| ==> Delta(kind, ps[k]) == 0
    ensures Depth(kind, ps) == 0 && Peak(kind, ps) == 0 && Floor(kind, ps) == 0
  {
    if ps != [] {
      FlatNesting(kind, ps[1..]);
    }
  }

  lemma HeadIsFlat(kind: Nesting, element: RichElement, index: nat)
    ensures Delta(kind, Head(element, index)) == 0
  {
    CallHasNoBraces(element, index);
    HeadSuffixesHaveNoBraces();
    var call := "assert" + KindName(element) + "(" + At(index);
    NoBraceCharsAppend(call, ", id=%L");
    NoBraceCharsAppend(call, ", imageUrl=%S");
    NoBraceCharsAppend(call, ", id=%S");
    NoBraceCharsAppend(call, ", value=%S");
    NoBraceCharsBalance(Head(element, index).format);
  }

  lemma NoBraceCharsAppend(a: string, b: string)
    requires NoBraceChars(a) && NoBraceChars(b)
    ensures NoBraceChars(a + b)
  {
    forall k | 0 <= k < |a + b| ensures (a + b)[k] != '{' && (a + b)[k] != '}' {
      if k >= |a| {
        assert (a + b)[k] == b[k - |a|];
      }
    }
  }

  lemma HeadSuffixesHaveNoBraces()
    ensures NoBraceChars(", id=%L") && NoBraceChars(", imageUrl=%S")
    ensures NoBraceChars(", id=%S") && NoBraceChars(", value=%S")
  {
  }

  lemma CallHasNoBraces(element: RichElement, index: nat)
    ensures NoBraceChars("assert" + KindName(element) + "(" + At(index))
  {
    CallPartsHaveNoBraces(element);
    AtHasNoBraces(index);
    NoBraceCharsAppend("assert", KindName(element));
    NoBraceCharsAppend("assert" + KindName(element), "(");
    NoBraceCharsAppend("assert" + KindName(element) + "(", At(index));
  }

  lemma CallPartsHaveNoBraces(element: RichElement)
    ensures NoBraceChars("assert") && NoBraceChars("(") && NoBraceChars(KindName(element))
  {
  }

  lemma AtHasNoBraces(index: nat)
    ensures NoBraceChars(At(index))
  {
    assert NoBraceChars("elements.at(") && NoBraceChars(")");
    DecDigits(index);
    assert NoBraceChars(Dec(index));
    NoBraceCharsAppend("elements.at(", Dec(index));
    NoBraceCharsAppend("elements.at(" + Dec(index), ")");
  }

  /** No piece of ps opens or closes anything of the given kind. */
  predicate Flat(kind: Nesting, ps: seq<CodePiece>)
  {
    forall k :: 0 <= k < |ps| ==> Delta(kind, ps[k]) == 0
  }

  /** A piece whose format has no brace in it opens and closes nothing. */
  lemma PieceIsFlat(kind: Nesting, p: CodePiece)
    requires (p.Code? || p.Statement?) && NoBraceChars(p.format)
    ensures Delta(kind, p) == 0
  {
    NoBraceCharsBalance(p.format);
  }

  /** None of the generator's argument formats contains a brace. */
  lemma FormatsHaveNoBraces()
    ensures NoBraceChars(", jumpUrl=%S") && NoBraceChars(", width=%L") && NoBraceChars(", height=%L")
    ensures NoBraceChars(", size=%L") && NoBraceChars(", color=%S") && NoBraceChars(", italic=%L")
    ensures NoBraceChars(", underline=%L") && NoBraceChars(", strikethrough=%L") && NoBraceChars(", bold=%L")
    ensures NoBraceChars(", mask=%L") && NoBraceChars(", code=%L") && NoBraceChars(")")
  {
  }

  lemma JumpUrlArgIsFlat(kind: Nesting, jumpUrl: Option<string>)
    ensures Flat(kind, JumpUrlArg(jumpUrl))
  {
    FormatsHaveNoBraces();
    if jumpUrl.Some? {
      PieceIsFlat(kind, Code(", jumpUrl=%S", [StringLiteral(jumpUrl.value)]));
    }
  }

  lemma DimensionArgIsFlat(kind: Nesting, format: string, dimension: Option<int>)
    requires NoBraceChars(format)
    ensures Flat(kind, DimensionArg(format, dimension))
  {
    if dimension.Some? {
      PieceIsFlat(kind, Code(format, [IntLiteral(dimension.value)]));
    }
  }

  lemma FlagArgIsFlat(kind: Nesting, format: string, flag: bool)
    requires NoBraceChars(format)
    ensures Flat(kind, FlagArg(format, flag))
  {
    PieceIsFlat(kind, Code(format, [BoolLiteral(true)]));
  }

  lemma FlatAppend(kind: Nesting, a: seq<CodePiece>, b: seq<CodePiece>)
    requires Flat(kind, a) && Flat(kind, b)
    ensures Flat(kind, a + b)
  {
    forall k | 0 <= k < |a + b| ensures Delta(kind, (a + b)[k]) == 0 {
      if k >= |a| {
        assert (a + b)[k] == b[k - |a|];
      }
    }
  }

  lemma FlagArgsAreFlat(kind: Nesting, text: RichElement)
    requires text.Text?
    ensures Flat(kind, FlagArgs(text))
  {
    FormatsHaveNoBraces();
    FlagArgIsFlat(kind, ", italic=%L", text.italic);
    FlagArgIsFlat(kind, ", underline=%L", text.underline);
    FlagArgIsFlat(kind, ", strikethrough=%L", text.strikethrough);
    FlagArgIsFlat(kind, ", bold=%L", text.bold);
    FlagArgIsFlat(kind, ", mask=%L", text.mask);
    FlagArgIsFlat(kind, ", code=%L", text.code);
    var ps := FlagArg(", italic=%L", text.italic);
    FlatAppend(kind, ps, FlagArg(", underline=%L", text.underline));
    ps := ps + FlagArg(", underline=%L", text.underline);
    FlatAppend(kind, ps, FlagArg(", strikethrough=%L", text.strikethrough));
    ps := ps + FlagArg(", strikethrough=%L", text.strikethrough);
    FlatAppend(kind, ps, FlagArg(", bold=%L", text.bold));
    ps := ps + FlagArg(", bold=%L", text.bold);
    FlatAppend(kind, ps, FlagArg(", mask=%L", text.mask));
    ps := ps + FlagArg(", mask=%L", text.mask);
    FlatAppend(kind, ps, FlagArg(", code=%L", text.code));
  }

  lemma TextArgsAreFlat(kind: Nesting, text: RichElement)
    requires text.Text?
    ensures Flat(kind, TextArgs(text))
  {
    var size: seq<CodePiece> := if text.size != DEFAULT_SIZE then [Code(", size=%L", [IntLiteral(text.size)])] else [];
    var color: seq<CodePiece> := if text.color.Some? then [Code(", color=%S", [StringLiteral(text.color.value)])] else [];
    JumpUrlArgIsFlat(kind, text.jumpUrl);
    SizeArgIsFlat(kind, text);
    ColorArgIsFlat(kind, text);
    FlagArgsAreFlat(kind, text);
    FlatAppend4(kind, JumpUrlArg(text.jumpUrl), size, color, FlagArgs(text));
  }

  lemma SizeArgIsFlat(kind: Nesting, text: RichElement)
    requires text.Text?
    ensures Flat(kind, if text.size != DEFAULT_SIZE then [Code(", size=%L", [IntLiteral(text.size)])] else [])
  {
    if text.size != DEFAULT_SIZE {
      assert NoBraceChars(", size=%L");
      PieceIsFlat(kind, Code(", size=%L", [IntLiteral(text.size)]));
    }
  }

  lemma ColorArgIsFlat(kind: Nesting, text: RichElement)
    requires text.Text?
    ensures Flat(kind, if text.color.Some? then [Code(", color=%S", [StringLiteral(text.color.value)])] else [])
  {
    if text.color.Some? {
      assert NoBraceChars(", color=%S");
      PieceIsFlat(kind, Code(", color=%S", [StringLiteral(text.color.value)]));
    }
  }

  lemma FlatAppend4(kind: Nesting, a: seq<CodePiece>, b: seq<CodePiece>, c: seq<CodePiece>, d: seq<CodePiece>)
    requires Flat(kind, a) && Flat(kind, b) && Flat(kind, c) && Flat(kind, d)
    ensures Flat(kind, a + b + c + d)
  {
    FlatAppend(kind, a, b);
    FlatAppend(kind, a + b, c);
    FlatAppend(kind, a + b + c, d);
  }

  lemma ArgumentsAreFlat(kind: Nesting, element: RichElement, index: nat)
    requires !element.Quote?
    ensures Flat(kind, ElementAssertion(element, index))
  {
    FormatsHaveNoBraces();
    HeadIsFlat(kind, element, index);
    PieceIsFlat(kind, Statement(")", []));
    var args: seq<CodePiece>;
    if element.Text? {
      TextArgsAreFlat(kind, element);
      args := TextArgs(element);
    } else if element.Image? {
      DimensionArgIsFlat(kind, ", width=%L", element.width);
      DimensionArgIsFlat(kind, ", height=%L", element.height);
      JumpUrlArgIsFlat(kind, element.jumpUrl);
      FlatAppend(kind, DimensionArg(", width=%L", element.width), DimensionArg(", height=%L", element.height));
      args := DimensionArg(", width=%L", element.width) + DimensionArg(", height=%L", element.height);
      FlatAppend(kind, args, JumpUrlArg(element.jumpUrl));
      args := args + JumpUrlArg(element.jumpUrl);
    } else {
      JumpUrlArgIsFlat(kind, element.jumpUrl);
      args := JumpUrlArg(element.jumpUrl);
    }
    FlatAppend(kind, [Head(element, index)], args);
    FlatAppend(kind, [Head(element, index)] + args, [Statement(")", [])]);
    assert ElementAssertion(element, index) == [Head(element, index)] + args + [Statement(")", [])];
  }

  lemma PeakIsNonNegative(kind: Nesting, ps: seq<CodePiece>)
    ensures Peak(kind, ps) >= 0 && Floor(kind, ps) <= 0
  {
  }

  /** Wrapping a well-nested body between ⇥ and ⇤ keeps it well nested. */
  lemma WrapNesting(kind: Nesting, body: seq<CodePiece>)
    requires WellNested(kind, body)
    ensures WellNested(kind, [Indent] + body + [Unindent])
    ensures Peak(kind, [Indent] + body + [Unindent])
              == Peak(kind, body) + (if kind == IndentMarkers then 1 else 0)
  {
    PeakIsNonNegative(kind, body);
    NestingAppend(kind, [Indent], body);
    NestingAppend(kind, [Indent] + body, [Unindent]);
  }

  /** A flat lead, then `) {`, a well-nested inner part and `}`. */
  lemma BlockNesting(kind: Nesting, lead: seq<CodePiece>, inner: seq<CodePiece>)
    requires Flat(kind, lead) && WellNested(kind, inner)
    ensures WellNested(kind, lead + [Statement(") {", [])] + inner + [Statement("}", [])])
    ensures Peak(kind, lead + [Statement(") {", [])] + inner + [Statement("}", [])])
              == Peak(kind, inner) + (if kind == Braces then 1 else 0)
  {
    var open := [Statement(") {", [])];
    var close := [Statement("}", [])];
    assert BraceBalance(") {") == 1;
    assert BraceBalance("}") == -1;
    FlatNesting(kind, lead);
    PeakIsNonNegative(kind, inner);
    NestingAppend(kind, lead, open);
    NestingAppend(kind, lead + open, inner);
    NestingAppend(kind, lead + open + inner, close);
  }

  /** Two well-nested runs in a row are well nested; the higher peak wins. */
  lemma SequenceNesting(kind: Nesting, a: seq<CodePiece>, b: seq<CodePiece>)
    requires WellNested(kind, a) && WellNested(kind, b)
    ensures WellNested(kind, a + b)
    ensures Peak(kind, a + b) == Max(Peak(kind, a), Peak(kind, b))
  {
    NestingAppend(kind, a, b);
  }

  lemma RangeStep(elements: seq<RichElement>, lo: nat, hi: nat)
    requires lo < hi <= |elements|
    ensures ElementRange(elements, lo, hi)
              == ElementRange(elements, lo, hi - 1) + ElementAssertion(elements[hi - 1], hi - 1)
  {
  }

  lemma WrappedStatementNesting(kind: Nesting, format: string)
    requires NoBraceChars(format)
    ensures WellNested(kind, [Indent, Statement(format, []), Unindent])
    ensures Peak(kind, [Indent, Statement(format, []), Unindent]) == if kind == IndentMarkers then 1 else 0
  {
    var statement := [Statement(format, [])];
    PieceIsFlat(kind, statement[0]);
    FlatNesting(kind, statement);
    WrapNesting(kind, statement);
    assert [Indent, Statement(format, []), Unindent] == [Indent] + statement + [Unindent];
  }

  lemma EmptyCheckHasNoBraces()
    ensures NoBraceChars(EMPTY_CHECK)
  {
  }

  /**
   * Every call of generateAssertions leaves both kinds of nesting balanced; the
   * deepest brace level inside it is the quote depth of its list, and the deepest
   * indent level is one more (its own ⇥).
   */
  lemma {:induction false} AssertionsNesting(kind: Nesting, elements: seq<RichElement>)
    ensures WellNested(kind, Assertions(elements))
    ensures Peak(kind, Assertions(elements)) == QuoteDepth(elements) + (if kind == IndentMarkers then 1 else 0)
    decreases elements, 1, 0
  {
    if elements == [] {
      EmptyCheckHasNoBraces();
      WrappedStatementNesting(kind, EMPTY_CHECK);
    } else {
      RangeNesting(kind, elements, 0, |elements|);
      WrapNesting(kind, ElementRange(elements, 0, |elements|));
    }
  }

  lemma {:induction false} RangeNesting(kind: Nesting, elements: seq<RichElement>, lo: nat, hi: nat)
    requires lo <= hi <= |elements|
    ensures WellNested(kind, ElementRange(elements, lo, hi))
    ensures Peak(kind, ElementRange(elements, lo, hi)) == RangeQuoteDepth(elements, lo, hi)
    decreases elements, 0, hi - lo, 1
  {
    if lo < hi {
      RangeNestingStep(kind, elements, lo, hi);
    } else {
      EmptyRangeNesting(kind, elements, lo);
    }
  }

  lemma EmptyRangeNesting(kind: Nesting, elements: seq<RichElement>, lo: nat)
    requires lo <= |elements|
    ensures WellNested(kind, ElementRange(elements, lo, lo))
    ensures Peak(kind, ElementRange(elements, lo, lo)) == RangeQuoteDepth(elements, lo, lo)
  {
    assert ElementRange(elements, lo, lo) == [];
  }

  /** The range grows by its last element's assertion. */
  lemma {:induction false} RangeNestingStep(kind: Nesting, elements: seq<RichElement>, lo: nat, hi: nat)
    requires lo < hi <= |elements|
    ensures WellNested(kind, ElementRange(elements, lo, hi))
    ensures Peak(kind, ElementRange(elements, lo, hi)) == RangeQuoteDepth(elements, lo, hi)
    decreases elements, 0, hi - lo, 0
  {
    var last := elements[hi - 1];
    RangeNesting(kind, elements, lo, hi - 1);
    ElementNesting(kind, last, hi - 1);
    RangeStep(elements, lo, hi);
    NestingStep(kind, ElementRange(elements, lo, hi), ElementRange(elements, lo, hi - 1),
                ElementAssertion(last, hi - 1),
                RangeQuoteDepth(elements, lo, hi - 1), ElementQuoteDepth(last));
  }

  lemma NestingStep(kind: Nesting, whole: seq<CodePiece>, init: seq<CodePiece>, last: seq<CodePiece>,
                    initPeak: int, lastPeak: int)
    requires whole == init + last
    requires WellNested(kind, init) && Peak(kind, init) == initPeak
    requires WellNested(kind, last) && Peak(kind, last) == lastPeak
    ensures WellNested(kind, whole) && Peak(kind, whole) == Max(initPeak, lastPeak)
  {
    SequenceNesting(kind, init, last);
  }

  lemma {:induction false} ElementNesting(kind: Nesting, element: RichElement, index: nat)
    ensures WellNested(kind, ElementAssertion(element, index))
    ensures Peak(kind, ElementAssertion(element, index)) == ElementQuoteDepth(element)
    decreases element, 0, 0
  {
    if element.Quote? {
      var lead := [Head(element, index)] + JumpUrlArg(element.jumpUrl);
      HeadIsFlat(kind, element, index);
      JumpUrlArgIsFlat(kind, element.jumpUrl);
      FlatAppend(kind, [Head(element, index)], JumpUrlArg(element.jumpUrl));
      AssertionsNesting(kind, element.contents.elements);
      BlockNesting(kind, lead, Assertions(element.contents.elements));
    } else {
      ArgumentsAreFlat(kind, element, index);
      FlatNesting(kind, ElementAssertion(element, index));
    }
  }

  // ---------------------------------------------------------------------------
  // One assertion per element, in list order
  // ---------------------------------------------------------------------------

  lemma {:induction false} RangeSplit(elements: seq<RichElement>, lo: nat, mid: nat, hi: nat)
    requires lo <= mid <= hi <= |elements|
    ensures ElementRange(elements, lo, hi) == ElementRange(elements, lo, mid) + ElementRange(elements, mid, hi)
    decreases hi - mid
  {
    if mid < hi {
      RangeSplit(elements, lo, mid, hi - 1);
      RangeStep(elements, lo, hi);
      RangeStep(elements, mid, hi);
      Assoc2(ElementRange(elements, lo, mid), ElementRange(elements, mid, hi - 1),
             ElementAssertion(elements[hi - 1], hi - 1));
    } else {
      EmptyRange(elements, mid);
      AppendEmpty(ElementRange(elements, lo, mid));
    }
  }

  lemma EmptyRange(elements: seq<RichElement>, lo: nat)
    requires lo <= |elements|
    ensures ElementRange(elements, lo, lo) == []
  {
  }

  lemma AppendEmpty<T>(a: seq<T>)
    ensures a + [] == a
  {
  }

  /**
   * The output for a non-empty list is ⇥, then for each index i in order the
   * assertion of elements[i] (see ElementShape), then ⇤.
   */
  lemma OneAssertionPerElement(elements: seq<RichElement>, i: nat)
    requires i < |elements|
    ensures Assertions(elements)
              == [Indent] + ElementRange(elements, 0, i) + ElementAssertion(elements[i], i)
                 + ElementRange(elements, i + 1, |elements|) + [Unindent]
  {
    var n := |elements|;
    RangeSplit(elements, 0, i, n);
    RangeSplit(elements, i, i + 1, n);
    RangeSingle(elements, i);
    Regroup([Indent], ElementRange(elements, 0, i), ElementAssertion(elements[i], i),
            ElementRange(elements, i + 1, n), [Unindent]);
  }

  lemma RangeSingle(elements: seq<RichElement>, i: nat)
    requires i < |elements|
    ensures ElementRange(elements, i, i + 1) == ElementAssertion(elements[i], i)
  {
    assert ElementRange(elements, i, i) == [];
  }

  lemma Regroup<T>(a: seq<T>, b: seq<T>, c: seq<T>, d: seq<T>, e: seq<T>)
    ensures a + (b + (c + d)) + e == a + b + c + d + e
  {
  }

  /**
   * The assertion of the element at index i starts with a call of the helper for
   * its kind on elements.at(i), ends with a statement, and is well nested.
   */
  lemma ElementShape(element: RichElement, i: nat)
    ensures ElementAssertion(element, i)[0] == Head(element, i)
    ensures "assert" + KindName(element) + "(" + At(i) <= Head(element, i).format
    ensures ElementAssertion(element, i)[|ElementAssertion(element, i)| - 1].Statement?
    ensures forall kind: Nesting :: WellNested(kind, ElementAssertion(element, i))
  {
    forall kind: Nesting ensures WellNested(kind, ElementAssertion(element, i)) {
      ElementNesting(kind, element, i);
    }
  }

  /** Every call's output opens with ⇥ and closes with ⇤, the empty list included. */
  lemma MarkersFrame(elements: seq<RichElement>)
    ensures |Assertions(elements)| >= 3
    ensures Assertions(elements)[0] == Indent
    ensures Assertions(elements)[|Assertions(elements)| - 1] == Unindent
  {
    if elements != [] {
      RangeStartsWithHead(elements, 0, |elements|);
    }
  }

  /** The empty document gets exactly the size check between the markers. */
  lemma EmptyDocument(elements: seq<RichElement>)
    ensures Assertions(elements) == [Indent, Statement(EMPTY_CHECK, []), Unindent] <==> elements == []
    ensures elements != [] ==> Statement(EMPTY_CHECK, []) != Assertions(elements)[1]
  {
    if elements != [] {
      RangeStartsWithHead(elements, 0, |elements|);
    }
  }

  // ---------------------------------------------------------------------------
  // Which fields are emitted: an independent table of the optional fields
  // ---------------------------------------------------------------------------

  /** An optional argument: its format, and its value when it is not at its default. */
  datatype Field = Field(format: string, value: Option<Arg>)

  function Nullable(format: string, value: Option<string>): Field
  {
    Field(format, if value.Some? then Some(StringLiteral(value.value)) else None)
  }

  function NullableInt(format: string, value: Option<int>): Field
  {
    Field(format, if value.Some? then Some(IntLiteral(value.value)) else None)
  }

  function Flag(format: string, value: bool): Field
  {
    Field(format, if value then Some(BoolLiteral(true)) else None)
  }

  /** The optional fields of each kind of element, in the order they are written. */
  function OptionalFields(element: RichElement): seq<Field>
  {
    match element
    case BangumiSticker(_, jumpUrl) => [Nullable(", jumpUrl=%S", jumpUrl)]
    case Image(_, width, height, jumpUrl) =>
      [NullableInt(", width=%L", width), NullableInt(", height=%L", height), Nullable(", jumpUrl=%S", jumpUrl)]
    case Kanmoji(_, jumpUrl) => [Nullable(", jumpUrl=%S", jumpUrl)]
    case Quote(_, jumpUrl) => [Nullable(", jumpUrl=%S", jumpUrl)]
    case Text(_, jumpUrl, size, color, bold, italic, underline, strikethrough, mask, code) =>
      [ Nullable(", jumpUrl=%S", jumpUrl),
        Field(", size=%L", if size != DEFAULT_SIZE then Some(IntLiteral(size)) else None),
        Nullable(", color=%S", color),
        Flag(", italic=%L", italic),
        Flag(", underline=%L", underline),
        Flag(", strikethrough=%L", strikethrough),
        Flag(", bold=%L", bold),
        Flag(", mask=%L", mask),
        Flag(", code=%L", code) ]
  }

  /** The addCode calls for the fields that are present, in table order. */
  function Emitted(fields: seq<Field>): seq<CodePiece>
  {
    if fields == [] then []
    else (if fields[0].value.Some? then [Code(fields[0].format, [fields[0].value.value])] else [])
         + Emitted(fields[1..])
  }

  /** Whether an addCode with the given format was made. */
  predicate Emits(ps: seq<CodePiece>, format: string)
  {
    exists p :: p in ps && p.Code? && p.format == format
  }

  predicate DistinctFormats(fields: seq<Field>)
  {
    forall j, k :: 0 <= j < k < |fields| ==> fields[j].format != fields[k].format
  }

  lemma {:induction false} EmittedFields(fields: seq<Field>, k: nat)
    requires DistinctFormats(fields) && k < |fields|
    ensures Emits(Emitted(fields), fields[k].format) <==> fields[k].value.Some?
    ensures fields[k].value.Some? ==> Code(fields[k].format, [fields[k].value.value]) in Emitted(fields)
  {
    var first: seq<CodePiece> := if fields[0].value.Some? then [Code(fields[0].format, [fields[0].value.value])] else [];
    assert Emitted(fields) == first + Emitted(fields[1..]);
    if k == 0 {
      NotEmitted(fields[1..], fields[0].format);
    } else {
      assert fields[1..][k - 1] == fields[k];
      EmittedFields(fields[1..], k - 1);
      assert fields[0].format != fields[k].format;
    }
  }

  /** A format that no field of the table has is never emitted. */
  lemma {:induction false} NotEmitted(fields: seq<Field>, format: string)
    requires forall k :: 0 <= k < |fields| ==> fields[k].format != format
    ensures !Emits(Emitted(fields), format)
  {
    if fields != [] {
      NotEmitted(fields[1..], format);
      assert fields[0].format != format;
    }
  }

  lemma {:induction false} EmittedAppend(a: seq<Field>, b: seq<Field>)
    ensures Emitted(a + b) == Emitted(a) + Emitted(b)
  {
    if a != [] {
      assert (a + b)[1..] == a[1..] + b;
      EmittedAppend(a[1..], b);
    } else {
      assert a + b == b;
    }
  }

  lemma EmittedOne(f: Field)
    ensures Emitted([f]) == if f.value.Some? then [Code(f.format, [f.value.value])] else []
  {
    assert [f][1..] == [];
  }

  lemma EmittedThree(a: Field, b: Field, c: Field)
    ensures Emitted([a, b, c]) == Emitted([a]) + Emitted([b]) + Emitted([c])
  {
    assert [a, b] == [a] + [b];
    assert [a, b, c] == [a, b] + [c];
    EmittedAppend([a], [b]);
    EmittedAppend([a, b], [c]);
  }

  lemma FlagArgIsEmitted(format: string, flag: bool)
    ensures FlagArg(format, flag) == Emitted([Flag(format, flag)])
  {
    EmittedOne(Flag(format, flag));
  }

  lemma FlagArgsLayout(text: RichElement)
    requires text.Text?
    ensures FlagArgs(text) == Emitted(OptionalFields(text)[3..])
  {
    var fields := OptionalFields(text)[3..];
    assert fields == [fields[0], fields[1], fields[2]] + [fields[3], fields[4], fields[5]];
    EmittedAppend([fields[0], fields[1], fields[2]], [fields[3], fields[4], fields[5]]);
    EmittedThree(fields[0], fields[1], fields[2]);
    EmittedThree(fields[3], fields[4], fields[5]);
    FlagArgIsEmitted(", italic=%L", text.italic);
    FlagArgIsEmitted(", underline=%L", text.underline);
    FlagArgIsEmitted(", strikethrough=%L", text.strikethrough);
    FlagArgIsEmitted(", bold=%L", text.bold);
    FlagArgIsEmitted(", mask=%L", text.mask);
    FlagArgIsEmitted(", code=%L", text.code);
    Assoc3(FlagArg(", italic=%L", text.italic) + FlagArg(", underline=%L", text.underline)
             + FlagArg(", strikethrough=%L", text.strikethrough),
           FlagArg(", bold=%L", text.bold), FlagArg(", mask=%L", text.mask), FlagArg(", code=%L", text.code));
  }

  lemma TextArgsLayout(text: RichElement)
    requires text.Text?
    ensures TextArgs(text) == Emitted(OptionalFields(text))
  {
    var fields := OptionalFields(text);
    assert fields == [fields[0]] + [fields[1]] + [fields[2]] + fields[3..];
    EmittedOne(fields[0]);
    EmittedOne(fields[1]);
    EmittedOne(fields[2]);
    FlagArgsLayout(text);
    EmittedAppend([fields[0]], [fields[1]]);
    EmittedAppend([fields[0]] + [fields[1]], [fields[2]]);
    EmittedAppend([fields[0]] + [fields[1]] + [fields[2]], fields[3..]);
  }

  lemma ImageArgsLayout(image: RichElement)
    requires image.Image?
    ensures DimensionArg(", width=%L", image.width) + DimensionArg(", height=%L", image.height) + JumpUrlArg(image.jumpUrl)
            == Emitted(OptionalFields(image))
  {
    var fields := OptionalFields(image);
    assert fields == [fields[0]] + [fields[1]] + [fields[2]];
    EmittedOne(fields[0]);
    EmittedOne(fields[1]);
    EmittedOne(fields[2]);
    EmittedAppend([fields[0]], [fields[1]]);
    EmittedAppend([fields[0]] + [fields[1]], [fields[2]]);
  }

  /**
   * Every assertion is its head, then exactly the present optional fields in
   * the fixed order of OptionalFields, then `)`; a quote instead ends with
   * `) {`, the nested assertions of its contents and `}`.
   */
  lemma ElementLayout(element: RichElement, i: nat)
    ensures !element.Quote? ==>
      ElementAssertion(element, i) == [Head(element, i)] + Emitted(OptionalFields(element)) + [Statement(")", [])]
    ensures element.Quote? ==>
      ElementAssertion(element, i)
        == [Head(element, i)] + Emitted(OptionalFields(element)) + [Statement(") {", [])]
           + Assertions(element.contents.elements) + [Statement("}", [])]
  {
    match element
    case Text(_, _, _, _, _, _, _, _, _, _) =>
      TextArgsLayout(element);
    case Image(_, width, height, jumpUrl) =>
      ImageLayout(element, i);
    case Quote(_, jumpUrl) =>
      EmittedOne(Nullable(", jumpUrl=%S", jumpUrl));
    case BangumiSticker(_, jumpUrl) =>
      EmittedOne(Nullable(", jumpUrl=%S", jumpUrl));
    case Kanmoji(_, jumpUrl) =>
      EmittedOne(Nullable(", jumpUrl=%S", jumpUrl));
  }

  lemma ImageLayout(image: RichElement, i: nat)
    requires image.Image?
    ensures ElementAssertion(image, i) == [Head(image, i)] + Emitted(OptionalFields(image)) + [Statement(")", [])]
  {
    var width := DimensionArg(", width=%L", image.width);
    var height := DimensionArg(", height=%L", image.height);
    var jumpUrl := JumpUrlArg(image.jumpUrl);
    ImageArgsLayout(image);
    Assoc3([Head(image, i)], width, height, jumpUrl);
  }

  lemma TextFormatsDistinct(text: RichElement)
    requires text.Text?
    ensures DistinctFormats(OptionalFields(text))
  {
  }

  /**
   * An optional field is written exactly when it is not at its default: a
   * nullable one when non-null (an explicit 0 included), the size when it
   * differs from DEFAULT_SIZE, a flag when true; and it is written with its value.
   */
  lemma FieldPresence(element: RichElement, k: nat)
    requires k < |OptionalFields(element)|
    ensures (Emits(Emitted(OptionalFields(element)), OptionalFields(element)[k].format)
             <==> OptionalFields(element)[k].value.Some?)
    ensures OptionalFields(element)[k].value.Some? ==>
      Code(OptionalFields(element)[k].format, [OptionalFields(element)[k].value.value])
        in Emitted(OptionalFields(element))
  {
    if element.Text? {
      TextFormatsDistinct(element);
    }
    EmittedFields(OptionalFields(element), k);
  }

  // ---------------------------------------------------------------------------
  // The function builder and generateAssertions
  // ---------------------------------------------------------------------------

  /** A built test function: its name, its annotations and its recorded code. */
  datatype FunSpec = FunSpec(name: string, annotations: seq<string>, code: seq<CodePiece>)

  /** KotlinPoet's FunSpec.Builder, reduced to what the generator calls on it. */
  class FunSpecBuilder {
    const name: string
    var annotations: seq<string>
    var code: seq<CodePiece>

    constructor(name: string)
      ensures this.name == name && annotations == [] && code == []
    {
      this.name := name;
      annotations := [];
      code := [];
    }

    method AddAnnotation(annotation: string)
      modifies this
      ensures annotations == old(annotations) + [annotation] && code == old(code)
    {
      annotations := annotations + [annotation];
    }

    method AddCode(format: string, args: seq<Arg>)
      modifies this
      ensures code == old(code) + [Code(format, args)] && annotations == old(annotations)
    {
      code := code + [Code(format, args)];
    }

    method AddStatement(format: string, args: seq<Arg>)
      modifies this
      ensures code == old(code) + [Statement(format, args)] && annotations == old(annotations)
    {
      code := code + [Statement(format, args)];
    }

    /** addCode("⇥"). */
    method AddIndentMarker()
      modifies this
      ensures code == old(code) + [Indent] && annotations == old(annotations)
    {
      code := code + [Indent];
    }

    /** addCode("⇤"). */
    method AddUnindentMarker()
      modifies this
      ensures code == old(code) + [Unindent] && annotations == old(annotations)
    {
      code := code + [Unindent];
    }

    method Build() returns (f: FunSpec)
      ensures f == FunSpec(name, annotations, code)
    {
      f := FunSpec(name, annotations, code);
    }

    /**
     * Records the assertions for a list of elements: ⇥, then the size check
     * for an empty list or one assertion per element in order, then ⇤ (written
     * on every path, as the `finally` block does).
     */
    method GenerateAssertions(elements: seq<RichElement>)
      modifies this
      ensures code == old(code) + Assertions(elements) && annotations == old(annotations)
      decreases elements, 1
    {
      AddIndentMarker();
      ghost var afterIndent := code;
      if |elements| == 0 {
        AddStatement(EMPTY_CHECK, []);
        AddUnindentMarker();
        Assoc3(old(code), [Indent], [Statement(EMPTY_CHECK, [])], [Unindent]);
        return;
      }
      var index := 0;
      while index < |elements|
        invariant 0 <= index <= |elements|
        invariant code == afterIndent + ElementRange(elements, 0, index)
        invariant annotations == old(annotations)
      {
        AddElementAssertion(elements[index], index);
        Assoc2(afterIndent, ElementRange(elements, 0, index), ElementAssertion(elements[index], index));
        index := index + 1;
      }
      AddUnindentMarker();
      Assoc3(old(code), [Indent], ElementRange(elements, 0, |elements|), [Unindent]);
    }

    /** The body of the forEachIndexed loop for one element. */
    method AddElementAssertion(element: RichElement, index: nat)
      modifies this
      ensures code == old(code) + ElementAssertion(element, index) && annotations == old(annotations)
      decreases element, 0
    {
      ghost var c0 := code;
      HeadLiteral(element, index);
      match element
      case BangumiSticker(id, jumpUrl) =>
        AddCode("assertBangumiSticker(" + At(index) + ", id=%L", [IntLiteral(id)]);
        ghost var c1 := code;
        AddJumpUrl(jumpUrl);
        ghost var c2 := code;
        AddStatement(")", []);
        Assoc3(c0, [Head(element, index)], JumpUrlArg(jumpUrl), [Statement(")", [])]);
      case Image(imageUrl, width, height, jumpUrl) =>
        AddCode("assertImage(" + At(index) + ", imageUrl=%S", [StringLiteral(imageUrl)]);
        ghost var c1 := code;
        AddDimension(", width=%L", width);
        ghost var c2 := code;
        AddDimension(", height=%L", height);
        ghost var c3 := code;
        AddJumpUrl(jumpUrl);
        ghost var c4 := code;
        AddStatement(")", []);
        Assoc5(c0, [Head(element, index)], DimensionArg(", width=%L", width), DimensionArg(", height=%L", height),
               JumpUrlArg(jumpUrl), [Statement(")", [])]);
      case Kanmoji(id, jumpUrl) =>
        AddCode("assertKanmoji(" + At(index) + ", id=%S", [StringLiteral(id)]);
        ghost var c1 := code;
        AddJumpUrl(jumpUrl);
        ghost var c2 := code;
        AddStatement(")", []);
        Assoc3(c0, [Head(element, index)], JumpUrlArg(jumpUrl), [Statement(")", [])]);
      case Quote(contents, jumpUrl) =>
        AddCode("assertQuote(" + At(index), []);
        ghost var c1 := code;
        AddJumpUrl(jumpUrl);
        ghost var c2 := code;
        AddStatement(") {", []);
        ghost var c3 := code;
        GenerateAssertions(contents.elements);
        ghost var c4 := code;
        AddStatement("}", []);
        Assoc5(c0, [Head(element, index)], JumpUrlArg(jumpUrl), [Statement(") {", [])],
               Assertions(contents.elements), [Statement("}", [])]);
      case Text(value, _, _, _, _, _, _, _, _, _) =>
        AddCode("assertText(" + At(index) + ", value=%S", [StringLiteral(value)]);
        ghost var c1 := code;
        AddTextArguments(element);
        ghost var c2 := code;
        AddStatement(")", []);
        Assoc3(c0, [Head(element, index)], TextArgs(element), [Statement(")", [])]);
    }

    /** `jumpUrl?.let { addCode(", jumpUrl=%S", it) }`. */
    method AddJumpUrl(jumpUrl: Option<string>)
      modifies this
      ensures code == old(code) + JumpUrlArg(jumpUrl) && annotations == old(annotations)
    {
      if jumpUrl.Some? {
        AddCode(", jumpUrl=%S", [StringLiteral(jumpUrl.value)]);
      }
    }

    /** `dimension?.let { addCode(format, it) }`, for an image's width or height. */
    method AddDimension(format: string, dimension: Option<int>)
      modifies this
      ensures code == old(code) + DimensionArg(format, dimension) && annotations == old(annotations)
    {
      if dimension.Some? {
        AddCode(format, [IntLiteral(dimension.value)]);
      }
    }

    /** `if (flag) addCode(format, true)`, for one style flag of a text element. */
    method AddFlag(format: string, flag: bool)
      modifies this
      ensures code == old(code) + FlagArg(format, flag) && annotations == old(annotations)
    {
      if flag {
        AddCode(format, [BoolLiteral(true)]);
      }
    }

    /** The optional arguments of a text element, each written only when not at its default. */
    method AddTextArguments(text: RichElement)
      requires text.Text?
      modifies this
      ensures code == old(code) + TextArgs(text) && annotations == old(annotations)
    {
      ghost var c0 := code;
      AddJumpUrl(text.jumpUrl);
      ghost var c1 := code;
      if text.size != DEFAULT_SIZE {
        AddCode(", size=%L", [IntLiteral(text.size)]);
      }
      ghost var sizeArg := if text.size != DEFAULT_SIZE then [Code(", size=%L", [IntLiteral(text.size)])] else [];
      assert code == c1 + sizeArg;
      ghost var c2 := code;
      if text.color.Some? {
        AddCode(", color=%S", [StringLiteral(text.color.value)]);
      }
      ghost var colorArg := if text.color.Some? then [Code(", color=%S", [StringLiteral(text.color.value)])] else [];
      assert code == c2 + colorArg;
      ghost var c3 := code;
      AddTextFlags(text);
      Assoc4(c0, JumpUrlArg(text.jumpUrl), sizeArg, colorArg, FlagArgs(text));
    }

    /** The six style flags, in the generator's order. */
    method AddTextFlags(text: RichElement)
      requires text.Text?
      modifies this
      ensures code == old(code) + FlagArgs(text) && annotations == old(annotations)
    {
      ghost var c0 := code;
      AddFlag(", italic=%L", text.italic);
      ghost var c1 := code;
      AddFlag(", underline=%L", text.underline);
      ghost var c2 := code;
      AddFlag(", strikethrough=%L", text.strikethrough);
      ghost var c3 := code;
      AddFlag(", bold=%L", text.bold);
      ghost var c4 := code;
      AddFlag(", mask=%L", text.mask);
      ghost var c5 := code;
      AddFlag(", code=%L", text.code);
      Assoc6(c0, FlagArg(", italic=%L", text.italic), FlagArg(", underline=%L", text.underline),
             FlagArg(", strikethrough=%L", text.strikethrough), FlagArg(", bold=%L", text.bold),
             FlagArg(", mask=%L", text.mask), FlagArg(", code=%L", text.code));
    }
  }

  // Regrouping of appends, one lemma per number of parts.

  lemma Assoc2<T>(c: seq<T>, a1: seq<T>, a2: seq<T>)
    ensures c + a1 + a2 == c + (a1 + a2)
  {
  }

  lemma Assoc3<T>(c: seq<T>, a1: seq<T>, a2: seq<T>, a3: seq<T>)
    ensures c + a1 + a2 + a3 == c + (a1 + a2 + a3)
  {
  }

  lemma Assoc4<T>(c: seq<T>, a1: seq<T>, a2: seq<T>, a3: seq<T>, a4: seq<T>)
    ensures c + a1 + a2 + a3 + a4 == c + (a1 + a2 + a3 + a4)
  {
  }

  lemma Assoc5<T>(c: seq<T>, a1: seq<T>, a2: seq<T>, a3: seq<T>, a4: seq<T>,
               a5: seq<T>)
    ensures c + a1 + a2 + a3 + a4 + a5 == c + (a1 + a2 + a3 + a4 + a5)
  {
  }

  lemma Assoc6<T>(c: seq<T>, a1: seq<T>, a2: seq<T>, a3: seq<T>, a4: seq<T>,
               a5: seq<T>, a6: seq<T>)
    ensures c + a1 + a2 + a3 + a4 + a5 + a6 == c + (a1 + a2 + a3 + a4 + a5 + a6)
  {
  }

  /** The head of each kind, written as the generator's literal format. */
  lemma HeadLiteral(element: RichElement, index: nat)
    ensures element.BangumiSticker? ==>
      Head(element, index) == Code("assertBangumiSticker(" + At(index) + ", id=%L", [IntLiteral(element.stickerId)])
    ensures element.Image? ==>
      Head(element, index) == Code("assertImage(" + At(index) + ", imageUrl=%S", [StringLiteral(element.imageUrl)])
    ensures element.Kanmoji? ==>
      Head(element, index) == Code("assertKanmoji(" + At(index) + ", id=%S", [StringLiteral(element.kanmojiId)])
    ensures element.Quote? ==> Head(element, index) == Code("assertQuote(" + At(index), [])
    ensures element.Text? ==>
      Head(element, index) == Code("assertText(" + At(index) + ", value=%S", [StringLiteral(element.value)])
  {
    match element
    case BangumiSticker(_, _) =>
      assert "assert" + KindName(element) + "(" == "assertBangumiSticker(";
    case Image(_, _, _, _) =>
      assert "assert" + KindName(element) + "(" == "assertImage(";
    case Kanmoji(_, _) =>
      assert "assert" + KindName(element) + "(" == "assertKanmoji(";
    case Quote(_, _) =>
      assert "assert" + KindName(element) + "(" == "assertQuote(";
    case Text(_, _, _, _, _, _, _, _, _, _) =>
      assert "assert" + KindName(element) + "(" == "assertText(";
  }

  // ---------------------------------------------------------------------------
  // Test names: "parse" and the absolute value of the input's hash code
  // ---------------------------------------------------------------------------

  const INT_MIN: int := -0x8000_0000

  predicate IsInt32(x: int) { INT_MIN <= x < 0x8000_0000 }

  /** Two's-complement wrap-around of a mathematical integer to 32 bits. */
  function Wrap32(x: int): (r: int)
    ensures IsInt32(r)
    ensures (r - x) % 0x1_0000_0000 == 0
    ensures IsInt32(x) ==> r == x
  {
    (x + 0x8000_0000) % 0x1_0000_0000 - 0x8000_0000
  }

  /** The UTF-16 code units of a string: one per BMP character, a surrogate pair otherwise. */
  function Utf16(s: string): (units: seq<int>)
    ensures |units| >= |s|
    ensures forall k :: 0 <= k < |units| ==> 0 <= units[k] < 0x1_0000
  {
    if s == [] then []
    else
      var c := s[|s| - 1] as int;
      Utf16(s[..|s| - 1])
      + (if c < 0x1_0000 then [c]
         else [0xD800 + (c - 0x1_0000) / 0x400, 0xDC00 + (c - 0x1_0000) % 0x400])
  }

  /** Kotlin's String.hashCode over code units: h = 31 * h + unit, in 32-bit arithmetic. */
  function UnitsHash(units: seq<int>): (h: int)
    ensures IsInt32(h)
  {
    if units == [] then 0 else Wrap32(31 * UnitsHash(units[..|units| - 1]) + units[|units| - 1])
  }

  function HashCode(s: string): (h: int)
    ensures IsInt32(h)
  {
    UnitsHash(Utf16(s))
  }

  /** Int.absoluteValue: the negation wraps, so INT_MIN is its own absolute value. */
  function AbsoluteValue(x: int): (r: int)
    requires IsInt32(x)
    ensures x != INT_MIN ==> r >= 0 && (r == x || r == -x)
    ensures x == INT_MIN ==> r == INT_MIN
  {
    Wrap32(if x < 0 then -x else x)
  }

  /** The name of the test function generated for an input. */
  function TestName(input: string): string
  {
    "parse" + IntToDec(AbsoluteValue(HashCode(input)))
  }

  /**
   * A test name is "parse" followed by the decimal digits of the absolute hash;
   * the one exception is the hash INT_MIN, whose absolute value stays negative
   * and puts a minus sign into the name.
   */
  lemma TestNameShape(input: string)
    ensures HashCode(input) != INT_MIN ==>
      exists digits :: TestName(input) == "parse" + digits && IsDigits(digits)
    ensures HashCode(input) == INT_MIN ==> TestName(input) == "parse-" + Dec(0x8000_0000)
  {
    var h := HashCode(input);
    if h != INT_MIN {
      var digits := Dec(AbsoluteValue(h));
      DecDigits(AbsoluteValue(h));
      assert TestName(input) == "parse" + digits;
    } else {
      assert "parse" + ("-" + Dec(0x8000_0000)) == "parse-" + Dec(0x8000_0000);
    }
  }

  /** The text of a negative number starts with a minus sign, that of a natural number with a digit. */
  lemma SignedDiffers(negated: nat, n: nat)
    ensures "-" + Dec(negated) != Dec(n)
  {
    DecDigits(n);
    assert ("-" + Dec(negated))[0] == '-';
  }

  /** Int.toString is one-to-one: a minus sign never starts the digits of a non-negative number. */
  lemma IntToDecInjective(a: int, b: int)
    ensures IntToDec(a) == IntToDec(b) <==> a == b
  {
    if IntToDec(a) == IntToDec(b) {
      if a < 0 && b < 0 {
        assert IntToDec(a)[1..] == Dec(-a);
        assert IntToDec(b)[1..] == Dec(-b);
        DecInjective(-a, -b);
      } else if a < 0 {
        SignedDiffers(-a, b);
      } else if b < 0 {
        SignedDiffers(-b, a);
      } else {
        DecInjective(a, b);
      }
    }
  }

  /**
   * Two inputs share a test name exactly when their hashes have the same
   * absolute value; TestNamesCollide shows that this does happen.
   */
  lemma TestNamesEqual(a: string, b: string)
    ensures TestName(a) == TestName(b) <==> AbsoluteValue(HashCode(a)) == AbsoluteValue(HashCode(b))
  {
    var x, y := AbsoluteValue(HashCode(a)), AbsoluteValue(HashCode(b));
    if TestName(a) == TestName(b) {
      assert TestName(a)[5..] == IntToDec(x);
      assert TestName(b)[5..] == IntToDec(y);
      IntToDecInjective(x, y);
    }
  }

  predicate IsDigits(s: string)
  {
    |s| >= 1 && forall k :: 0 <= k < |s| ==> '0' <= s[k] <= '9'
  }

  /** A string of characters from the Basic Multilingual Plane has one code unit per character. */
  lemma {:induction false} Utf16Bmp(s: string)
    requires forall k :: 0 <= k < |s| ==> s[k] as int < 0x1_0000
    ensures |Utf16(s)| == |s|
    ensures forall k :: 0 <= k < |s| ==> Utf16(s)[k] == s[k] as int
  {
    if s != [] {
      Utf16Bmp(s[..|s| - 1]);
    }
  }

  /** One step of the hash loop, from the hash of units[..n] to that of units[..n + 1]. */
  lemma HashStep(units: seq<int>, n: nat, before: int, after: int)
    requires n < |units| && UnitsHash(units[..n]) == before
    requires after == Wrap32(31 * before + units[n])
    ensures UnitsHash(units[..n + 1]) == after
  {
    assert units[..n + 1][..n] == units[..n];
  }

  /** An input whose hash code is INT_MIN. */
  lemma MinimalHashCode()
    ensures HashCode("GydZG_") == INT_MIN
  {
    MinimalUnits();
    MinimalUnitsHash();
  }

  lemma MinimalUnits()
    ensures Utf16("GydZG_") == [71, 121, 100, 90, 71, 95]
  {
    Utf16Bmp("GydZG_");
  }

  lemma MinimalUnitsHash()
    ensures UnitsHash([71, 121, 100, 90, 71, 95]) == INT_MIN
  {
    var u := [71, 121, 100, 90, 71, 95];
    HashStep(u, 0, 0, 71);
    HashStep(u, 1, 71, 2322);
    HashStep(u, 2, 2322, 72082);
    HashStep(u, 3, 72082, 2234632);
    HashStep(u, 4, 2234632, 69273663);
    HashStep(u, 5, 69273663, INT_MIN);
    assert u[..6] == u;
  }

  /** ... and so its test name carries a minus sign. */
  lemma NegativeTestName()
    ensures TestName("GydZG_") == "parse-" + Dec(0x8000_0000)
  {
    MinimalHashCode();
    TestNameShape("GydZG_");
  }

  lemma HashCodeOfAa()
    ensures HashCode("Aa") == 2112
  {
    UnitsOfAa();
    UnitsHashOfAa();
  }

  lemma UnitsOfAa()
    ensures Utf16("Aa") == [65, 97]
  {
    Utf16Bmp("Aa");
  }

  lemma UnitsHashOfAa()
    ensures UnitsHash([65, 97]) == 2112
  {
    var a := [65, 97];
    HashStep(a, 0, 0, 65);
    HashStep(a, 1, 65, 2112);
    assert a[..2] == a;
  }

  lemma HashCodeOfBB()
    ensures HashCode("BB") == 2112
  {
    UnitsOfBB();
    UnitsHashOfBB();
  }

  lemma UnitsOfBB()
    ensures Utf16("BB") == [66, 66]
  {
    Utf16Bmp("BB");
  }

  lemma UnitsHashOfBB()
    ensures UnitsHash([66, 66]) == 2112
  {
    var b := [66, 66];
    HashStep(b, 0, 0, 66);
    HashStep(b, 1, 66, 2112);
    assert b[..2] == b;
  }

  /** Different inputs can share a hash code and so a test name. */
  lemma TestNamesCollide()
    ensures "Aa" != "BB" && TestName("Aa") == TestName("BB")
  {
    HashCodeOfAa();
    HashCodeOfBB();
  }

  // ---------------------------------------------------------------------------
  // The context tags: each base tag followed by its upper-case form
  // ---------------------------------------------------------------------------

  const BASE_TAGS: seq<string> :=
    ["b", "i", "u", "s", "url", "img", "quote", "code", "mask", "img=300,200", "img=300", "img=,200"]

  /** Upper case of one character; only ASCII letters change. */
  function UpperChar(c: char): char
  {
    if 'a' <= c <= 'z' then (c as int - 32) as char else c
  }

  function Uppercase(s: string): (r: string)
    ensures |r| == |s|
    ensures forall k :: 0 <= k < |s| ==> r[k] == UpperChar(s[k])
  {
    seq(|s|, k requires 0 <= k < |s| => UpperChar(s[k]))
  }

  /** `flatMap { listOf(it, it.uppercase()) }`. */
  function WithUppercase(tags: seq<string>): (r: seq<string>)
    ensures |r| == 2 * |tags|
    ensures forall i :: 0 <= i < |tags| ==> r[2 * i] == tags[i] && r[2 * i + 1] == Uppercase(tags[i])
  {
    if tags == [] then []
    else
      var rest := WithUppercase(tags[1..]);
      assert forall i :: 1 <= i < |tags| ==> rest[2 * (i - 1)] == tags[i];
      [tags[0], Uppercase(tags[0])] + rest
  }

  const CONTEXT_TAGS: seq<string> := WithUppercase(BASE_TAGS)

  lemma ContextTags()
    ensures |CONTEXT_TAGS| == 24
    ensures CONTEXT_TAGS[0] == "b" && CONTEXT_TAGS[1] == "B"
    ensures CONTEXT_TAGS[22] == "img=,200" && CONTEXT_TAGS[23] == "IMG=,200"
  {
    assert Uppercase("b") == "B";
    assert Uppercase("img=,200") == "IMG=,200";
  }

  // ---------------------------------------------------------------------------
  // The generator class: one test function per case
  // ---------------------------------------------------------------------------

  const TEST_ANNOTATION := "kotlin.test.Test"
  const RUN_OPEN := "BBCode.parse(%S)\n.run {\n"

  /** The test function generated for an input that parses to `parsed`. */
  function TestFunction(input: string, parsed: RichText): FunSpec
  {
    FunSpec(TestName(input), [TEST_ANNOTATION], TestBody(input, parsed))
  }

  /** Its code: the parse call opening a `run` block, the assertions, and `}`. */
  function TestBody(input: string, parsed: RichText): seq<CodePiece>
  {
    [Code(RUN_OPEN, [StringLiteral(input)])] + Assertions(parsed.elements) + [Statement("}", [])]
  }

  /** The test functions for a run of inputs, in order. */
  function TestFunctions(parse: string -> RichText, inputs: seq<string>): (r: seq<FunSpec>)
    ensures |r| == |inputs|
  {
    if inputs == [] then []
    else
      var last := inputs[|inputs| - 1];
      TestFunctions(parse, inputs[..|inputs| - 1]) + [TestFunction(last, parse(last))]
  }

  lemma TestFunctionsStep(parse: string -> RichText, inputs: seq<string>, i: nat)
    requires i < |inputs|
    ensures TestFunctions(parse, inputs[..i + 1])
              == TestFunctions(parse, inputs[..i]) + [TestFunction(inputs[i], parse(inputs[i]))]
  {
    assert inputs[..i + 1][..i] == inputs[..i];
  }

  /** The i-th test function is that of the i-th input. */
  lemma {:induction false} TestFunctionsInOrder(parse: string -> RichText, inputs: seq<string>, i: nat)
    requires i < |inputs|
    ensures TestFunctions(parse, inputs)[i] == TestFunction(inputs[i], parse(inputs[i]))
  {
    if i < |inputs| - 1 {
      TestFunctionsInOrder(parse, inputs[..|inputs| - 1], i);
    }
  }

  lemma RunOpenBalance()
    ensures BraceBalance(RUN_OPEN) == 1
  {
    var call := "BBCode.parse(%S)\n.run ";
    RunOpenSplit();
    CallNoBraces();
    NoBraceCharsBalance(call);
    BraceBalanceAppend(call, "{\n");
    OpenBalance();
  }

  lemma OpenBalance()
    ensures BraceBalance("{\n") == 1
  {
  }

  lemma RunOpenSplit()
    ensures RUN_OPEN == "BBCode.parse(%S)\n.run " + "{\n"
  {
  }

  lemma CallNoBraces()
    ensures NoBraceChars("BBCode.parse(%S)\n.run ")
  {
  }

  /** A piece opening one brace, a well-nested body and a closing `}`. */
  lemma RunBlockNesting(kind: Nesting, open: CodePiece, body: seq<CodePiece>)
    requires open.Code? && BraceBalance(open.format) == 1
    requires WellNested(kind, body) && Peak(kind, body) >= 0
    ensures WellNested(kind, [open] + body + [Statement("}", [])])
    ensures Peak(kind, [open] + body + [Statement("}", [])])
              == Peak(kind, body) + (if kind == Braces then 1 else 0)
  {
    assert BraceBalance("}") == -1;
    NestingAppend(kind, [open], body);
    NestingAppend(kind, [open] + body, [Statement("}", [])]);
  }

  /**
   * The body of every generated test is well nested for both braces and indent
   * markers, and both reach one level more than the parsed document's quote depth.
   */
  lemma TestBodyNesting(kind: Nesting, input: string, parsed: RichText)
    ensures WellNested(kind, TestBody(input, parsed))
    ensures Peak(kind, TestBody(input, parsed)) == QuoteDepth(parsed.elements) + 1
  {
    RunOpenBalance();
    AssertionsNesting(kind, parsed.elements);
    RunBlockNesting(kind, Code(RUN_OPEN, [StringLiteral(input)]), Assertions(parsed.elements));
  }

  /** The generator of one test class; the BBCode parser is a parameter. */
  class BBCodeTestGenerator {
    const className: string
    const parse: string -> RichText
    var functions: seq<FunSpec>

    constructor(name: string, parse: string -> RichText)
      ensures className == "GenBB" + name + "Test" && this.parse == parse && functions == []
    {
      className := "GenBB" + name + "Test";
      this.parse := parse;
      functions := [];
    }

    /** Adds the test function for one input. */
    method Case(input: string)
      modifies this
      ensures functions == old(functions) + [TestFunction(input, parse(input))]
    {
      var parsed := parse(input);
      var builder := new FunSpecBuilder(TestName(input));
      builder.AddAnnotation(TEST_ANNOTATION);
      builder.AddCode(RUN_OPEN, [StringLiteral(input)]);
      builder.GenerateAssertions(parsed.elements);
      builder.AddStatement("}", []);
      var built := builder.Build();
      assert built.annotations == [TEST_ANNOTATION];
      Assoc3([], [Code(RUN_OPEN, [StringLiteral(input)])], Assertions(parsed.elements), [Statement("}", [])]);
      assert built.code == TestBody(input, parsed);
      functions := functions + [built];
    }

    /** Adds one test function per line of the input, in order. */
    method CasesForEachLine(cases: string)
      modifies this
      ensures functions == old(functions) + TestFunctions(parse, Lines(cases))
    {
      CaseEach(Lines(cases));
    }

    /** `forEach { case(it) }`: one test function per input, in order. */
    method CaseEach(inputs: seq<string>)
      modifies this
      ensures functions == old(functions) + TestFunctions(parse, inputs)
    {
      var i := 0;
      while i < |inputs|
        invariant 0 <= i <= |inputs|
        invariant functions == old(functions) + TestFunctions(parse, inputs[..i])
      {
        Case(inputs[i]);
        TestFunctionsStep(parse, inputs, i);
        Assoc2(old(functions), TestFunctions(parse, inputs[..i]), [TestFunction(inputs[i], parse(inputs[i]))]);
        i := i + 1;
      }
      assert inputs[..|inputs|] == inputs;
    }
  }

  // ---------------------------------------------------------------------------
  // Kotlin's String.lines(): split at "\r\n", "\n" and "\r"
  // ---------------------------------------------------------------------------

  predicate IsLineBreak(c: char) { c == '\n' || c == '\r' }

  function Lines(s: string): (r: seq<string>)
    ensures |r| >= 1
    decreases |s|
  {
    if s == [] then [""]
    else if s[0] == '\n' then [""] + Lines(s[1..])
    else if s[0] == '\r' then [""] + Lines(if |s| > 1 && s[1] == '\n' then s[2..] else s[1..])
    else
      var rest := Lines(s[1..]);
      [[s[0]] + rest[0]] + rest[1..]
  }

  predicate NoLineBreak(line: string)
  {
    forall j :: 0 <= j < |line| ==> !IsLineBreak(line[j])
  }

  /** No line contains a line break. */
  lemma {:induction false} LinesHaveNoBreaks(s: string)
    ensures forall k :: 0 <= k < |Lines(s)| ==> NoLineBreak(Lines(s)[k])
    decreases |s|
  {
    if s == [] {
    } else if s[0] == '\n' {
      LinesHaveNoBreaks(s[1..]);
    } else if s[0] == '\r' {
      LinesHaveNoBreaks(if |s| > 1 && s[1] == '\n' then s[2..] else s[1..]);
    } else {
      LinesHaveNoBreaks(s[1..]);
      var rest := Lines(s[1..]);
      assert NoLineBreak(rest[0]);
      assert NoLineBreak([s[0]] + rest[0]);
    }
  }

  /** The lines joined back with "\n" between them. */
  function JoinLines(lines: seq<string>): string
    requires |lines| >= 1
  {
    if |lines| == 1 then lines[0] else lines[0] + "\n" + JoinLines(lines[1..])
  }

  /** Splitting a text without carriage returns into lines loses nothing. */
  lemma {:induction false} LinesJoin(s: string)
    requires forall k :: 0 <= k < |s| ==> s[k] != '\r'
    ensures JoinLines(Lines(s)) == s
    decreases |s|
  {
    if s == [] {
    } else if s[0] == '\n' {
      LinesJoin(s[1..]);
      JoinEmptyLine(Lines(s[1..]));
      assert s == "\n" + s[1..];
    } else {
      assert s[0] != '\r';
      LinesJoin(s[1..]);
      JoinConsLine(s[0], Lines(s[1..]));
      assert s == [s[0]] + s[1..];
    }
  }

  /** An empty first line contributes only its "\n" separator. */
  lemma JoinEmptyLine(rest: seq<string>)
    requires |rest| >= 1
    ensures JoinLines([""] + rest) == "\n" + JoinLines(rest)
  {
    assert ([""] + rest)[1..] == rest;
  }

  /** A character put in front of the first line comes first in the joined text. */
  lemma JoinConsLine(c: char, rest: seq<string>)
    requires |rest| >= 1
    ensures JoinLines([[c] + rest[0]] + rest[1..]) == [c] + JoinLines(rest)
  {
    var first := [c] + rest[0];
    var lines := [first] + rest[1..];
    assert |lines| == |rest| && lines[0] == first;
    if |rest| > 1 {
      var tail := rest[1..];
      assert lines[1..] == tail;
      var joined := JoinLines(tail);
      assert JoinLines(lines) == first + "\n" + joined;
      assert JoinLines(rest) == rest[0] + "\n" + joined;
      Assoc3([c], rest[0], "\n", joined);
    }
  }
}
