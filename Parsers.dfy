// HandlebarsParser (src/FuManchu/Parser/HandlebarsParser.cs) and the parsing
// primitives it inherits from TokenizerBackedParser
// (FuManchu/Parser/TokenizerBackedParser.cs).
//
// The parser reads the symbols through a TokenizerView. Here the view is
// over the fixed stream of symbols the tokenizer emits from the start of the
// template: reading from a symbol boundary where the tokenizer is in its Data
// state gives the stream's next symbol, and HandlebarsParser only ever reads
// again after putting symbols back to a tag opener, which is such a boundary.
module Parsers {
  import opened Wrappers
  import opened SourceLocations
  import opened LineBuffers
  import opened Symbols
  import opened Tags
  import opened SyntaxTrees
  import opened ParserContexts
  import Tokenizers

  // ----- The symbol stream -----

  /** The symbols read from the start of a template, the template's lines,
      and the offset the reader stands at once the tokenizer reports the end
      (past the last symbol, or further when it stopped on an error). */
  datatype Stream = Stream(symbols: seq<Symbol>, lines: seq<TextLine>, stop: int)

  /** The offset the i-th symbol starts at: where the one before it ends. */
  function OffsetAt(syms: seq<Symbol>, i: int): int
    requires 0 <= i <= |syms|
  {
    if i == 0 then 0 else syms[i - 1].End()
  }

  /** The i-th symbol starts where the one before it ends and is not empty. */
  predicate BoundaryAt(syms: seq<Symbol>, i: int)
    requires 0 <= i < |syms|
  {
    syms[i].start.absolute == OffsetAt(syms, i) < syms[i].End()
  }

  ghost predicate Chained(syms: seq<Symbol>) {
    forall i :: 0 <= i < |syms| ==> BoundaryAt(syms, i)
  }

  ghost predicate WellFormed(st: Stream) {
    Contiguous(st.lines) && Chained(st.symbols)
    && OffsetAt(st.symbols, |st.symbols|) <= st.stop <= |Concat(st.lines)|
  }

  /** A stream the parser can read: the tokenizer's output over a template. */
  type ParserStream = st: Stream | WellFormed(st) witness Stream([], [TextLine(0, 0, "")], 0)

  /** Symbol boundaries strictly increase. */
  lemma {:induction false} OffsetsIncrease(syms: seq<Symbol>, i: int, j: int)
    requires Chained(syms) && 0 <= i < j <= |syms|
    ensures OffsetAt(syms, i) < OffsetAt(syms, j)
    decreases j - i
  {
    assert BoundaryAt(syms, j - 1);
    if i < j - 1 {
      OffsetsIncrease(syms, i, j - 1);
    }
  }

  /** A tiling of the text by symbols (what the tokenizer's loop proves of
      its output) chains them from the offset it starts at. */
  lemma {:induction false} TilesChain(lines: seq<TextLine>, syms: seq<Symbol>, p: int, q: int)
    requires Contiguous(lines) && Tokenizers.Tiles(lines, syms, p, q)
    ensures forall i :: 0 <= i < |syms| ==>
              syms[i].start.absolute == (if i == 0 then p else syms[i - 1].End()) < syms[i].End()
    ensures q == (if syms == [] then p else syms[|syms| - 1].End()) && q <= |Concat(lines)|
    decreases |syms|
  {
    if syms != [] {
      TilesChain(lines, syms[1..], syms[0].End(), q);
      assert forall i :: 1 <= i < |syms| ==> syms[i] == syms[1..][i - 1];
    }
  }

  /** The symbols the tokenizer reads from the start of a template, with the
      reader where it stopped, form a well-formed stream. */
  lemma TokenizedStreamIsWellFormed(lines: seq<TextLine>, syms: seq<Symbol>, stop: int)
    requires Contiguous(lines) && Tokenizers.Tiles(lines, syms, 0, stop)
    ensures WellFormed(Stream(syms, lines, stop)) && stop == OffsetAt(syms, |syms|)
  {
    TilesChain(lines, syms, 0, stop);
    forall i | 0 <= i < |syms|
      ensures BoundaryAt(syms, i)
    {
    }
  }

  /** The only symbol that ends at the reader is the one just before it, and
      it starts inside the text. */
  lemma PutBackTarget(st: Stream, k: int, index: int, atEnd: bool)
    requires WellFormed(st) && 0 <= k < |st.symbols| && 0 <= index <= |st.symbols|
    requires atEnd ==> index == |st.symbols|
    requires OffsetAt(st.symbols, k + 1) == if atEnd then st.stop else OffsetAt(st.symbols, index)
    ensures k + 1 == index && st.symbols[k].start.absolute < |Concat(st.lines)|
  {
    var syms := st.symbols;
    assert BoundaryAt(syms, k);
    if k + 1 < index {
      OffsetsIncrease(syms, k + 1, index);
    } else if index < k + 1 {
      OffsetsIncrease(syms, index, k + 1);
      OffsetsIncrease(syms, k + 1, |syms|);
    }
    if k + 1 < |syms| {
      OffsetsIncrease(syms, k + 1, |syms|);
    }
  }

  /** The position after reading one symbol at i (none is left at the end). */
  function NextAt(st: Stream, i: nat): (r: nat)
    requires i <= |st.symbols|
    ensures i <= r <= |st.symbols| && (i < |st.symbols| ==> r > i)
  {
    if i < |st.symbols| then i + 1 else i
  }

  /** The position after an optional symbol of the given type at i. */
  function PastOptional(st: Stream, i: nat, kind: SymbolType): (r: nat)
    requires i <= |st.symbols|
    ensures i <= r <= |st.symbols|
  {
    if i < |st.symbols| && st.symbols[i].kind == kind then i + 1 else i
  }

  /** The end of the run of symbols from c that satisfy cond. */
  function RunEnd(syms: seq<Symbol>, c: nat, cond: Symbol -> bool): (e: nat)
    requires c <= |syms|
    ensures c <= e <= |syms|
    decreases |syms| - c
  {
    if c == |syms| || !cond(syms[c]) then c else RunEnd(syms, c + 1, cond)
  }

  /** The run RunEnd ends is the longest one: every symbol in it satisfies
      cond and the one after it (if any) does not. */
  lemma {:induction false} RunEndIsLongest(syms: seq<Symbol>, c: nat, cond: Symbol -> bool)
    requires c <= |syms|
    ensures forall k :: c <= k < RunEnd(syms, c, cond) ==> cond(syms[k])
    ensures RunEnd(syms, c, cond) < |syms| ==> !cond(syms[RunEnd(syms, c, cond)])
    decreases |syms| - c
  {
    if c < |syms| && cond(syms[c]) {
      RunEndIsLongest(syms, c + 1, cond);
    }
  }

  /** AcceptUntil's condition: none of the given types. */
  function NoneOf(types: seq<SymbolType>): Symbol -> bool {
    (s: Symbol) => s.kind !in types
  }

  /** AcceptWhile's condition: one of the given types. */
  function AnyOf(types: seq<SymbolType>): Symbol -> bool {
    (s: Symbol) => s.kind in types
  }

  /** The location the parser reports at position i: the symbol's start, or,
      past the last symbol, the reader's location. */
  function LocationAt(st: Stream, i: nat): SourceLocation
    requires Contiguous(st.lines) && i <= |st.symbols|
  {
    if i < |st.symbols| then st.symbols[i].start else LocationIn(st.lines, st.stop)
  }

  // ----- What accepting symbols records -----

  /** The errors the symbols of a run carry, in order. */
  function ErrorsOf(run: seq<Symbol>): seq<Error>
    decreases |run|
  {
    if run == [] then [] else ErrorsOf(run[..|run| - 1]) + run[|run| - 1].errors
  }

  /** The builder's start after accepting a run: the first symbol's start when
      the builder was empty. */
  function StartAfter(b: seq<Symbol>, start: SourceLocation, run: seq<Symbol>): SourceLocation {
    if b == [] && run != [] then run[0].start else start
  }

  lemma ErrorsOfSnoc(run: seq<Symbol>, x: Symbol)
    ensures ErrorsOf(run + [x]) == ErrorsOf(run) + x.errors
  {
    assert (run + [x])[..|run|] == run;
  }

  /** The symbol at position i, none past the last. */
  function SymbolAt(st: Stream, i: nat): Option<Symbol> {
    if i < |st.symbols| then Some(st.symbols[i]) else None
  }

  /** How many of the given types the symbols from c match, in order. */
  function MatchedPrefix(syms: seq<Symbol>, c: nat, types: seq<SymbolType>): (n: nat)
    requires c <= |syms|
    ensures n <= |types| && c + n <= |syms|
    decreases |types|
  {
    if types == [] || c == |syms| || syms[c].kind != types[0] then 0
    else 1 + MatchedPrefix(syms, c + 1, types[1..])
  }

  /** A symbol that matches the first type adds one to the match. */
  lemma MatchedPrefixStep(syms: seq<Symbol>, c: nat, types: seq<SymbolType>)
    requires c < |syms| && types != [] && syms[c].kind == types[0]
    ensures MatchedPrefix(syms, c, types) == 1 + MatchedPrefix(syms, c + 1, types[1..])
  {
  }

  /** The first n symbols match the first n types, and the next one (if
      any type is left) is missing or does not match. */
  lemma {:induction false} MatchedPrefixMatches(syms: seq<Symbol>, c: nat, types: seq<SymbolType>)
    requires c <= |syms|
    ensures var n := MatchedPrefix(syms, c, types);
            (forall j :: 0 <= j < n ==> syms[c + j].kind == types[j])
            && (n < |types| ==> c + n == |syms| || syms[c + n].kind != types[n])
    decreases |types|
  {
    if !(types == [] || c == |syms| || syms[c].kind != types[0]) {
      MatchedPrefixMatches(syms, c + 1, types[1..]);
    }
  }

  /** The content of the current block's last child when it is a span
      (LastSpanContent); Peek on an empty stack throws. */
  function LastSpanContentOf(s: ContextState): Result<Option<string>> {
    if s.stack == [] then Err(InvalidOperation("Stack empty."))
    else
      var ch := Top(s.stack).children;
      if ch != [] && ch[|ch| - 1].SpanNode? then Ok(Some(ch[|ch| - 1].span.Content())) else Ok(None)
  }

  /** HandlebarsSymbolType.ToString, for Required's message. */
  function SymbolTypeName(t: SymbolType): string {
    match t
    case Unknown => "Unknown"
    case Identifier => "Identifier"
    case Keyword => "Keyword"
    case IntegerLiteral => "IntegerLiteral"
    case NewLine => "NewLine"
    case WhiteSpace => "WhiteSpace"
    case RealLiteral => "RealLiteral"
    case StringLiteral => "StringLiteral"
    case Comment => "Comment"
    case Assign => "Assign"
    case Bang => "Bang"
    case Dot => "Dot"
    case Slash => "Slash"
    case Escape => "Escape"
    case RightBracket => "RightBracket"
    case LeftBracket => "LeftBracket"
    case RightBrace => "RightBrace"
    case LeftBrace => "LeftBrace"
    case Tilde => "Tilde"
    case Hash => "Hash"
    case RightArrow => "RightArrow"
    case Negate => "Negate"
    case Ampersand => "Ampersand"
    case Dash => "Dash"
    case At => "At"
    case OpenTag => "OpenTag"
    case RawOpenTag => "RawOpenTag"
    case CloseTag => "CloseTag"
    case RawCloseTag => "RawCloseTag"
    case CurrentContext => "CurrentContext"
    case ParentContext => "ParentContext"
    case Text => "Text"
    case OpenParenthesis => "OpenParenthesis"
    case CloseParenthesis => "CloseParenthesis"
  }

  /** The builder after accepting a run. */
  function AcceptedAll(b: BuilderState, run: seq<Symbol>): BuilderState {
    b.(accepted := b.accepted + run, start := StartAfter(b.accepted, b.start, run))
  }

  /** The context after the errors of a run are reported. */
  function Reported(cs: ContextState, run: seq<Symbol>): ContextState {
    cs.(errors := cs.errors + ErrorsOf(run))
  }

  /** A slice of a stream is the slices it is cut into, in order. */
  lemma SliceSplit(syms: seq<Symbol>, i: nat, j: nat, k: nat)
    requires i <= j <= k <= |syms|
    ensures syms[i..k] == syms[i..j] + syms[j..k]
  {
  }

  /** Accepting a run and then another is accepting the two in order. */
  lemma AcceptedTwice(b: BuilderState, cs: ContextState, r1: seq<Symbol>, r2: seq<Symbol>)
    ensures AcceptedAll(AcceptedAll(b, r1), r2) == AcceptedAll(b, r1 + r2)
    ensures Reported(Reported(cs, r1), r2) == Reported(cs, r1 + r2)
  {
    ErrorsOfAppend(r1, r2);
    assert b.accepted + r1 + r2 == b.accepted + (r1 + r2);
    assert cs.errors + ErrorsOf(r1) + ErrorsOf(r2) == cs.errors + (ErrorsOf(r1) + ErrorsOf(r2));
  }

  /** Accepting one more symbol extends the run. */
  lemma AcceptedStep(b: BuilderState, cs: ContextState, run: seq<Symbol>, x: Symbol)
    ensures AcceptSpec(AcceptedAll(b, run), Some(x)) == AcceptedAll(b, run + [x])
    ensures Reported(Reported(cs, run), [x]) == Reported(cs, run + [x])
  {
    ErrorsOfSnoc(run, x);
    ErrorsOfSnoc([], x);
    assert [] + [x] == [x];
    assert cs.errors + ErrorsOf(run) + x.errors == cs.errors + (ErrorsOf(run) + x.errors);
    assert b.accepted + run + [x] == b.accepted + (run + [x]);
  }

  // ----- What the parse methods add to the tree -----

  /** The nodes Output adds for a run read into an empty builder: a span of
      the run, at its first symbol's start, or nothing for an empty run. */
  function Piece(kind: SpanKind, collapsed: bool, run: seq<Symbol>): (r: seq<Node>)
    ensures |r| == if run == [] then 0 else 1
  {
    if run == [] then [] else [SpanNode(Span(kind, RebasedAll(run), run[0].start, collapsed))]
  }

  /** Rebasing a run keeps its text. */
  lemma RebasedAllContents(run: seq<Symbol>)
    ensures Contents(RebasedAll(run)) == Contents(run)
  {
    ContentsPointwise(RebasedAll(run), run);
  }

  /** The piece of a run holds exactly the run's text. */
  lemma PieceText(kind: SpanKind, collapsed: bool, run: seq<Symbol>)
    ensures ChildrenText(Piece(kind, collapsed, run)) == Contents(run)
  {
    if run != [] {
      RebasedAllContents(run);
      var ns := Piece(kind, collapsed, run);
      assert ns[..0] == [];
    }
  }

  /** The stack with nodes appended to the children of its top frame; an
      empty stack stays empty. */
  function AppendTop(stack: seq<BlockFrame>, nodes: seq<Node>): (r: seq<BlockFrame>)
    ensures |r| == |stack|
  {
    if stack == [] then stack else WithTop(stack, Top(stack).(children := Top(stack).children + nodes))
  }

  /** The context after differs from the one before only by nodes appended to
      the current block (none when there is no block). */
  ghost predicate Grows(before: ContextState, after: ContextState, nodes: seq<Node>) {
    after.stack == AppendTop(before.stack, nodes) && (before.stack == [] ==> nodes == [])
  }

  /** Grows, and the given errors were reported, in order. */
  ghost predicate Extends(before: ContextState, after: ContextState, nodes: seq<Node>, errs: seq<Error>) {
    Grows(before, after, nodes) && after.errors == before.errors + errs && after.terminated == before.terminated
  }

  lemma GrowsTrans(a: ContextState, b: ContextState, c: ContextState, n1: seq<Node>, n2: seq<Node>)
    requires Grows(a, b, n1) && Grows(b, c, n2)
    ensures Grows(a, c, n1 + n2)
  {
    if a.stack != [] {
      assert Top(a.stack).children + n1 + n2 == Top(a.stack).children + (n1 + n2);
    }
  }

  lemma ExtendsTrans(a: ContextState, b: ContextState, c: ContextState,
                     n1: seq<Node>, e1: seq<Error>, n2: seq<Node>, e2: seq<Error>)
    requires Extends(a, b, n1, e1) && Extends(b, c, n2, e2)
    ensures Extends(a, c, n1 + n2, e1 + e2)
  {
    GrowsTrans(a, b, c, n1, n2);
  }

  /** What grows the stack adds the nodes' text to it. */
  lemma GrowsText(a: ContextState, b: ContextState, nodes: seq<Node>)
    requires Grows(a, b, nodes)
    ensures StackText(b.stack) == StackText(a.stack) + ChildrenText(nodes)
  {
    if a.stack != [] {
      AddChildrenText(a.stack, nodes);
    }
  }

  /** Growing keeps the bottom frame's type. */
  lemma GrowsKeepsBottom(a: ContextState, b: ContextState, nodes: seq<Node>)
    requires Grows(a, b, nodes) && a.stack != []
    ensures b.stack[0].kind == a.stack[0].kind
  {
  }

  /** A block started, grown and ended becomes one child block of the frame it
      was started in. */
  lemma Framed(c0: ContextState, c1: ContextState, c2: ContextState, c3: ContextState,
               kind: BlockType, nodes: seq<Node>, errs: seq<Error>)
    requires c0.stack != [] && c1 == c0.(stack := c0.stack + [BlockFrame(kind, None, None, [], false)])
    requires Extends(c1, c2, nodes, errs) && EndBlockSpec(c2) == (c3, Pass)
    ensures Extends(c0, c3, [BlockNode(Block(kind, None, None, nodes, false))], errs)
    ensures |c3.stack| == |c0.stack| && c3.stack[0].kind == c0.stack[0].kind
  {
    assert c2.stack[..|c2.stack| - 1] == c0.stack;
    assert [] + nodes == nodes;
    assert EndBlockSpec(c2).0.stack == AddChild(c0.stack, BlockNode(BuildBlock(Top(c2.stack))));
  }

  lemma AppendTopNothing(stack: seq<BlockFrame>)
    ensures AppendTop(stack, []) == stack
  {
    if stack != [] {
      assert Top(stack).children + [] == Top(stack).children;
    }
  }

  /** Text bookkeeping for a run from h to q accepted on top of the symbols
      from p already in the builder. */
  lemma HeldText(s: seq<Symbol>, p: nat, h: nat, q: nat, stackText: string)
    requires p <= h <= q <= |s| && stackText + Contents(s[p..h]) == Contents(s[..h])
    ensures s[p..h] + s[h..q] == s[p..q]
    ensures stackText + Contents(s[p..q]) == Contents(s[..q])
  {
    var u, v := s[p..h], s[h..q];
    assert u + v == s[p..q];
    ContentsAppend(u, v);
    ContentsSplit(s, h, q);
    AppendAssociates(stackText, Contents(u), Contents(v));
  }


  /** The text of a stream's first j symbols is that of its first i, then of
      the ones between. */
  lemma ContentsSplit(syms: seq<Symbol>, i: nat, j: nat)
    requires i <= j <= |syms|
    ensures Contents(syms[..j]) == Contents(syms[..i]) + Contents(syms[i..j])
  {
    assert syms[..j] == syms[..i] + syms[i..j];
    ContentsAppend(syms[..i], syms[i..j]);
  }

  lemma {:induction false} ErrorsOfAppend(a: seq<Symbol>, b: seq<Symbol>)
    ensures ErrorsOf(a + b) == ErrorsOf(a) + ErrorsOf(b)
    decreases |b|
  {
    if b == [] {
      assert a + b == a;
    } else {
      var n := |b| - 1;
      assert (a + b)[..|a + b| - 1] == a + b[..n];
      ErrorsOfAppend(a, b[..n]);
    }
  }

  lemma ErrorsOfSplit(syms: seq<Symbol>, i: nat, j: nat, k: nat)
    requires i <= j <= k <= |syms|
    ensures ErrorsOf(syms[i..k]) == ErrorsOf(syms[i..j]) + ErrorsOf(syms[j..k])
  {
    assert syms[i..k] == syms[i..j] + syms[j..k];
    ErrorsOfAppend(syms[i..j], syms[j..k]);
  }

  /** The error Required reports when the symbol at i is not of type t. */
  function Missing(st: Stream, i: nat, t: SymbolType): seq<Error>
    requires Contiguous(st.lines) && i <= |st.symbols|
  {
    if PastOptional(st, i, t) == i then [Error("Expected: " + SymbolTypeName(t), LocationAt(st, i), 0)] else []
  }

  /** The MetaCode span of a run (a delimiter, a tilde or a prefix symbol). */
  function Meta(run: seq<Symbol>): seq<Node> {
    Piece(MetaCode, false, run)
  }

  /** LastSpanContent over a frame's children: the content of the last child
      when it is a span, none otherwise. */
  function LastContent(children: seq<Node>): Option<string> {
    if children != [] && children[|children| - 1].SpanNode? then Some(children[|children| - 1].span.Content())
    else None
  }

  /** A non-empty run output last is what LastSpanContent then reads. */
  lemma LastContentOfPiece(nodes: seq<Node>, kind: SpanKind, run: seq<Symbol>)
    requires run != []
    ensures LastContent(nodes + Piece(kind, false, run)) == Some(Contents(run))
  {
    RebasedAllContents(run);
  }

  /** The name run, emitted into an empty frame, is the frame's last span
      content. */
  lemma NamedByRun(c0: ContextState, c1: ContextState, run: seq<Symbol>)
    requires c0.stack != [] && Top(c0.stack).children == []
    requires Grows(c0, c1, Piece(SpanKind.Expression, false, run))
    ensures c1.stack != [] && |c1.stack| == |c0.stack| && Lower(c1.stack) == Lower(c0.stack)
    ensures LastSpanContentOf(c1) == Ok(if run == [] then None else Some(Contents(run)))
  {
    assert [] + Piece(SpanKind.Expression, false, run) == Piece(SpanKind.Expression, false, run);
    if run != [] {
      LastContentOfPiece([], SpanKind.Expression, run);
    }
  }

  /** Relabelling the current frame leaves the frames below it alone. */
  lemma RelabelLevel(stack: seq<BlockFrame>, l: Label)
    requires stack != []
    ensures Lower(WithTop(stack, Relabelled(Top(stack), l))) == Lower(stack)
  {
  }

  /** One more step of a construct: what it adds follows what the earlier
      steps added, and the errors of the symbols it read follow theirs. */
  lemma Chain(s: seq<Symbol>, p0: nat, q: nat, r: nat, a: ContextState, b: ContextState, c: ContextState,
              nodes: seq<Node>, piece: seq<Node>)
    requires p0 <= q <= r <= |s|
    requires Extends(a, b, nodes, ErrorsOf(s[p0..q])) && Extends(b, c, piece, ErrorsOf(s[q..r]))
    ensures Extends(a, c, nodes + piece, ErrorsOf(s[p0..r]))
  {
    ExtendsTrans(a, b, c, nodes, ErrorsOf(s[p0..q]), piece, ErrorsOf(s[q..r]));
    ErrorsOfSplit(s, p0, q, r);
  }

  /** The empty sequence is a unit of concatenation. */
  lemma Unit<T>(a: seq<T>)
    ensures a + [] == a && [] + a == a
  {
  }

  /** An empty run of a stream: no symbols, no errors, no text. */
  lemma EmptyRun(syms: seq<Symbol>, i: nat)
    requires i <= |syms|
    ensures syms[i..i] == [] && ErrorsOf(syms[i..i]) == [] && Contents(syms[i..i]) == []
  {
  }

  /** Reading symbols (adding only their errors) and then outputting a piece. */
  lemma ReadThenOutput(a: ContextState, b: ContextState, c: ContextState, errs: seq<Error>, piece: seq<Node>)
    requires Extends(a, b, [], errs) && Extends(b, c, piece, [])
    ensures Extends(a, c, piece, errs)
  {
    ExtendsTrans(a, b, c, [], errs, piece, []);
    Unit(piece);
    Unit(errs);
  }

  /** Reporting errors and then adding a piece with errors of its own. */
  lemma ThenPiece(a: ContextState, b: ContextState, c: ContextState, e1: seq<Error>, piece: seq<Node>, e2: seq<Error>)
    requires Extends(a, b, [], e1) && Extends(b, c, piece, e2)
    ensures Extends(a, c, piece, e1 + e2)
  {
    ExtendsTrans(a, b, c, [], e1, piece, e2);
    Unit(piece);
  }

  /** What Output adds to the context for the run in the builder: the span of
      the run (nothing for an empty run), and exactly the run's text. */
  lemma OutputEffect(c0: ContextState, c1: ContextState, o: Outcome, run: seq<Symbol>, start: SourceLocation,
                     kind: SpanKind, collapsed: bool)
    requires o.Pass? && (run == [] ==> c1 == c0)
    requires run != [] ==> start == run[0].start && (c1, o) == AddSpanSpec(c0, Span(kind, RebasedAll(run), start, collapsed))
    ensures Extends(c0, c1, Piece(kind, collapsed, run), [])
    ensures StackText(c1.stack) + Contents([]) == StackText(c0.stack) + Contents(run)
  {
    AppendTopNothing(c0.stack);
    Unit(c0.errors);
    Unit(StackText(c1.stack));
    PieceText(kind, collapsed, run);
    if run != [] {
      GrowsText(c0, c1, Piece(kind, collapsed, run));
    }
  }

  /** What Required adds to the context when the symbol at i is expected:
      the error when it is missing, nothing else. */
  lemma RequiredEffect(st: Stream, i: nat, t: SymbolType, c0: ContextState, c1: ContextState, o: Outcome,
                       found: bool, loc: SourceLocation)
    requires Contiguous(st.lines) && i <= |st.symbols|
    requires found == (PastOptional(st, i, t) != i) && loc == LocationAt(st, i)
    requires (c1, o) == if !found then OnErrorSpec(c0, Error("Expected: " + SymbolTypeName(t), loc, 0)) else (c0, Pass)
    requires o.Pass?
    ensures Extends(c0, c1, [], Missing(st, i, t)) && c1.stack == c0.stack
  {
    AppendTopNothing(c0.stack);
    Unit(c0.errors);
  }

  /** A context extends itself by nothing. */
  lemma ExtendsNothing(s: seq<Symbol>, p: nat, c: ContextState)
    requires p <= |s|
    ensures Extends(c, c, [], ErrorsOf(s[p..p]))
  {
    assert s[p..p] == [];
    assert c.errors + [] == c.errors;
    AppendTopNothing(c.stack);
  }

  /** The text a name contributes to a message (a null string adds nothing). */
  function NameText(name: Option<string>): string {
    if name.Some? then name.value else ""
  }

  /** The fixed parts of the unbalanced-tags message, around the two names. */
  const UnbalancedHead := "Unbalanced tags - expected a closing tag for '"
  const UnbalancedMiddle := "' but instead found '"

  /** The error AtBlockEndTag reports as written: it names the block that is
      current when it is reported, which is the closing TagElement just
      started, whose name is not set yet. */
  function UnbalancedAsWritten(current: BlockFrame, found: Option<string>, loc: SourceLocation): Error {
    Error(UnbalancedHead + NameText(current.name) + UnbalancedMiddle + NameText(found) + "'", loc, 0)
  }

  /** The error AtBlockEndTag evidently means to report: it names the tag
      the block was opened with. */
  function Unbalanced(tagName: Option<string>, found: Option<string>, loc: SourceLocation): Error {
    Error(UnbalancedHead + NameText(tagName) + UnbalancedMiddle + NameText(found) + "'", loc, 0)
  }

  /** As written, closing {{#if}} with {{/each}} reports that '' was
      expected: the slot for the open tag's name is empty. */
  lemma UnbalancedAsWrittenNamesNothing(loc: SourceLocation)
    ensures var element := BlockFrame(BlockType.TagElement, None, None, [], false);
            UnbalancedAsWritten(element, Some("each"), loc).message
              == UnbalancedHead + UnbalancedMiddle + "each" + "'"
  {
    assert UnbalancedHead + "" == UnbalancedHead;
  }

  /** The corrected message names both the open tag and the closing one. */
  lemma UnbalancedNamesBoth(tagName: string, found: string, loc: SourceLocation)
    ensures var m := Unbalanced(Some(tagName), Some(found), loc).message;
            m[..|UnbalancedHead|] == UnbalancedHead
            && m[|UnbalancedHead|..|UnbalancedHead| + |tagName|] == tagName
            && m[|m| - |found| - 1..|m| - 1] == found
  {
  }

  // The parts of a tag, read from position i: each function gives the spans
  // and the position after them.

  /** The opener and an optional tilde after it, each a MetaCode span. */
  function OpenEnd(st: Stream, i: nat): (r: nat)
    requires i <= |st.symbols|
    ensures i <= r <= |st.symbols| && (i < |st.symbols| ==> r > i)
  {
    PastOptional(st, NextAt(st, i), Tilde)
  }

  function OpenParts(st: Stream, i: nat): seq<Node>
    requires i <= |st.symbols|
  {
    var j := NextAt(st, i);
    Meta(st.symbols[i..j]) + Meta(st.symbols[j..OpenEnd(st, i)])
  }

  /** An optional tilde and the closer after it, each a MetaCode span. */
  function CloseEnd(st: Stream, i: nat): (r: nat)
    requires i <= |st.symbols|
    ensures i <= r <= |st.symbols|
  {
    NextAt(st, PastOptional(st, i, Tilde))
  }

  function CloseParts(st: Stream, i: nat): seq<Node>
    requires i <= |st.symbols|
  {
    var j := PastOptional(st, i, Tilde);
    Meta(st.symbols[i..j]) + Meta(st.symbols[j..CloseEnd(st, i)])
  }

  /** A comment tag: the opening parts, the bang (MetaCode), the comment
      (a collapsed Comment span) and the closing parts. */
  function CommentEnd(st: Stream, i: nat): (r: nat)
    requires i <= |st.symbols|
    ensures i <= r <= |st.symbols|
  {
    CloseEnd(st, NextAt(st, NextAt(st, OpenEnd(st, i))))
  }

  function CommentParts(st: Stream, i: nat): seq<Node>
    requires i <= |st.symbols|
  {
    var a := OpenEnd(st, i);
    var b := NextAt(st, a);
    var c := NextAt(st, b);
    OpenParts(st, i) + Meta(st.symbols[a..b]) + Piece(SpanKind.Comment, true, st.symbols[b..c]) + CloseParts(st, c)
  }
  /** The end of a tag's marker: the one MetaCode symbol after the opening
      parts (the '!' of a comment, the '/' of a closing tag). */
  function MarkerEnd(st: Stream, i: nat): (r: nat)
    requires i <= |st.symbols|
    ensures i <= r <= |st.symbols|
  {
    NextAt(st, OpenEnd(st, i))
  }

  /** The opening parts of a tag and its marker. */
  function MarkedParts(st: Stream, i: nat): seq<Node>
    requires i <= |st.symbols|
  {
    OpenParts(st, i) + Meta(st.symbols[OpenEnd(st, i)..MarkerEnd(st, i)])
  }

  /** A comment tag's parts are its head (the opening parts and the bang) and
      its tail (the comment and the closing parts). */
  lemma CommentHalves(st: Stream, i: nat)
    requires i <= |st.symbols|
    ensures CommentParts(st, i) == MarkedParts(st, i) + CommentTailParts(st, MarkerEnd(st, i))
  {
  }

  function CommentTailParts(st: Stream, b: nat): seq<Node>
    requires b <= |st.symbols|
  {
    var c := NextAt(st, b);
    Piece(SpanKind.Comment, true, st.symbols[b..c]) + CloseParts(st, c)
  }

  // ----- Expression bodies -----

  /** The types that end an expression's name, a mapped value, a parameter
      (which an Assign also ends), an expression body, and the name of a
      closing tag. */
  const NameStops: seq<SymbolType> := [SymbolType.WhiteSpace, CloseTag, RawCloseTag, Tilde, OpenParenthesis]
  const ValueStops: seq<SymbolType> := [SymbolType.WhiteSpace, CloseTag, RawCloseTag, Tilde, CloseParenthesis]
  const ParameterStops: seq<SymbolType> := [Assign, SymbolType.WhiteSpace, CloseTag, RawCloseTag, Tilde, CloseParenthesis]
  const BodyEnds: seq<SymbolType> := [CloseTag, RawCloseTag, Tilde, CloseParenthesis]
  const EndNameStops: seq<SymbolType> := [CloseTag, RawCloseTag, Tilde]

  /** The types that end a run of text. */
  const TextStops: seq<SymbolType> := [OpenTag, RawOpenTag, SymbolType.WhiteSpace]

  /** Peek on the stack of blocks when it is empty. */
  const StackEmpty := InvalidOperation("Stack empty.")

  /** The name AtExpressionBody gives: the text of the name run (null when
      the run is empty), or "^" when the body is negated and that name is null
      or blank. */
  function BodyName(negated: bool, run: seq<Symbol>): Option<string> {
    ChosenName(negated, if run == [] then None else Some(Contents(run)))
  }

  /** The last span's content, or "^" for a negated body without one. */
  function ChosenName(negated: bool, last: Option<string>): Option<string> {
    if negated && (last.None? || IsBlank(last.value)) then Some("^") else last
  }

  /** The run AtExpressionBody reads as the name, from position i. */
  function NameRun(st: Stream, i: nat): seq<Symbol>
    requires i <= |st.symbols|
  {
    st.symbols[i..RunEnd(st.symbols, i, NoneOf(NameStops))]
  }

  /** Whether AtExpressionBody turns the enclosing block into a tag element. */
  predicate Retyped(negated: bool, name: Option<string>) {
    negated || name == Some("else")
  }

  /** A property of the current block that the parser sets. */
  datatype Label =
    | NameLabel(name: Option<string>)
    | TypeLabel(kind: BlockType)
    | DescriptorLabel(descriptor: Option<TagDescriptor>)
    | IgnoreLabel

  function Relabelled(f: BlockFrame, l: Label): BlockFrame {
    match l
    case NameLabel(n) => f.(name := n)
    case TypeLabel(k) => f.(kind := k)
    case DescriptorLabel(d) => f.(descriptor := d)
    case IgnoreLabel => f.(ignore := true)
  }

  /** The frames below the current one. */
  function Lower(stack: seq<BlockFrame>): seq<BlockFrame> {
    if stack == [] then [] else stack[..|stack| - 1]
  }

  /** Only the current frame may differ. */
  ghost predicate Level(before: ContextState, after: ContextState) {
    |after.stack| == |before.stack| && Lower(after.stack) == Lower(before.stack)
  }

  /** Only the current frame may differ, and it keeps its type and name: what
      a construct that ends every block it starts leaves behind. */
  ghost predicate Nested(before: ContextState, after: ContextState) {
    Level(before, after)
    && (before.stack != [] ==>
          Top(after.stack).kind == Top(before.stack).kind && Top(after.stack).name == Top(before.stack).name)
  }

  lemma GrowsNested(a: ContextState, b: ContextState, nodes: seq<Node>)
    requires Grows(a, b, nodes)
    ensures Nested(a, b)
  {
  }

  /** The children end with a TagElement block of the given name: the
      element a closing tag leaves behind. */
  predicate EndsWithElement(children: seq<Node>, name: Option<string>) {
    children != [] && children[|children| - 1].BlockNode?
    && children[|children| - 1].block.kind == BlockType.TagElement && children[|children| - 1].block.name == name
  }

  /** A block started in a frame, with only its own frame changed until it
      ends, leaves the frame below as it found it but for a new child. */
  lemma Closed(c0: ContextState, c1: ContextState, c2: ContextState, c3: ContextState, kind: BlockType)
    requires c0.stack != [] && c1.stack == c0.stack + [BlockFrame(kind, None, None, [], false)]
    requires Level(c1, c2) && EndBlockSpec(c2) == (c3, Pass)
    ensures Nested(c0, c3)
    ensures Top(c3.stack).children == Top(c0.stack).children + [BlockNode(BuildBlock(Top(c2.stack)))]
  {
    assert Lower(c1.stack) == c0.stack;
  }

  /** A node the argument loop of an expression body adds: a whitespace, map
      or parameter span, or the block of a sub-expression (a tag element when
      the sub-expression is named "else"). */
  predicate IsArgument(n: Node) {
    match n
    case SpanNode(sp) => sp.kind in {SpanKind.WhiteSpace, Map, SpanKind.Parameter}
    case BlockNode(b) => b.kind in {BlockType.SubExpression, BlockType.TagElement}
  }

  /** The children after are those before, followed by argument nodes only. */
  predicate ArgumentsAdded(before: seq<Node>, after: seq<Node>) {
    |before| <= |after| && after[..|before|] == before
    && forall i | |before| <= i < |after| :: IsArgument(after[i])
  }

  lemma ArgumentsTrans(a: seq<Node>, b: seq<Node>, c: seq<Node>)
    requires ArgumentsAdded(a, b) && ArgumentsAdded(b, c)
    ensures ArgumentsAdded(a, c)
  {
    assert c[..|a|] == c[..|b|][..|a|];
    forall i | |a| <= i < |c|
      ensures IsArgument(c[i])
    {
      if i < |b| {
        assert c[i] == c[..|b|][i];
      }
    }
  }

  /** A context grown by a whitespace, map or parameter span (or by nothing)
      has had argument nodes added to its current block. */
  lemma ArgumentPiece(a: ContextState, b: ContextState, kind: SpanKind, run: seq<Symbol>, errs: seq<Error>)
    requires a.stack != [] && kind in {SpanKind.WhiteSpace, Map, SpanKind.Parameter}
    requires Extends(a, b, Piece(kind, false, run), errs) || Extends(a, b, [], errs)
    ensures ArgumentsAdded(Top(a.stack).children, Top(b.stack).children)
  {
    var before := Top(a.stack).children;
    assert Top(b.stack).children[..|before|] == before;
  }

  /** A sub-expression's block is an argument node. */
  lemma SubExpressionIsArgument(before: seq<Node>, after: seq<Node>)
    requires OneBlockMore(before, after) && after[|before|].block.kind in {BlockType.SubExpression, BlockType.TagElement}
    ensures ArgumentsAdded(before, after)
  {
  }

  /** A run read in two steps and then output as a Map span: the span is
      added and the run's errors reported, and the span is an argument node. */
  lemma MapOutput(s: seq<Symbol>, p: nat, h0: nat, h1: nat, h2: nat,
                  c0: ContextState, c1: ContextState, c2: ContextState, c3: ContextState)
    requires p <= h0 <= h1 <= h2 <= |s|
    requires Extends(c0, c1, [], ErrorsOf(s[h0..h1])) && Extends(c1, c2, [], ErrorsOf(s[h1..h2]))
    requires Extends(c2, c3, Piece(Map, false, s[p..h2]), [])
    ensures Extends(c0, c3, Piece(Map, false, s[p..h2]), ErrorsOf(s[h0..h2]))
    ensures c0.stack != [] ==> ArgumentsAdded(Top(c0.stack).children, Top(c3.stack).children)
  {
    Chain(s, h0, h1, h2, c0, c1, c2, [], []);
    ReadThenOutput(c0, c2, c3, ErrorsOf(s[h0..h2]), Piece(Map, false, s[p..h2]));
    if c0.stack != [] {
      ArgumentPiece(c0, c3, Map, s[p..h2], ErrorsOf(s[h0..h2]));
    }
  }

  /** The ExpressionBody block an expression body builds: named after the
      body, holding the name run's Expression span followed by argument nodes,
      and ignored when it has no children. */
  predicate IsBody(b: Block, name: Option<string>, run: seq<Symbol>) {
    b.kind == BlockType.ExpressionBody && b.name == name
    && ArgumentsAdded(Piece(SpanKind.Expression, false, run), b.children) && (b.children == [] ==> b.ignore)
  }

  /** The children after are those before and one block node more. */
  predicate OneBlockMore(before: seq<Node>, after: seq<Node>) {
    |after| == |before| + 1 && after[..|before|] == before && after[|before|].BlockNode?
  }

  /** Below two frames, the bottom frame is out of reach of changes to the
      current one. */
  lemma LevelKeepsBottom(b: ContextState, a: ContextState)
    requires Level(b, a) && |b.stack| >= 2
    ensures a.stack[0] == b.stack[0]
  {
    assert a.stack[0] == Lower(a.stack)[0];
    assert b.stack[0] == Lower(b.stack)[0];
  }

  lemma NestedKeepsBottom(b: ContextState, a: ContextState)
    requires Nested(b, a) && b.stack != []
    ensures a.stack != [] && a.stack[0].kind == b.stack[0].kind
  {
    if |b.stack| >= 2 {
      LevelKeepsBottom(b, a);
    }
  }

  /** Replacing the current frame twice is replacing it once. */
  lemma WithTopTwice(stack: seq<BlockFrame>, f: BlockFrame, g: BlockFrame)
    requires stack != []
    ensures WithTop(WithTop(stack, f), g) == WithTop(stack, g)
  {
  }

  /** Replacing the current frame of a stack of two or more keeps the bottom one. */
  lemma WithTopKeepsBottom(stack: seq<BlockFrame>, f: BlockFrame)
    requires |stack| >= 2
    ensures WithTop(stack, f)[0] == stack[0]
  {
    var r := WithTop(stack, f);
    assert r[0] == r[..|r| - 1][0];
  }

  /** Ending a block never removes the bottom frame or changes its type. */
  lemma EndBlockKeepsBottom(s: ContextState)
    requires s.stack != []
    ensures EndBlockSpec(s).0.stack != [] && EndBlockSpec(s).0.stack[0].kind == s.stack[0].kind
  {
    if !s.terminated && |s.stack| > 1 {
      var rest := s.stack[..|s.stack| - 1];
      if |rest| >= 2 {
        WithTopKeepsBottom(rest, Top(rest).(children := Top(rest).children + [BlockNode(BuildBlock(Top(s.stack)))]));
      }
    }
  }

  /** Merging keeps the bottom frame. */
  lemma MergeKeepsBottom(s: ContextState)
    requires |s.stack| >= 2
    ensures |MergeSpec(s).stack| >= 1 && MergeSpec(s).stack[0] == s.stack[0]
  {
    if |s.stack| > 2 {
      var rest := s.stack[..|s.stack| - 1];
      WithTopKeepsBottom(rest, Top(rest).(children := Top(rest).children + Top(s.stack).children));
    }
  }

  // ----- Tags -----

  /** The construct a tag opener starts. */
  datatype TagKind =
    | BlockTag(blockPrefix: SymbolType)
    | CommentTag
    | BlockEndTag
    | PartialTag
    | ExpressionTag(prefix: Option<SymbolType>, prefixKind: SpanKind)

  /** AtTag's choice for the opener at i: the symbol after it, past an
      optional tilde, selects the construct; after a negation, a closer makes
      an expression and anything else a block. Reading the type of a symbol
      past the last one throws. */
  function TagKindAt(syms: seq<Symbol>, i: nat): Result<TagKind>
    requires i <= |syms|
  {
    var j := if i + 1 < |syms| && syms[i + 1].kind == Tilde then i + 2 else i + 1;
    if j >= |syms| then Err(NullReference) else KindAt(syms, j)
  }

  /** The construct the symbol at j selects, with the symbol after a
      negation deciding between an expression and a block. */
  function KindAt(syms: seq<Symbol>, j: nat): Result<TagKind>
    requires j < |syms|
  {
    match syms[j].kind
    case Hash => Ok(BlockTag(Hash))
    case Bang => Ok(CommentTag)
    case Slash => Ok(BlockEndTag)
    case RightArrow => Ok(PartialTag)
    case Negate =>
      if j + 1 >= |syms| then Err(NullReference)
      else if syms[j + 1].kind == CloseTag then Ok(ExpressionTag(Some(Negate), SpanKind.Expression))
      else Ok(BlockTag(Negate))
    case Ampersand => Ok(ExpressionTag(Some(Ampersand), MetaCode))
    case _ => Ok(ExpressionTag(None, MetaCode))
  }

  /** The name a block tag's element gives its block: the expression body's
      name, read after the opening parts and the prefix, negated when the
      prefix read was a "^". */
  function BlockTagName(st: Stream, i: nat, prefix: SymbolType): Option<string>
    requires i <= |st.symbols|
  {
    var b := PastOptional(st, OpenEnd(st, i), prefix);
    BodyName(LastContent(BlockHeadParts(st, i, prefix)) == Some("^"), NameRun(st, b))
  }

  /** The head of a block tag's element: the opening parts, then the prefix
      when it is there, as a MetaCode span. */
  function BlockHeadParts(st: Stream, i: nat, prefix: SymbolType): seq<Node>
    requires i <= |st.symbols|
  {
    var a := OpenEnd(st, i);
    OpenParts(st, i) + Meta(st.symbols[a..PastOptional(st, a, prefix)])
  }

  /** The opening parts, then the prefix: the head of a block tag's element. */
  lemma HeadGrows(st: Stream, i: nat, prefix: SymbolType, c0: ContextState, c1: ContextState, c2: ContextState)
    requires i <= |st.symbols| && Grows(c0, c1, OpenParts(st, i))
    requires Grows(c1, c2, Piece(MetaCode, false, st.symbols[OpenEnd(st, i)..PastOptional(st, OpenEnd(st, i), prefix)]))
    ensures Grows(c0, c2, BlockHeadParts(st, i, prefix))
  {
    var a := OpenEnd(st, i);
    GrowsTrans(c0, c1, c2, OpenParts(st, i), Meta(st.symbols[a..PastOptional(st, a, prefix)]));
  }

  /** After a block tag's head, the body reads the tag's name. */
  lemma HeadThenName(st: Stream, i: nat, prefix: SymbolType, children: seq<Node>, h: nat)
    requires i <= |st.symbols| && h == PastOptional(st, OpenEnd(st, i), prefix)
    requires children == [] + BlockHeadParts(st, i, prefix)
    ensures BodyName(LastContent(children) == Some("^"), NameRun(st, h)) == BlockTagName(st, i, prefix)
  {
    assert children == BlockHeadParts(st, i, prefix);
  }

  function EndNameEnd(st: Stream, i: nat): nat
    requires i <= |st.symbols|
  {
    RunEnd(st.symbols, MarkerEnd(st, i), NoneOf(EndNameStops))
  }

  /** A closing tag up to its name: the opening parts, the slash (MetaCode)
      and the name (an Expression span). */
  function EndHeadParts(st: Stream, i: nat): seq<Node>
    requires i <= |st.symbols|
  {
    MarkedParts(st, i) + Piece(SpanKind.Expression, false, st.symbols[MarkerEnd(st, i)..EndNameEnd(st, i)])
  }

  /** The name a closing tag gives: the content of the last span read. */
  function EndTagName(st: Stream, i: nat): Option<string>
    requires i <= |st.symbols|
  {
    LastContent(EndHeadParts(st, i))
  }

  /** After a closing tag's head, LastSpanContent reads the tag's name. */
  lemma HeadThenEndName(c: ContextState, st: Stream, i: nat)
    requires i <= |st.symbols| && c.stack != [] && Top(c.stack).children == [] + EndHeadParts(st, i)
    ensures LastSpanContentOf(c) == Ok(EndTagName(st, i))
  {
    assert Top(c.stack).children == EndHeadParts(st, i);
  }

  /** Ending a block of a live parse: the stack loses its top frame, or the
      root frame ends the parse; the bottom frame and the errors stay. */
  lemma EndBlockEffect(s: ContextState)
    requires !s.terminated && s.stack != []
    ensures var (after, o) := EndBlockSpec(s);
            o.Pass? && after.errors == s.errors
            && |after.stack| == (if |s.stack| > 1 then |s.stack| - 1 else 1)
            && after.terminated == (|s.stack| == 1)
            && after.stack != [] && after.stack[0].kind == s.stack[0].kind
  {
    EndBlockKeepsBottom(s);
  }

  /** A comment tag and a closing tag each read at least their opener. */
  lemma TagsMove(st: Stream, i: nat)
    requires i < |st.symbols|
    ensures CommentEnd(st, i) > i && CloseEnd(st, EndNameEnd(st, i)) > i
  {
  }

  /** The error AtBlockEndTag reports when the names differ. */
  function Unmatched(tagName: Option<string>, name: Option<string>, loc: SourceLocation): seq<Error> {
    if name == tagName then [] else [Unbalanced(tagName, name, loc)]
  }


  /** The parser. Its fields hold the state of the TokenizerView it reads
      (over the stream), of the SpanBuilder it fills and of the
      ParserContext it builds the tree in; each is updated as the methods of
      those classes are specified to update it. */
  class HandlebarsParser {
    const stream: ParserStream
    const providers: TagProvidersCollection
    var index: nat
    var atEnd: bool
    var current: Option<Symbol>
    var endOfFile: bool
    var span: BuilderState
    var context: ContextState

    /** index symbols lie before the reader unless the end was reported, in
        which case the reader is at stop. */
    ghost predicate Valid()
      reads this`index, this`atEnd, this`current, this`endOfFile
    {
      index <= |stream.symbols| && endOfFile == atEnd
      && (atEnd ==> index == |stream.symbols| && current.None?)
      && (current.Some? ==> 0 < index && current.value == stream.symbols[index - 1])
    }

    /** The view was last moved by Next: there is a current symbol unless the
        view is at the end. */
    ghost predicate Ready()
      reads this`index, this`atEnd, this`current, this`endOfFile
    {
      Valid() && (current.None? ==> atEnd)
    }

    /** The position of the current symbol in the stream, or of the next one
        to read when there is none. */
    function Here(): nat
      reads this`index, this`atEnd, this`current, this`endOfFile
      requires Valid()
    {
      if current.Some? then index - 1 else index
    }

    /** The reader's offset. */
    function Position(): int
      reads this`index, this`atEnd
      requires index <= |stream.symbols|
    {
      if atEnd then stream.stop else OffsetAt(stream.symbols, index)
    }

    /** The builder and the error sink hold what accepting run adds to a
        builder in state b and to a context in state cs. */
    ghost predicate Recorded(b: BuilderState, cs: ContextState, run: seq<Symbol>)
      reads this`span, this`context
    {
      span == AcceptedAll(b, run) && context == Reported(cs, run)
    }

    constructor (stream: ParserStream, providers: TagProvidersCollection)
      ensures Valid() && this.stream == stream && this.providers == providers
      ensures index == 0 && !atEnd && current.None?
      ensures span == BuilderState(MetaCode, false, [], Zero) && context == ContextState([], false, [], None)
    {
      this.stream := stream;
      this.providers := providers;
      index := 0;
      atEnd := false;
      current := None;
      endOfFile := false;
      span := BuilderState(MetaCode, false, [], Zero);
      context := ContextState([], false, [], None);
    }

    /** CurrentLocation: the current symbol's start, or the reader's location
        when there is none. */
    function CurrentLocation(): (loc: SourceLocation)
      reads this`index, this`atEnd, this`current, this`endOfFile
      requires Valid()
      ensures (current.None? ==> atEnd) ==> loc == LocationAt(stream, Here())
    {
      if endOfFile || current.None? then LocationIn(stream.lines, Position())
      else current.value.start
    }

    /** At: there is a current symbol and it has the given type. */
    function At(kind: SymbolType): (r: bool)
      reads this`index, this`atEnd, this`current, this`endOfFile
      requires Valid()
      ensures (current.None? ==> atEnd) ==>
                (r <==> Here() < |stream.symbols| && stream.symbols[Here()].kind == kind)
    {
      !endOfFile && current.Some? && current.value.kind == kind
    }

    /** NextToken (TokenizerView.Next): the symbol at the reader becomes the
        current one; past the last symbol there is none and the view is at the end. */
    method NextToken() returns (r: bool)
      requires Valid()
      modifies this`index, this`atEnd, this`current, this`endOfFile
      ensures Ready() && r == current.Some?
      ensures if old(atEnd) || old(index) == |stream.symbols|
              then atEnd && index == |stream.symbols|
              else !atEnd && index == old(index) + 1 && current == Some(stream.symbols[old(index)])
      ensures Here() == old(Here()) + if old(current.Some?) then 1 else 0
      ensures old(atEnd) ==> unchanged(this)
    {
      if atEnd || index == |stream.symbols| {
        index := |stream.symbols|;
        atEnd := true;
        current := None;
        endOfFile := true;
        return false;
      }
      current := Some(stream.symbols[index]);
      index := index + 1;
      endOfFile := false;
      return true;
    }

    /** EnsureCurrent: reads a symbol when there is no current one. */
    method EnsureCurrent() returns (r: bool)
      requires Valid()
      modifies this`index, this`atEnd, this`current, this`endOfFile
      ensures Ready() && Here() == old(Here()) && r == current.Some?
      ensures old(Ready()) ==> unchanged(this)
    {
      if current.None? {
        r := NextToken();
        return;
      }
      r := true;
    }

    /** The loop of Accept over a symbol's errors: each goes to the context. */
    method ReportErrors(errors: seq<Error>) returns (o: Outcome)
      modifies this`context
      ensures o == if old(context.terminated) && errors != [] then Fail(Completed) else Pass
      ensures context == if o.Fail? then old(context) else old(context).(errors := old(context.errors) + errors)
    {
      o := Pass;
      var i := 0;
      while i < |errors|
        invariant 0 <= i <= |errors| && (old(context.terminated) ==> i == 0) && o.Pass?
        invariant context == old(context).(errors := old(context.errors) + errors[..i])
      {
        var after := OnErrorSpec(context, errors[i]);
        context, o := after.0, after.1;
        if o.Fail? {
          assert old(context.errors) + errors[..0] == old(context.errors);
          return;
        }
        i := i + 1;
      }
      assert errors[..i] == errors;
    }

    /** Accept: every error the symbol carries goes to the context, then the
        builder takes the symbol; a missing symbol is ignored. */
    method Accept(symbol: Option<Symbol>) returns (o: Outcome)
      modifies this`span, this`context
      ensures o.Pass? ==> Recorded(old(span), old(context), if symbol.Some? then [symbol.value] else [])
      ensures o.Fail? ==>
                o == Fail(Completed) && old(context.terminated) && symbol.Some? && symbol.value.errors != []
                && context == old(context) && span == old(span)
    {
      if symbol.None? {
        assert ErrorsOf([]) == [];
        assert old(context).errors + [] == old(context).errors;
        assert old(span).accepted + [] == old(span).accepted;
        return Pass;
      }
      o := ReportErrors(symbol.value.errors);
      if o.Fail? {
        return;
      }
      span := AcceptSpec(span, symbol);
      AcceptedStep(old(span), old(context), [], symbol.value);
      assert [] + [symbol.value] == [symbol.value];
      assert old(span).accepted + [] == old(span).accepted;
      assert old(context).errors + [] == old(context).errors;
    }

    /** AcceptAndMoveNext: the current symbol is accepted and the view moves on. */
    method AcceptAndMoveNext() returns (r: bool, o: Outcome)
      requires Ready()
      modifies this
      ensures Ready()
      ensures o.Pass? ==> Here() == NextAt(stream, old(Here())) && r == (Here() < |stream.symbols|)
      ensures o.Pass? ==> Recorded(old(span), old(context), stream.symbols[old(Here())..Here()])
      ensures o.Fail? ==>
                o == Fail(Completed) && old(context.terminated) && index == old(index) && current == old(current)
                && atEnd == old(atEnd) && context == old(context) && span == old(span)
    {
      r := false;
      ghost var h := Here();
      assert current == SymbolAt(stream, h);
      assert stream.symbols[h..NextAt(stream, h)] == if current.Some? then [current.value] else [];
      o := Accept(current);
      if o.Fail? {
        return;
      }
      r := NextToken();
    }

    /** One step of a run: accepting the current symbol extends what the run
        from c0 has recorded by that symbol. */
    method AcceptStep(ghost b0: BuilderState, ghost cs0: ContextState, ghost c0: nat) returns (o: Outcome)
      requires Ready() && current.Some? && c0 <= Here()
      requires Recorded(b0, cs0, stream.symbols[c0..Here()])
      modifies this
      ensures Ready()
      ensures o.Pass? ==> Here() == old(Here()) + 1 && Recorded(b0, cs0, stream.symbols[c0..Here()])
      ensures o.Fail? ==> o == Fail(Completed) && old(context.terminated)
    {
      ghost var h := Here();
      ghost var syms := stream.symbols;
      var more;
      more, o := AcceptAndMoveNext();
      if o.Fail? {
        return;
      }
      AcceptedTwice(b0, cs0, syms[c0..h], syms[h..h + 1]);
      SliceSplit(syms, c0, h, h + 1);
    }

    /** AcceptWhile (ReadWhileLazy): the longest run of symbols from the current
        one that satisfy cond is accepted, and the view stops at the first
        symbol that does not, or at the end. */
    method AcceptWhile(cond: Symbol -> bool) returns (o: Outcome)
      requires Ready()
      modifies this
      ensures Ready()
      ensures o.Pass? ==>
                Here() == RunEnd(stream.symbols, old(Here()), cond)
                && Recorded(old(span), old(context), stream.symbols[old(Here())..Here()])
      ensures o.Fail? ==> o == Fail(Completed) && old(context.terminated)
    {
      ghost var c0 := Here();
      ghost var syms := stream.symbols;
      assert syms[c0..c0] == [];
      assert old(context).errors + [] == old(context).errors;
      assert old(span).accepted + [] == old(span).accepted;
      while true
        invariant Ready() && c0 <= Here() && RunEnd(syms, Here(), cond) == RunEnd(syms, c0, cond)
        invariant Recorded(old(span), old(context), syms[c0..Here()])
        decreases |syms| - Here()
      {
        var more := EnsureCurrent();
        if !more || !cond(current.value) {
          break;
        }
        o := AcceptStep(old(span), old(context), c0);
        if o.Fail? {
          return;
        }
      }
      o := Pass;
    }

    /** AcceptUntil: the longest run of symbols of none of the given types. */
    method AcceptUntil(types: seq<SymbolType>) returns (o: Outcome)
      requires Ready()
      modifies this
      ensures Ready()
      ensures o.Pass? ==>
                Here() == RunEnd(stream.symbols, old(Here()), NoneOf(types))
                && Recorded(old(span), old(context), stream.symbols[old(Here())..Here()])
      ensures o.Fail? ==> o == Fail(Completed) && old(context.terminated)
    {
      o := AcceptWhile(NoneOf(types));
    }

    /** AcceptAll: the types are matched against the symbols in order; each
        match is accepted, and the first mismatch (or the end) stops with false. */
    method AcceptAll(types: seq<SymbolType>) returns (r: bool, o: Outcome)
      requires Ready()
      modifies this
      ensures Ready()
      ensures o.Pass? ==>
                var n := MatchedPrefix(stream.symbols, old(Here()), types);
                Here() == old(Here()) + n && (r <==> n == |types|)
                && Recorded(old(span), old(context), stream.symbols[old(Here())..Here()])
      ensures o.Fail? ==> o == Fail(Completed) && old(context.terminated)
    {
      ghost var c0 := Here();
      ghost var syms := stream.symbols;
      assert syms[c0..c0] == [];
      assert old(context).errors + [] == old(context).errors;
      assert old(span).accepted + [] == old(span).accepted;
      var i := 0;
      while i < |types|
        invariant 0 <= i <= |types| && Ready() && Here() == c0 + i
        invariant MatchedPrefix(syms, c0, types) == i + MatchedPrefix(syms, Here(), types[i..])
        invariant Recorded(old(span), old(context), syms[c0..Here()])
      {
        var matched;
        matched, o := AcceptKind(types, i, old(span), old(context), c0);
        if !matched {
          return false, Pass;
        }
        r := false;
        if o.Fail? {
          return;
        }
        i := i + 1;
      }
      return true, Pass;
    }

    /** One round of AcceptAll: the current symbol is accepted when it has
        the given type; otherwise nothing changes. */
    method AcceptKind(types: seq<SymbolType>, i: nat, ghost b0: BuilderState, ghost cs0: ContextState, ghost c0: nat)
      returns (matched: bool, o: Outcome)
      requires Ready() && c0 <= Here() && i < |types|
      requires Recorded(b0, cs0, stream.symbols[c0..Here()])
      requires MatchedPrefix(stream.symbols, c0, types) == i + MatchedPrefix(stream.symbols, Here(), types[i..])
      modifies this
      ensures Ready()
      ensures matched <==> old(Here()) < |stream.symbols| && stream.symbols[old(Here())].kind == types[i]
      ensures !matched ==> MatchedPrefix(stream.symbols, c0, types) == i
      ensures matched && o.Pass? ==>
                MatchedPrefix(stream.symbols, c0, types) == i + 1 + MatchedPrefix(stream.symbols, Here(), types[i + 1..])
      ensures !matched ==> o.Pass? && unchanged(this)
      ensures matched && o.Pass? ==> Here() == old(Here()) + 1 && Recorded(b0, cs0, stream.symbols[c0..Here()])
      ensures o.Fail? ==> o == Fail(Completed) && old(context.terminated)
    {
      if current.None? || current.value.kind != types[i] {
        return false, Pass;
      }
      matched := true;
      assert types[i..][1..] == types[i + 1..];
      MatchedPrefixStep(stream.symbols, Here(), types[i..]);
      o := AcceptStep(b0, cs0, c0);
    }

    /** PutBack (TokenizerView.PutBack): a missing symbol is ignored; only the
        symbol that ends at the reader can be put back, and the reader moves
        back to its start with no current symbol. */
    method PutBack(symbol: Option<Symbol>) returns (o: Outcome)
      requires Valid() && (symbol.Some? ==> symbol.value in stream.symbols)
      modifies this`index, this`atEnd, this`current, this`endOfFile
      ensures Valid()
      ensures symbol.None? ==> o.Pass? && unchanged(this)
      ensures symbol.Some? && old(Position()) != symbol.value.End() ==>
                o == Fail(InvalidOperation("Cannot put symbol back.")) && unchanged(this)
      ensures symbol.Some? && old(Position()) == symbol.value.End() ==>
                o.Pass? && 0 < old(index) && symbol.value == stream.symbols[old(index) - 1]
                && index == old(index) - 1 && !atEnd && current.None?
    {
      if symbol.None? {
        return Pass;
      }
      var sym := symbol.value;
      if Position() != sym.start.absolute + |sym.content| {
        return Fail(InvalidOperation("Cannot put symbol back."));
      }
      ghost var k :| 0 <= k < |stream.symbols| && stream.symbols[k] == sym;
      PutBackTarget(stream, k, index, atEnd);
      index := index - 1;
      atEnd := false;
      current := None;
      endOfFile := sym.start.absolute >= |Concat(stream.lines)|;
      o := Pass;
    }

    /** PutCurrentBack: the current symbol, if any, is put back. */
    method PutCurrentBack() returns (o: Outcome)
      requires Valid()
      modifies this`index, this`atEnd, this`current, this`endOfFile
      ensures Valid() && o.Pass?
      ensures old(current.None?) ==> unchanged(this)
      ensures old(current.Some?) ==> index == old(index) - 1 && !atEnd && current.None?
    {
      if !endOfFile && current.Some? {
        o := PutBack(current);
      } else {
        o := Pass;
      }
    }

    /** NextIs: whether the symbol after the current one satisfies cond; the
        view reads it, puts it and the current one back and reads the current
        one again. */
    method NextIs(cond: Option<Symbol> -> bool) returns (r: bool, o: Outcome)
      requires Ready()
      modifies this`index, this`atEnd, this`current, this`endOfFile
      ensures Valid()
      ensures r == cond(SymbolAt(stream, NextAt(stream, old(Here()))))
      ensures o.Fail? <==>
                old(current.Some?) && old(Here()) + 1 == |stream.symbols|
                && stream.stop != OffsetAt(stream.symbols, |stream.symbols|)
      ensures o.Fail? ==> o == Fail(InvalidOperation("Cannot put symbol back."))
      ensures o.Pass? ==> Ready() && index == old(index) && atEnd == old(atEnd) && current == old(current)
    {
      var cur := current;
      r := false;
      var more := NextToken();
      r := cond(current);
      o := PutCurrentBack();
      if o.Fail? {
        return;
      }
      o := PutBack(cur);
      if o.Fail? {
        return;
      }
      more := EnsureCurrent();
    }

    /** Output: the builder takes the kind and collapsed flag; when it holds
        symbols they are built into a span that is added to the context. */
    method Output(kind: SpanKind, collapsed: bool) returns (o: Outcome)
      modifies this`span, this`context
      ensures span == old(span).(kind := kind, collapsed := collapsed, accepted := [],
                                 start := if old(span.accepted) == [] then old(span.start) else Zero)
      ensures old(span.accepted) == [] ==> o.Pass? && context == old(context)
      ensures old(span.accepted) != [] ==>
                (context, o) == AddSpanSpec(old(context), Span(kind, RebasedAll(old(span.accepted)), old(span.start), collapsed))
    {
      span := span.(kind := kind, collapsed := collapsed);
      if |span.accepted| > 0 {
        var built := BuildSpec(span);
        span := built.1;
        var added := AddSpanSpec(context, built.0);
        context, o := added.0, added.1;
      } else {
        o := Pass;
      }
    }

    /** Optional: a symbol of the given type is accepted when it is current. */
    method Optional(kind: SymbolType) returns (r: bool, o: Outcome)
      requires Ready()
      modifies this
      ensures Ready() && r == old(At(kind))
      ensures !r ==> o.Pass? && unchanged(this)
      ensures r && o.Pass? ==>
                Here() == old(Here()) + 1 && Recorded(old(span), old(context), stream.symbols[old(Here())..Here()])
      ensures o.Fail? ==> o == Fail(Completed) && old(context.terminated)
    {
      if At(kind) {
        var more;
        more, o := AcceptAndMoveNext();
        return true, o;
      }
      return false, Pass;
    }

    /** Required: whether the current symbol has the given type; when it has
        not and errorIfNotFound is set, "Expected: " and the type's name are
        reported at the current location. */
    method Required(expected: SymbolType, errorIfNotFound: bool) returns (found: bool, o: Outcome)
      requires Valid()
      modifies this`context
      ensures Here() == old(Here())
      ensures found == At(expected)
      ensures (context, o) ==
                if !found && errorIfNotFound
                then OnErrorSpec(old(context), Error("Expected: " + SymbolTypeName(expected), CurrentLocation(), 0))
                else (old(context), Pass)
    {
      found := At(expected);
      if !found && errorIfNotFound {
        var after := OnErrorSpec(context, Error("Expected: " + SymbolTypeName(expected), CurrentLocation(), 0));
        context, o := after.0, after.1;
      } else {
        o := Pass;
      }
    }

    // ----- The parse methods -----

    /** The builder holds the stream's symbols from p up to the current
        position (the first one giving the span its start), and the tree and
        the builder together hold the text of every symbol read. */
    ghost predicate Holding(p: nat)
      reads this
      requires Valid()
    {
      p <= Here() && span.accepted == stream.symbols[p..Here()]
      && (span.accepted != [] ==> span.start == span.accepted[0].start)
      && StackText(context.stack) + Contents(span.accepted) == Contents(stream.symbols[..Here()])
    }

    /** Between two outputs: the builder is empty and the tree holds exactly
        the text of the symbols read. */
    ghost predicate Steady()
      reads this
    {
      Ready() && Holding(Here())
    }

    /** The bottom frame is the document's. */
    ghost predicate Rooted()
      reads this`context
    {
      context.stack != [] && context.stack[0].kind == BlockType.Document
    }

    /** After a run was accepted on top of a builder holding the symbols from
        p, the builder holds the symbols from p, and only the run's errors
        were reported. */
    lemma Advanced(p: nat, h: nat, b: BuilderState, cs: ContextState)
      requires Valid() && p <= h <= Here()
      requires Recorded(b, cs, stream.symbols[h..Here()])
      requires b.accepted == stream.symbols[p..h] && (b.accepted != [] ==> b.start == b.accepted[0].start)
      requires StackText(cs.stack) + Contents(b.accepted) == Contents(stream.symbols[..h])
      ensures Holding(p) && Extends(cs, context, [], ErrorsOf(stream.symbols[h..Here()]))
    {
      HeldText(stream.symbols, p, h, Here(), StackText(cs.stack));
      AppendTopNothing(cs.stack);
    }

    /** AcceptAndMoveNext, on top of a builder holding the symbols from p. */
    method Take(ghost p: nat) returns (o: Outcome)
      requires Ready() && Holding(p)
      modifies this
      ensures Ready()
      ensures o.Pass? ==>
                Holding(p) && Here() == NextAt(stream, old(Here()))
                && Extends(old(context), context, [], ErrorsOf(stream.symbols[old(Here())..Here()]))
                && Nested(old(context), context)
    {
      ghost var h, b, cs := Here(), span, context;
      var more;
      more, o := AcceptAndMoveNext();
      if o.Fail? {
        return;
      }
      Advanced(p, h, b, cs);
      GrowsNested(cs, context, []);
    }

    /** AcceptUntil, on top of a builder holding the symbols from p. */
    method TakeUntil(types: seq<SymbolType>, ghost p: nat) returns (o: Outcome)
      requires Ready() && Holding(p)
      modifies this
      ensures Ready()
      ensures o.Pass? ==>
                Holding(p) && Here() == RunEnd(stream.symbols, old(Here()), NoneOf(types))
                && Extends(old(context), context, [], ErrorsOf(stream.symbols[old(Here())..Here()]))
                && Nested(old(context), context)
    {
      ghost var h, b, cs := Here(), span, context;
      o := AcceptUntil(types);
      if o.Fail? {
        return;
      }
      Advanced(p, h, b, cs);
      GrowsNested(cs, context, []);
    }

    /** Output, with the builder holding the symbols from p: they become the
        next child span of the current block. */
    method Flush(kind: SpanKind, collapsed: bool, ghost p: nat) returns (o: Outcome)
      requires Ready() && Holding(p)
      modifies this`span, this`context
      ensures Ready() && Here() == old(Here())
      ensures o.Pass? ==> Steady() && Extends(old(context), context, Piece(kind, collapsed, stream.symbols[p..Here()]), [])
      ensures o.Pass? ==> Nested(old(context), context)
    {
      ghost var run, start, c0 := stream.symbols[p..Here()], span.start, context;
      o := Output(kind, collapsed);
      if o.Pass? {
        OutputEffect(c0, context, o, run, start, kind, collapsed);
        EmptyRun(stream.symbols, Here());
        GrowsNested(c0, context, Piece(kind, collapsed, run));
      }
    }

    /** AcceptAndMoveNext then Output: the current symbol, if any, becomes a
        span of its own. */
    method EmitOne(kind: SpanKind, collapsed: bool) returns (o: Outcome)
      requires Steady()
      modifies this
      ensures Ready()
      ensures o.Pass? ==>
                Steady() && Here() == NextAt(stream, old(Here()))
                && Extends(old(context), context, Piece(kind, collapsed, stream.symbols[old(Here())..Here()]),
                           ErrorsOf(stream.symbols[old(Here())..Here()]))
      ensures o.Pass? ==> Nested(old(context), context)
    {
      ghost var h, c0 := Here(), context;
      o := Take(h);
      if o.Pass? {
        ghost var c1 := context;
        o := Flush(kind, collapsed, h);
        if o.Pass? {
          ghost var run := stream.symbols[h..Here()];
          ReadThenOutput(c0, c1, context, ErrorsOf(run), Piece(kind, collapsed, run));
        }
      }
    }

    /** Optional then, when the symbol was there, Output as MetaCode: an
        optional symbol (a tilde) becomes a span of its own. */
    method EmitOptional(t: SymbolType) returns (found: bool, o: Outcome)
      requires Steady()
      modifies this
      ensures Ready()
      ensures o.Pass? ==>
                Steady() && found == (Here() > old(Here())) && Here() == PastOptional(stream, old(Here()), t)
                && Extends(old(context), context, Piece(MetaCode, false, stream.symbols[old(Here())..Here()]),
                           ErrorsOf(stream.symbols[old(Here())..Here()]))
      ensures o.Pass? ==> Nested(old(context), context)
    {
      if At(t) {
        o := EmitOne(MetaCode, false);
        return true, o;
      }
      EmptyRun(stream.symbols, Here());
      ExtendsNothing(stream.symbols, Here(), context);
      GrowsNested(context, context, []);
      return false, Pass;
    }

    /** Required, reporting a missing symbol. */
    method Expect(t: SymbolType) returns (found: bool, o: Outcome)
      requires Steady()
      modifies this`context
      ensures Here() == old(Here())
      ensures found == (PastOptional(stream, Here(), t) != Here())
      ensures o.Pass? ==> Steady() && Extends(old(context), context, [], Missing(stream, Here(), t))
    {
      found, o := Required(t, true);
      if o.Pass? {
        RequiredEffect(stream, Here(), t, old(context), context, o, found, CurrentLocation());
      }
    }

    /** Required (reporting a missing symbol) then, when the symbol is there,
        AcceptAndMoveNext and Output: the symbol becomes a span of the given
        kind, or "Expected: " and its type are reported at the current location. */
    method EmitRequired(t: SymbolType, kind: SpanKind) returns (found: bool, o: Outcome)
      requires Steady()
      modifies this
      ensures Ready()
      ensures o.Pass? ==>
                Steady() && found == (Here() > old(Here())) && Here() == PastOptional(stream, old(Here()), t)
                && Extends(old(context), context, Piece(kind, false, stream.symbols[old(Here())..Here()]),
                           Missing(stream, old(Here()), t) + ErrorsOf(stream.symbols[old(Here())..Here()]))
      ensures o.Pass? ==> Nested(old(context), context)
    {
      ghost var c0 := context;
      found, o := Expect(t);
      if o.Pass? {
        o := EmitFound(found, t, kind, c0);
      }
    }

    /** The rest of EmitRequired once Required has reported a missing symbol. */
    method EmitFound(found: bool, t: SymbolType, kind: SpanKind, ghost c0: ContextState) returns (o: Outcome)
      requires Steady() && found == (PastOptional(stream, Here(), t) != Here())
      requires Extends(c0, context, [], Missing(stream, Here(), t))
      modifies this
      ensures Ready()
      ensures o.Pass? ==>
                Steady() && found == (Here() > old(Here())) && Here() == PastOptional(stream, old(Here()), t)
                && Extends(c0, context, Piece(kind, false, stream.symbols[old(Here())..Here()]),
                           Missing(stream, old(Here()), t) + ErrorsOf(stream.symbols[old(Here())..Here()]))
      ensures o.Pass? ==> Nested(c0, context)
    {
      ghost var h, c1 := Here(), context;
      ghost var missing := Missing(stream, h, t);
      o := Pass;
      if found {
        o := EmitOne(kind, false);
        if o.Pass? {
          ghost var run := stream.symbols[h..Here()];
          ThenPiece(c0, c1, context, missing, Piece(kind, false, run), ErrorsOf(run));
          GrowsNested(c0, context, Piece(kind, false, run));
        }
      } else {
        EmptyRun(stream.symbols, h);
        Unit(missing);
        GrowsNested(c0, context, []);
      }
    }

    /** AcceptUntil then Output: the longest run of symbols of none of the
        given types becomes a span (none when the run is empty). */
    method EmitUntil(types: seq<SymbolType>, kind: SpanKind) returns (o: Outcome)
      requires Steady()
      modifies this
      ensures Ready()
      ensures o.Pass? ==>
                Steady() && Here() == RunEnd(stream.symbols, old(Here()), NoneOf(types))
                && Extends(old(context), context, Piece(kind, false, stream.symbols[old(Here())..Here()]),
                           ErrorsOf(stream.symbols[old(Here())..Here()]))
      ensures o.Pass? ==> Nested(old(context), context)
    {
      ghost var h, c0 := Here(), context;
      o := TakeUntil(types, h);
      if o.Pass? {
        ghost var c1 := context;
        o := Flush(kind, false, h);
        if o.Pass? {
          ghost var run := stream.symbols[h..Here()];
          ReadThenOutput(c0, c1, context, ErrorsOf(run), Piece(kind, false, run));
        }
      }
    }

    /** AcceptWhile then Output: the longest run of symbols of the given
        types becomes a span (none when the run is empty). */
    method EmitWhile(types: seq<SymbolType>, kind: SpanKind) returns (o: Outcome)
      requires Steady()
      modifies this
      ensures Ready()
      ensures o.Pass? ==>
                Steady() && Here() == RunEnd(stream.symbols, old(Here()), AnyOf(types))
                && Extends(old(context), context, Piece(kind, false, stream.symbols[old(Here())..Here()]),
                           ErrorsOf(stream.symbols[old(Here())..Here()]))
      ensures o.Pass? ==> Nested(old(context), context)
    {
      ghost var h, b, c0 := Here(), span, context;
      o := AcceptWhile(AnyOf(types));
      if o.Pass? {
        Advanced(h, h, b, c0);
        ghost var c1 := context;
        o := Flush(kind, false, h);
        if o.Pass? {
          ghost var run := stream.symbols[h..Here()];
          ReadThenOutput(c0, c1, context, ErrorsOf(run), Piece(kind, false, run));
        }
      }
    }

    /** HandlebarsParser.cs lines 35-44 (and their repeats): the opener and an optional tilde. */
    method TagOpen() returns (o: Outcome)
      requires Steady()
      modifies this
      ensures Ready()
      ensures o.Pass? ==>
                Steady() && Here() == OpenEnd(stream, old(Here()))
                && Extends(old(context), context, OpenParts(stream, old(Here())), ErrorsOf(stream.symbols[old(Here())..Here()]))
      ensures o.Pass? ==> Nested(old(context), context)
    {
      ghost var s, p0, c0 := stream.symbols, Here(), context;
      o := EmitOne(MetaCode, false);
      if o.Fail? {
        return;
      }
      ghost var q, c1 := Here(), context;
      var found;
      found, o := EmitOptional(Tilde);
      if o.Fail? {
        return;
      }
      Chain(s, p0, q, Here(), c0, c1, context, Meta(s[p0..q]), Meta(s[q..Here()]));
    }

    /** HandlebarsParser.cs lines 64-73 (and their repeats): an optional tilde and the closer. */
    method TagClose() returns (o: Outcome)
      requires Steady()
      modifies this
      ensures Ready()
      ensures o.Pass? ==>
                Steady() && Here() == CloseEnd(stream, old(Here()))
                && Extends(old(context), context, CloseParts(stream, old(Here())), ErrorsOf(stream.symbols[old(Here())..Here()]))
      ensures o.Pass? ==> Nested(old(context), context)
    {
      ghost var s, p0, c0 := stream.symbols, Here(), context;
      var found;
      found, o := EmitOptional(Tilde);
      if o.Fail? {
        return;
      }
      ghost var q, c1 := Here(), context;
      o := EmitOne(MetaCode, false);
      if o.Fail? {
        return;
      }
      Chain(s, p0, q, Here(), c0, c1, context, Meta(s[p0..q]), Meta(s[q..Here()]));
    }

    /** The opening parts of a tag and its marker: the bang of a comment,
        the slash of a closing tag. */
    method TagMarker() returns (o: Outcome)
      requires Steady()
      modifies this
      ensures Ready()
      ensures o.Pass? ==>
                Steady() && Here() == MarkerEnd(stream, old(Here()))
                && Extends(old(context), context, MarkedParts(stream, old(Here())), ErrorsOf(stream.symbols[old(Here())..Here()]))
    {
      ghost var s, p0, c0 := stream.symbols, Here(), context;
      o := TagOpen();
      if o.Fail? {
        return;
      }
      ghost var q, c1 := Here(), context;
      o := EmitOne(MetaCode, false);
      if o.Fail? {
        return;
      }
      ghost var r := Here();
      assert p0 <= q <= r <= |s|;
      Chain(s, p0, q, r, c0, c1, context, OpenParts(stream, p0), Meta(s[q..r]));
    }

    /** The second half: the comment itself (collapsed) and the closing parts. */
    method CommentTail() returns (o: Outcome)
      requires Steady()
      modifies this
      ensures Ready()
      ensures o.Pass? ==>
                Steady() && Here() == CloseEnd(stream, NextAt(stream, old(Here())))
                && Extends(old(context), context, CommentTailParts(stream, old(Here())), ErrorsOf(stream.symbols[old(Here())..Here()]))
    {
      ghost var s, p0, c0 := stream.symbols, Here(), context;
      o := EmitOne(SpanKind.Comment, true);
      if o.Fail? {
        return;
      }
      ghost var q, c1 := Here(), context;
      o := TagClose();
      if o.Fail? {
        return;
      }
      Chain(s, p0, q, Here(), c0, c1, context, Piece(SpanKind.Comment, true, s[p0..q]), CloseParts(stream, q));
    }

    /** The body of AtCommentTag, inside its block. */
    method CommentContent() returns (o: Outcome)
      requires Steady()
      modifies this
      ensures Ready()
      ensures o.Pass? ==>
                Steady() && Here() == CommentEnd(stream, old(Here()))
                && Extends(old(context), context, CommentParts(stream, old(Here())), ErrorsOf(stream.symbols[old(Here())..Here()]))
    {
      ghost var s, p0, c0 := stream.symbols, Here(), context;
      o := TagMarker();
      if o.Fail? {
        return;
      }
      ghost var q, c1 := Here(), context;
      o := CommentTail();
      if o.Fail? {
        return;
      }
      Chain(s, p0, q, Here(), c0, c1, context, MarkedParts(stream, p0), CommentTailParts(stream, q));
      CommentHalves(stream, p0);
    }

    /** Context.StartBlock, for a block of the given type with no name. */
    method OpenBlock(kind: BlockType) returns (o: Outcome)
      requires Valid() && Holding(Here())
      modifies this`context
      ensures Here() == old(Here())
      ensures Holding(Here()) && (old(Steady()) ==> Steady())
      ensures o.Pass? ==>
                !old(context.terminated)
                && context == old(context).(stack := old(context.stack) + [BlockFrame(kind, None, None, [], false)])
    {
      var started := StartBlockSpec(context, Some(kind), None);
      StartBlockKeepsText(context, Some(kind), None);
      context, o := started.0, started.1;
    }

    /** Context.EndBlock. */
    method CloseBlock() returns (o: Outcome)
      requires Valid() && Holding(Here())
      modifies this`context
      ensures Holding(Here()) && Here() == old(Here())
      ensures (old(Steady()) ==> Steady())
      ensures (context, o) == EndBlockSpec(old(context))
    {
      var ended := EndBlockSpec(context);
      EndBlockKeepsText(context);
      context, o := ended.0, ended.1;
    }

    /** AtCommentTag: a Comment block of the opener, an optional tilde, the
        bang, the comment (collapsed), an optional tilde and the closer, each
        a span of its own; the errors of those symbols are reported in order. */
    method AtCommentTag() returns (o: Outcome)
      requires Steady()
      modifies this
      ensures Ready()
      ensures o.Pass? ==> Steady() && Here() == CommentEnd(stream, old(Here())) && (old(Rooted()) ==> Rooted())
      ensures o.Pass? && old(context.stack) != [] ==>
                Extends(old(context), context,
                        [BlockNode(Block(BlockType.Comment, None, None, CommentParts(stream, old(Here())), false))],
                        ErrorsOf(stream.symbols[old(Here())..Here()]))
    {
      ghost var c0 := context;
      o := OpenBlock(BlockType.Comment);
      if o.Pass? {
        o := CommentBlock(c0);
      }
    }

    /** The rest of AtCommentTag once its Comment block is open: the content,
        then the end of the block. */
    method CommentBlock(ghost c0: ContextState) returns (o: Outcome)
      requires Steady() && context == c0.(stack := c0.stack + [BlockFrame(BlockType.Comment, None, None, [], false)])
      modifies this
      ensures Ready()
      ensures o.Pass? ==>
                Steady() && Here() == CommentEnd(stream, old(Here()))
                && (c0.stack != [] ==> |context.stack| == |c0.stack| && context.stack[0].kind == c0.stack[0].kind)
      ensures o.Pass? && c0.stack != [] ==>
                Extends(c0, context, [BlockNode(Block(BlockType.Comment, None, None, CommentParts(stream, old(Here())), false))],
                        ErrorsOf(stream.symbols[old(Here())..Here()]))
    {
      o := CommentContent();
      if o.Pass? {
        ghost var c2 := context;
        o := CloseBlock();
        if o.Pass? && c0.stack != [] {
          Framed(c0, old(context), c2, context, BlockType.Comment, CommentParts(stream, old(Here())),
                 ErrorsOf(stream.symbols[old(Here())..Here()]));
        }
      }
    }

    /** Setting one property of Context.CurrentBlock: Stack.Peek throws on an
        empty stack; otherwise the top frame is relabelled and keeps its children. */
    method SetLabel(l: Label) returns (o: Outcome)
      requires Steady()
      modifies this`context
      ensures Here() == old(Here())
      ensures Steady()
      ensures old(context.stack) == [] ==> o == Fail(StackEmpty) && context == old(context)
      ensures old(context.stack) != [] ==>
                o.Pass? && context == old(context).(stack := WithTop(old(context.stack), Relabelled(Top(old(context.stack)), l)))
    {
      if context.stack == [] {
        return Fail(StackEmpty);
      }
      var f := Relabelled(Top(context.stack), l);
      RelabelKeepsText(context.stack, f);
      context := context.(stack := WithTop(context.stack, f));
      o := Pass;
    }

    /** Context.OnError. */
    method ReportError(error: Error) returns (o: Outcome)
      requires Steady()
      modifies this`context
      ensures Here() == old(Here())
      ensures Steady() && (context, o) == OnErrorSpec(old(context), error)
    {
      var after := OnErrorSpec(context, error);
      context, o := after.0, after.1;
    }

    /** AcceptAll then Output: the symbols matching the given types, in order,
        become a span. */
    method EmitAll(types: seq<SymbolType>, kind: SpanKind) returns (o: Outcome)
      requires Steady()
      modifies this
      ensures Ready()
      ensures o.Pass? ==>
                Steady() && Here() == old(Here()) + MatchedPrefix(stream.symbols, old(Here()), types)
                && Extends(old(context), context, Piece(kind, false, stream.symbols[old(Here())..Here()]),
                           ErrorsOf(stream.symbols[old(Here())..Here()]))
      ensures o.Pass? ==> Nested(old(context), context)
    {
      ghost var h, b, c0 := Here(), span, context;
      var all;
      all, o := AcceptAll(types);
      if o.Pass? {
        Advanced(h, h, b, c0);
        ghost var c1 := context;
        o := Flush(kind, false, h);
        if o.Pass? {
          ghost var run := stream.symbols[h..Here()];
          ReadThenOutput(c0, c1, context, ErrorsOf(run), Piece(kind, false, run));
          GrowsNested(c0, context, Piece(kind, false, run));
        }
      }
    }

    /** HandlebarsParser.cs lines 276-284: the Assign, then everything up to the next whitespace or
        end of the body, output as a Map span together with the parameter name
        the builder may already hold. */
    method EmitMap(ghost p: nat) returns (o: Outcome)
      requires Ready() && Holding(p) && current.Some?
      modifies this
      ensures Ready()
      ensures o.Pass? ==> Steady() && Here() > old(Here()) && Nested(old(context), context)
      ensures o.Pass? ==>
                Here() == RunEnd(stream.symbols, NextAt(stream, old(Here())), NoneOf(ValueStops))
                && Extends(old(context), context, Piece(Map, false, stream.symbols[p..Here()]),
                           ErrorsOf(stream.symbols[old(Here())..Here()]))
      ensures o.Pass? && old(context.stack) != [] ==>
                ArgumentsAdded(Top(old(context.stack)).children, Top(context.stack).children)
    {
      ghost var h0, c0 := Here(), context;
      o := Take(p);
      if o.Pass? {
        ghost var h1, c1 := Here(), context;
        o := TakeUntil(ValueStops, p);
        if o.Pass? {
          ghost var c2 := context;
          o := Flush(Map, false, p);
          if o.Pass? {
            MapOutput(stream.symbols, p, h0, h1, Here(), c0, c1, c2, context);
          }
        }
      }
    }

    /** A run from c that is not empty: its first symbol satisfies cond. */
    static lemma RunMoves(syms: seq<Symbol>, c: nat, types: seq<SymbolType>)
      requires c < |syms| && syms[c].kind !in types
      ensures RunEnd(syms, c, NoneOf(types)) > c
    {
      assert NoneOf(types)(syms[c]);
    }

    /** HandlebarsParser.cs lines 285-295 of the loop of AtExpressionBody: everything up to the
        next Assign, whitespace or end of the body; unless an Assign follows,
        it is output as a Parameter span. Reading the type of a missing symbol
        throws. */
    method Parameter() returns (ghost q: nat, o: Outcome)
      requires Steady() && current.Some? && current.value.kind != Assign
      modifies this
      ensures Ready()
      ensures o.Pass? ==>
                Holding(q) && (q < Here() ==> At(Assign)) && Nested(old(context), context)
                && (old(current.value.kind) !in ParameterStops ==> Here() > old(Here()))
      ensures o.Pass? ==>
                Here() == RunEnd(stream.symbols, old(Here()), NoneOf(ParameterStops))
                && if At(Assign) then
                     q == old(Here()) && Extends(old(context), context, [], ErrorsOf(stream.symbols[old(Here())..Here()]))
                   else
                     q == Here()
                     && Extends(old(context), context, Piece(SpanKind.Parameter, false, stream.symbols[old(Here())..Here()]),
                                ErrorsOf(stream.symbols[old(Here())..Here()]))
      ensures o.Pass? && old(context.stack) != [] ==>
                ArgumentsAdded(Top(old(context.stack)).children, Top(context.stack).children)
    {
      ghost var h, c0 := Here(), context;
      q := h;
      if current.value.kind !in ParameterStops {
        RunMoves(stream.symbols, h, ParameterStops);
      }
      o := TakeUntil(ParameterStops, h);
      if o.Fail? {
        return;
      }
      if current.None? {
        return q, Fail(NullReference);
      }
      if current.value.kind != Assign {
        ghost var c1 := context;
        o := Flush(SpanKind.Parameter, false, h);
        if o.Pass? {
          ReadThenOutput(c0, c1, context, ErrorsOf(stream.symbols[h..Here()]),
                         Piece(SpanKind.Parameter, false, stream.symbols[h..Here()]));
        }
        q := Here();
      }
      if o.Pass? && c0.stack != [] {
        ArgumentPiece(c0, context, SpanKind.Parameter, stream.symbols[h..Here()], ErrorsOf(stream.symbols[h..Here()]));
      }
    }

    /** The last part of a pass of the loop of AtExpressionBody (HandlebarsParser.cs lines
        276-295): at an Assign, a mapped argument; otherwise a parameter, which
        stays in the builder when an Assign follows it. */
    method Argument(ghost p: nat) returns (ghost q: nat, o: Outcome)
      requires Ready() && Holding(p) && (p < Here() ==> At(Assign)) && current.Some?
      modifies this
      ensures Ready()
      ensures o.Pass? ==>
                Holding(q) && (q < Here() ==> At(Assign)) && Here() >= old(Here()) && Nested(old(context), context)
      ensures o.Pass? && (old(current.value.kind) == Assign || old(current.value.kind) !in ParameterStops) ==>
                Here() > old(Here())
      ensures o.Pass? && old(context.stack) != [] ==>
                ArgumentsAdded(Top(old(context.stack)).children, Top(context.stack).children)
    {
      if current.value.kind == Assign {
        o := EmitMap(p);
        q := Here();
        return;
      }
      q, o := Parameter();
    }

    /** HandlebarsParser.cs lines 262-268 of the loop of AtExpressionBody: a whitespace symbol
        becomes a WhiteSpace span. */
    method Spacing(ghost p: nat) returns (ghost q: nat, o: Outcome)
      requires Ready() && Holding(p) && (p < Here() ==> At(Assign)) && context.stack != [] && current.Some?
      modifies this
      ensures Ready()
      ensures o.Pass? ==> Holding(q) && (q < Here() ==> At(Assign)) && Nested(old(context), context)
      ensures o.Pass? ==> ArgumentsAdded(Top(old(context.stack)).children, Top(context.stack).children)
      ensures o.Pass? ==> if old(current.value.kind) == SymbolType.WhiteSpace then Here() > old(Here()) else Here() == old(Here())
    {
      ghost var h, c0 := Here(), context;
      q := p;
      if current.value.kind == SymbolType.WhiteSpace {
        o := EmitAll([SymbolType.WhiteSpace], SpanKind.WhiteSpace);
        if o.Pass? {
          ArgumentPiece(c0, context, SpanKind.WhiteSpace, stream.symbols[h..Here()], ErrorsOf(stream.symbols[h..Here()]));
          q := Here();
        }
        return;
      }
      o := Pass;
      assert Top(context.stack).children[..|Top(c0.stack).children|] == Top(c0.stack).children;
    }

    /** HandlebarsParser.cs lines 270-274 of the loop of AtExpressionBody: an opening parenthesis
        starts a sub-expression. */
    method Parenthesised(ghost p: nat) returns (ghost q: nat, o: Outcome)
      requires Ready() && Holding(p) && (p < Here() ==> At(Assign)) && context.stack != [] && current.Some?
      modifies this
      ensures Ready()
      ensures o.Pass? ==> Holding(q) && (q < Here() ==> At(Assign)) && Nested(old(context), context)
      ensures o.Pass? ==> ArgumentsAdded(Top(old(context.stack)).children, Top(context.stack).children)
      ensures o.Pass? ==> if old(current.value.kind) == OpenParenthesis then Here() > old(Here()) else Here() == old(Here())
      decreases |stream.symbols| - Here(), 3
    {
      ghost var c0 := context;
      q := p;
      if current.value.kind == OpenParenthesis {
        o := AtSubExpression();
        if o.Pass? {
          SubExpressionIsArgument(Top(c0.stack).children, Top(context.stack).children);
          q := Here();
        }
        return;
      }
      o := Pass;
      assert Top(context.stack).children[..|Top(c0.stack).children|] == Top(c0.stack).children;
    }

    /** One pass of the loop of AtExpressionBody (HandlebarsParser.cs lines 260-296): whitespace,
        then a sub-expression, then an argument; every node added is an
        argument node. The builder holds symbols only when the current one is
        an Assign. */
    method Iteration(ghost p: nat) returns (ghost q: nat, o: Outcome)
      requires Ready() && Holding(p) && (p < Here() ==> At(Assign)) && context.stack != []
      requires current.Some? && current.value.kind !in BodyEnds
      modifies this
      ensures Ready()
      ensures o.Pass? ==> Holding(q) && (q < Here() ==> At(Assign)) && Here() > old(Here()) && Nested(old(context), context)
      ensures o.Pass? ==> ArgumentsAdded(Top(old(context.stack)).children, Top(context.stack).children)
      decreases |stream.symbols| - Here(), 4
    {
      ghost var c0 := context;
      q, o := Spacing(p);
      if o.Fail? {
        return;
      }
      if current.None? {
        return q, Fail(NullReference);
      }
      ghost var c1 := context;
      q, o := Parenthesised(q);
      if o.Fail? {
        return;
      }
      ArgumentsTrans(Top(c0.stack).children, Top(c1.stack).children, Top(context.stack).children);
      if current.None? {
        return q, Fail(NullReference);
      }
      ghost var c2 := context;
      q, o := Argument(q);
      if o.Pass? {
        ArgumentsTrans(Top(c0.stack).children, Top(c2.stack).children, Top(context.stack).children);
      }
    }

    /** The loop of AtExpressionBody (HandlebarsParser.cs lines 260-296): it runs up to the end of
        the body; reading the type of a missing symbol throws. */
    method Arguments() returns (o: Outcome)
      requires Steady() && context.stack != []
      modifies this
      ensures Ready()
      ensures o.Pass? ==> Steady() && Here() >= old(Here()) && Nested(old(context), context)
      ensures o.Pass? ==> current.Some? && current.value.kind in BodyEnds
      ensures o.Pass? ==> ArgumentsAdded(Top(old(context.stack)).children, Top(context.stack).children)
      decreases |stream.symbols| - Here(), 5
    {
      ghost var h0, c0 := Here(), context;
      ghost var p: nat := Here();
      assert Top(context.stack).children[..|Top(c0.stack).children|] == Top(c0.stack).children;
      while true
        invariant Ready() && p <= Here() && Holding(p) && (p < Here() ==> At(Assign))
        invariant Here() >= h0 && Nested(c0, context) && context.stack != []
        invariant ArgumentsAdded(Top(c0.stack).children, Top(context.stack).children)
        decreases |stream.symbols| - Here()
      {
        if current.None? {
          return Fail(NullReference);
        }
        if current.value.kind in BodyEnds {
          assert !At(Assign) && p == Here();
          break;
        }
        ghost var c1 := context;
        p, o := Iteration(p);
        if o.Fail? {
          return;
        }
        ArgumentsTrans(Top(c0.stack).children, Top(c1.stack).children, Top(context.stack).children);
      }
      o := Pass;
    }

    /** HandlebarsParser.cs lines 241-252: the name run becomes an Expression span, and the
        name (the last span's content, or "^" for a negated body without one)
        names the block. */
    method NameBody(negated: bool) returns (name: Option<string>, o: Outcome)
      requires Steady() && context.stack != [] && Top(context.stack).children == []
      modifies this
      ensures Ready()
      ensures o.Pass? ==> Steady() && Here() >= old(Here()) && Level(old(context), context)
      ensures o.Pass? ==> name == BodyName(negated, NameRun(stream, old(Here())))
      ensures o.Pass? ==>
                Top(context.stack) == Top(old(context.stack)).(name := name,
                                                               children := Piece(SpanKind.Expression, false, NameRun(stream, old(Here()))))
    {
      ghost var h0, c0 := Here(), context;
      o := EmitUntil(NameStops, SpanKind.Expression);
      if o.Fail? {
        return None, o;
      }
      ghost var run := stream.symbols[h0..Here()];
      ghost var c1 := context;
      NamedByRun(c0, c1, run);
      var last := LastSpanContentOf(context);
      name := ChosenName(negated, last.value);
      o := SetLabel(NameLabel(name));
      RelabelLevel(c1.stack, NameLabel(name));
    }

    /** HandlebarsParser.cs lines 241-302, inside the ExpressionBody block: the name, then the
        arguments; a block left with no children is ignored. */
    method BodyContent(negated: bool) returns (name: Option<string>, o: Outcome)
      requires Steady() && context.stack != [] && Top(context.stack).children == []
      modifies this
      ensures Ready()
      ensures o.Pass? ==> Steady() && Here() >= old(Here()) && Level(old(context), context)
      ensures o.Pass? ==> name == BodyName(negated, NameRun(stream, old(Here())))
      ensures o.Pass? ==>
                Top(context.stack).kind == Top(old(context.stack)).kind && Top(context.stack).name == name
                && ArgumentsAdded(Piece(SpanKind.Expression, false, NameRun(stream, old(Here()))), Top(context.stack).children)
                && (Top(context.stack).children == [] ==> Top(context.stack).ignore)
      decreases |stream.symbols| - Here(), 6
    {
      name, o := NameBody(negated);
      if o.Pass? {
        o := Arguments();
        if o.Pass? && |Top(context.stack).children| == 0 {
          o := SetLabel(IgnoreLabel);
        }
      }
    }

    /** HandlebarsParser.cs lines 305-309, after the body's block: the enclosing block takes the
        name, and becomes a tag element when the body is negated or named "else". */
    method Rename(negated: bool, name: Option<string>) returns (o: Outcome)
      requires Steady() && context.stack != []
      modifies this`context
      ensures Here() == old(Here())
      ensures Steady() && o.Pass? && Level(old(context), context)
      ensures Top(context.stack) ==
                Top(old(context.stack)).(name := name,
                                         kind := if Retyped(negated, name) then BlockType.TagElement else Top(old(context.stack)).kind)
    {
      if Retyped(negated, name) {
        o := SetLabel(TypeLabel(BlockType.TagElement));
      }
      o := SetLabel(NameLabel(name));
    }

    /** AtExpressionBody: whether the span before it reads "^" makes the body
        negated; the body is an ExpressionBody block; then the enclosing block
        is renamed. */
    method AtExpressionBody() returns (o: Outcome)
      requires Steady()
      modifies this
      ensures Ready()
      ensures o.Pass? ==> Steady() && Here() >= old(Here()) && old(context.stack) != [] && Level(old(context), context)
      ensures o.Pass? ==>
                var negated := LastContent(Top(old(context.stack)).children) == Some("^");
                var name := BodyName(negated, NameRun(stream, old(Here())));
                Top(context.stack).name == name
                && Top(context.stack).kind == (if Retyped(negated, name) then BlockType.TagElement else Top(old(context.stack)).kind)
      ensures o.Pass? ==>
                var negated := LastContent(Top(old(context.stack)).children) == Some("^");
                var before, after := Top(old(context.stack)).children, Top(context.stack).children;
                OneBlockMore(before, after)
                && IsBody(after[|before|].block, BodyName(negated, NameRun(stream, old(Here()))), NameRun(stream, old(Here())))
      decreases |stream.symbols| - Here(), 7
    {
      var last := LastSpanContentOf(context);
      if last.Err? {
        return Fail(last.fault);
      }
      var negated := last.value == Some("^");
      ghost var c0 := context;
      o := OpenBlock(BlockType.ExpressionBody);
      if o.Pass? {
        ghost var c1 := context;
        var name;
        name, o := BodyContent(negated);
        if o.Pass? {
          ghost var c2 := context;
          o := CloseBlock();
          if o.Pass? {
            Closed(c0, c1, c2, context, BlockType.ExpressionBody);
            o := Rename(negated, name);
          }
        }
      }
    }

    /** Inside the SubExpression block: the parenthesis, the body and the
        closing parenthesis; a missing parenthesis is reported. */
    method SubExpressionContent() returns (o: Outcome)
      requires Steady()
      modifies this
      ensures Ready()
      ensures o.Pass? ==>
                Steady() && Here() >= old(Here()) && (old(At(OpenParenthesis)) ==> Here() > old(Here()))
                && Level(old(context), context)
      ensures o.Pass? ==>
                old(context.stack) != [] && Top(context.stack).kind in {Top(old(context.stack)).kind, BlockType.TagElement}
      decreases |stream.symbols| - Here(), if At(OpenParenthesis) then 1 else 8
    {
      var found;
      found, o := EmitRequired(OpenParenthesis, MetaCode);
      if o.Fail? {
        return;
      }
      o := AtExpressionBody();
      if o.Fail? {
        return;
      }
      found, o := EmitRequired(CloseParenthesis, MetaCode);
    }

    /** AtSubExpression: a SubExpression block around a parenthesised body. */
    method AtSubExpression() returns (o: Outcome)
      requires Steady()
      modifies this
      ensures Ready()
      ensures o.Pass? ==>
                Steady() && Here() >= old(Here()) && (old(At(OpenParenthesis)) ==> Here() > old(Here()))
                && (old(context.stack) != [] ==> Nested(old(context), context))
      ensures o.Pass? && old(context.stack) != [] ==>
                var before, after := Top(old(context.stack)).children, Top(context.stack).children;
                OneBlockMore(before, after) && after[|before|].block.kind in {BlockType.SubExpression, BlockType.TagElement}
      decreases |stream.symbols| - Here(), if At(OpenParenthesis) then 2 else 9
    {
      ghost var c0 := context;
      o := OpenBlock(BlockType.SubExpression);
      if o.Fail? {
        return;
      }
      ghost var c1 := context;
      o := SubExpressionContent();
      if o.Fail? {
        return;
      }
      ghost var c2 := context;
      o := CloseBlock();
      if o.Pass? && c0.stack != [] {
        Closed(c0, c1, c2, context, BlockType.SubExpression);
      }
    }

    /** The end of an expression, partial or block tag: the body, an
        optional tilde and the closer. */
    method BodyThenClose() returns (o: Outcome)
      requires Steady()
      modifies this
      ensures Ready()
      ensures o.Pass? ==> Steady() && Here() >= old(Here()) && Level(old(context), context)
    {
      o := AtExpressionBody();
      if o.Pass? {
        o := TagClose();
      }
    }

    /** Inside the Expression block (HandlebarsParser.cs lines 195-226): the opener, an optional
        tilde, the prefix when one is expected (a missing one is reported),
        the body, an optional tilde and the closer. */
    method ExpressionContent(prefix: Option<SymbolType>, prefixKind: SpanKind) returns (o: Outcome)
      requires Steady()
      modifies this
      ensures Ready()
      ensures o.Pass? ==>
                Steady() && Here() >= old(Here()) && (old(current.Some?) ==> Here() > old(Here()))
                && Level(old(context), context)
    {
      o := TagOpen();
      if o.Pass? && prefix.Some? {
        var found;
        found, o := EmitRequired(prefix.value, prefixKind);
      }
      if o.Pass? {
        o := BodyThenClose();
      }
    }

    /** AtExpressionTag: an Expression block around the tag; reading the
        current block's name first throws on an empty stack. */
    method AtExpressionTag(prefix: Option<SymbolType>, prefixKind: SpanKind) returns (o: Outcome)
      requires Steady()
      modifies this
      ensures Ready()
      ensures o.Pass? ==>
                Steady() && Here() >= old(Here()) && (old(current.Some?) ==> Here() > old(Here()))
                && old(context.stack) != [] && Nested(old(context), context)
    {
      if context.stack == [] {
        return Fail(StackEmpty);
      }
      ghost var c0 := context;
      o := OpenBlock(BlockType.Expression);
      if o.Pass? {
        ghost var c1 := context;
        o := ExpressionContent(prefix, prefixKind);
        if o.Pass? {
          ghost var c2 := context;
          o := CloseBlock();
          if o.Pass? {
            Closed(c0, c1, c2, context, BlockType.Expression);
          }
        }
      }
    }

    /** Inside the Partial block (HandlebarsParser.cs lines 321-349): the opener, an optional
        tilde, the arrow, the body, an optional tilde and the closer. */
    method PartialContent() returns (o: Outcome)
      requires Steady()
      modifies this
      ensures Ready()
      ensures o.Pass? ==>
                Steady() && Here() >= old(Here()) && (old(current.Some?) ==> Here() > old(Here()))
                && Level(old(context), context)
    {
      o := TagOpen();
      if o.Pass? {
        o := EmitOne(MetaCode, false);
        if o.Pass? {
          o := BodyThenClose();
        }
      }
    }

    /** AtPartialTag: a Partial block around the tag; reading the current
        block's name first throws on an empty stack. */
    method AtPartialTag() returns (o: Outcome)
      requires Steady()
      modifies this
      ensures Ready()
      ensures o.Pass? ==>
                Steady() && Here() >= old(Here()) && (old(current.Some?) ==> Here() > old(Here()))
                && old(context.stack) != [] && Nested(old(context), context)
    {
      if context.stack == [] {
        return Fail(StackEmpty);
      }
      ghost var c0 := context;
      o := OpenBlock(BlockType.Partial);
      if o.Pass? {
        ghost var c1 := context;
        o := PartialContent();
        if o.Pass? {
          ghost var c2 := context;
          o := CloseBlock();
          if o.Pass? {
            Closed(c0, c1, c2, context, BlockType.Partial);
          }
        }
      }
    }

    /** AtTag's look-ahead (HandlebarsParser.cs lines 384-391 and the tests of 393-505): past
        the opener and an optional tilde the next symbol, and after a
        negation the one after it, choose the construct. The symbols read
        after the opener are returned, to be put back. */
    method LookAhead() returns (k: Result<TagKind>, tilde: Option<Symbol>, negation: Option<Symbol>)
      requires Ready() && current.Some?
      modifies this`index, this`atEnd, this`current, this`endOfFile
      ensures Ready()
      ensures k == TagKindAt(stream.symbols, old(Here()))
      ensures k.Ok? ==>
                current.Some?
                && index == old(index) + 1 + (if tilde.Some? then 1 else 0) + (if negation.Some? then 1 else 0)
                && (tilde.Some? ==> tilde.value == stream.symbols[old(index)])
                && (negation.Some? ==> negation.value == stream.symbols[index - 2])
    {
      tilde, negation := None, None;
      var more := NextToken();
      if current.None? {
        return Err(NullReference), tilde, negation;
      }
      if current.value.kind == Tilde {
        tilde := current;
        more := NextToken();
        if current.None? {
          return Err(NullReference), tilde, negation;
        }
      }
      k, negation := KindOfCurrent();
    }

    /** The construct the current symbol selects; after a negation the next
        symbol is read to decide, and the negation is returned. */
    method KindOfCurrent() returns (k: Result<TagKind>, negation: Option<Symbol>)
      requires Ready() && current.Some?
      modifies this`index, this`atEnd, this`current, this`endOfFile
      ensures Ready()
      ensures k == KindAt(stream.symbols, old(Here()))
      ensures k.Ok? ==>
                current.Some?
                && index == old(index) + (if negation.Some? then 1 else 0)
                && (negation.Some? ==> negation.value == stream.symbols[index - 2])
    {
      negation := None;
      match current.value.kind
      case Hash => k := Ok(BlockTag(Hash));
      case Bang => k := Ok(CommentTag);
      case Slash => k := Ok(BlockEndTag);
      case RightArrow => k := Ok(PartialTag);
      case Negate =>
        negation := current;
        var more := NextToken();
        if current.None? {
          return Err(NullReference), negation;
        }
        k := if current.value.kind == CloseTag then Ok(ExpressionTag(Some(Negate), SpanKind.Expression))
             else Ok(BlockTag(Negate));
      case Ampersand => k := Ok(ExpressionTag(Some(Ampersand), MetaCode));
      case _ => k := Ok(ExpressionTag(None, MetaCode));
    }

    /** The put-backs closing every branch of AtTag: the current symbol, the
        negation and the tilde when read, and the opener, after which the
        opener is read again. Each one ends where the reader stands, so none
        fails. */
    method Rewind(opener: Symbol, tilde: Option<Symbol>, negation: Option<Symbol>)
      requires Valid() && current.Some? && !atEnd
      requires index == Here() + 1 >= 2 + (if tilde.Some? then 1 else 0) + (if negation.Some? then 1 else 0)
      requires opener == stream.symbols[index - 2 - (if tilde.Some? then 1 else 0) - (if negation.Some? then 1 else 0)]
      requires tilde.Some? ==> tilde.value == stream.symbols[index - 2 - (if negation.Some? then 1 else 0)]
      requires negation.Some? ==> negation.value == stream.symbols[index - 2]
      modifies this`index, this`atEnd, this`current, this`endOfFile
      ensures Ready() && !atEnd
      ensures index == old(index) - 1 - (if tilde.Some? then 1 else 0) - (if negation.Some? then 1 else 0)
      ensures current == Some(opener)
    {
      var o := PutBack(current);
      o := PutBack(negation);
      o := PutBack(tilde);
      o := PutBack(Some(opener));
      var more := NextToken();
    }

    /** AtTag's look-ahead (HandlebarsParser.cs lines 384-505): the construct the opener starts
        is chosen, and the view is left as it was. */
    method Classify() returns (k: Result<TagKind>)
      requires Ready() && current.Some?
      modifies this`index, this`atEnd, this`current, this`endOfFile
      ensures Ready()
      ensures k == TagKindAt(stream.symbols, old(Here()))
      ensures k.Ok? ==> index == old(index) && current == old(current) && !atEnd && !endOfFile
    {
      var opener := current.value;
      var tilde, negation;
      k, tilde, negation := LookAhead();
      if k.Ok? {
        Rewind(opener, tilde, negation);
      }
    }

    // ----- Block tags -----

    /** HandlebarsParser.cs lines 35-52, the head of a block tag's element: the opening parts and
        the prefix (a missing prefix is reported), each a MetaCode span. */
    method BlockTagHead(prefix: SymbolType) returns (o: Outcome)
      requires Steady()
      modifies this
      ensures Ready()
      ensures o.Pass? ==>
                Steady() && Here() == PastOptional(stream, OpenEnd(stream, old(Here())), prefix)
                && Grows(old(context), context, BlockHeadParts(stream, old(Here()), prefix))
    {
      ghost var h, c0 := Here(), context;
      o := TagOpen();
      if o.Pass? {
        ghost var c1 := context;
        var found;
        found, o := EmitRequired(prefix, MetaCode);
        if o.Pass? {
          HeadGrows(stream, h, prefix, c0, c1, context);
        }
      }
    }

    /** HandlebarsParser.cs lines 35-54: the head, then the expression body, which names the
        element (negated after a "^" prefix). */
    method ElementName(prefix: SymbolType) returns (tagName: Option<string>, o: Outcome)
      requires Steady() && context.stack != [] && Top(context.stack).children == []
      modifies this
      ensures Ready()
      ensures o.Pass? ==>
                Steady() && Here() >= old(Here()) && (old(current.Some?) ==> Here() > old(Here()))
                && Level(old(context), context) && context.stack != []
                && tagName == Top(context.stack).name == BlockTagName(stream, old(Here()), prefix)
    {
      ghost var h, c0 := Here(), context;
      o := BlockTagHead(prefix);
      if o.Fail? {
        return None, o;
      }
      ghost var nodes := BlockHeadParts(stream, h, prefix);
      GrowsNested(c0, context, nodes);
      HeadThenName(stream, h, prefix, Top(context.stack).children, Here());
      o := AtExpressionBody();
      if o.Fail? {
        return None, o;
      }
      tagName := Top(context.stack).name;
    }

    /** Inside the TagElement block (HandlebarsParser.cs lines 35-73): the element's name; when
        there is one, the descriptor the providers give for it, which the
        element takes; then the closing parts. */
    method TagElementContent(prefix: SymbolType) returns (tagName: Option<string>, descriptor: Option<TagDescriptor>, o: Outcome)
      requires Steady() && context.stack != [] && Top(context.stack).children == []
      modifies this
      ensures Ready()
      ensures o.Pass? ==>
                Steady() && Here() >= old(Here()) && (old(current.Some?) ==> Here() > old(Here()))
                && Level(old(context), context) && tagName == BlockTagName(stream, old(Here()), prefix)
                && (tagName.None? ==> descriptor.None?)
                && (tagName.Some? ==> descriptor.Some? && providers.GetDescriptor(tagName.value) == Ok(descriptor.value))
    {
      descriptor := None;
      tagName, o := ElementName(prefix);
      if o.Fail? {
        return;
      }
      descriptor, o := Describe(tagName);
      if o.Pass? {
        o := TagClose();
      }
    }

    /** HandlebarsParser.cs lines 56-61: a named element takes the descriptor the providers give
        for its name. */
    method Describe(tagName: Option<string>) returns (descriptor: Option<TagDescriptor>, o: Outcome)
      requires Steady() && context.stack != []
      modifies this`context
      ensures Here() == old(Here())
      ensures Steady() && Level(old(context), context)
      ensures o.Pass? ==>
                (tagName.None? ==> descriptor.None?)
                && (tagName.Some? ==> descriptor.Some? && providers.GetDescriptor(tagName.value) == Ok(descriptor.value))
      ensures o.Fail? <==> tagName.Some? && providers.GetDescriptor(tagName.value).Err?
    {
      descriptor, o := None, Pass;
      if tagName.Some? {
        var found := providers.GetDescriptor(tagName.value);
        if found.Err? {
          return None, Fail(found.fault);
        }
        descriptor := Some(found.value);
        o := SetLabel(DescriptorLabel(descriptor));
      }
    }

    /** HandlebarsParser.cs lines 31-74: a TagElement block around the element. */
    method BlockTagElement(prefix: SymbolType) returns (tagName: Option<string>, descriptor: Option<TagDescriptor>, o: Outcome)
      requires Steady() && context.stack != []
      modifies this
      ensures Ready()
      ensures o.Pass? ==>
                Steady() && Here() >= old(Here()) && (old(current.Some?) ==> Here() > old(Here()))
                && Nested(old(context), context) && tagName == BlockTagName(stream, old(Here()), prefix)
                && (tagName.None? ==> descriptor.None?)
                && (tagName.Some? ==> descriptor.Some? && providers.GetDescriptor(tagName.value) == Ok(descriptor.value))
    {
      tagName, descriptor := None, None;
      ghost var c0 := context;
      o := OpenBlock(BlockType.TagElement);
      if o.Pass? {
        ghost var c1 := context;
        tagName, descriptor, o := TagElementContent(prefix);
        if o.Pass? {
          ghost var c2 := context;
          o := CloseBlock();
          if o.Pass? {
            Closed(c0, c1, c2, context, BlockType.TagElement);
          }
        }
      }
    }

    /** Context.MergeCurrentWithParent. */
    method MergeWithParent()
      requires Steady()
      modifies this`context
      ensures Here() == old(Here())
      ensures Steady() && context == MergeSpec(old(context))
    {
      MergeKeepsText(context);
      context := MergeSpec(context);
    }

    /** HandlebarsParser.cs lines 76-87: an "elseif" element in an "if" block merges its Tag block
        into that block; otherwise the Tag block takes the element's name and
        descriptor. */
    method Reinstate(parentName: Option<string>, tagName: Option<string>, descriptor: Option<TagDescriptor>)
      requires Steady() && context.stack != []
      modifies this`context
      ensures Here() == old(Here())
      ensures Steady() && (old(Rooted()) && |old(context.stack)| >= 2 ==> Rooted())
      ensures tagName == Some("elseif") && parentName == Some("if") ==> context == MergeSpec(old(context))
      ensures !(tagName == Some("elseif") && parentName == Some("if")) ==>
                context == old(context).(stack := WithTop(old(context.stack),
                                                          Top(old(context.stack)).(name := tagName, descriptor := descriptor)))
    {
      ghost var c0 := context;
      if tagName == Some("elseif") && parentName == Some("if") {
        MergeWithParent();
        if |c0.stack| >= 2 {
          MergeKeepsBottom(c0);
        }
      } else {
        TakeLabels(tagName, descriptor);
        if |c0.stack| >= 2 {
          WithTopKeepsBottom(c0.stack, Top(c0.stack).(name := tagName, descriptor := descriptor));
        }
      }
    }

    /** HandlebarsParser.cs lines 84-85: the current block takes a name and a descriptor. */
    method TakeLabels(tagName: Option<string>, descriptor: Option<TagDescriptor>)
      requires Steady() && context.stack != []
      modifies this`context
      ensures Here() == old(Here())
      ensures Steady()
      ensures context == old(context).(stack := WithTop(old(context.stack),
                                                        Top(old(context.stack)).(name := tagName, descriptor := descriptor)))
    {
      ghost var c0 := context;
      var o := SetLabel(NameLabel(tagName));
      o := SetLabel(DescriptorLabel(descriptor));
      WithTopTwice(c0.stack, Top(c0.stack).(name := tagName), Top(c0.stack).(name := tagName, descriptor := descriptor));
    }

    // ----- Closing tags -----

    /** HandlebarsParser.cs lines 101-120: the opening parts, the slash (MetaCode) and the name
        run up to the closer or a tilde (an Expression span). */
    method EndTagHead() returns (o: Outcome)
      requires Steady()
      modifies this
      ensures Ready()
      ensures o.Pass? ==>
                Steady() && Here() == EndNameEnd(stream, old(Here()))
                && Extends(old(context), context, EndHeadParts(stream, old(Here())), ErrorsOf(stream.symbols[old(Here())..Here()]))
    {
      ghost var s, p0, c0 := stream.symbols, Here(), context;
      o := TagMarker();
      if o.Fail? {
        return;
      }
      ghost var r, c2 := Here(), context;
      o := EmitUntil(EndNameStops, SpanKind.Expression);
      if o.Fail? {
        return;
      }
      Chain(s, p0, r, Here(), c0, c2, context, MarkedParts(stream, p0), Piece(SpanKind.Expression, false, s[r..Here()]));
    }

    /** HandlebarsParser.cs lines 101-123: the head, then the name read from the last span. */
    method ReadEndName() returns (name: Option<string>, o: Outcome)
      requires Steady() && context.stack != [] && Top(context.stack).children == []
      modifies this
      ensures Ready()
      ensures o.Pass? ==>
                Steady() && Here() == EndNameEnd(stream, old(Here())) && Nested(old(context), context)
                && name == EndTagName(stream, old(Here()))
                && context.errors == old(context.errors) + ErrorsOf(stream.symbols[old(Here())..Here()])
    {
      ghost var h, c0 := Here(), context;
      o := EndTagHead();
      if o.Fail? {
        return None, o;
      }
      GrowsNested(c0, context, EndHeadParts(stream, h));
      HeadThenEndName(context, stream, h);
      var last := LastSpanContentOf(context);
      name := last.value;
    }

    /** HandlebarsParser.cs lines 124-127: a name other than the open block's is reported at
        the current location. */
    method CheckEndName(tagName: Option<string>, name: Option<string>) returns (o: Outcome)
      requires Steady()
      modifies this`context
      ensures Here() == old(Here())
      ensures Steady() && context.stack == old(context.stack)
      ensures o.Pass? ==> context.errors == old(context.errors) + Unmatched(tagName, name, LocationAt(stream, Here()))
    {
      o := Pass;
      if name != tagName {
        o := ReportError(Unbalanced(tagName, name, CurrentLocation()));
      }
    }

    /** HandlebarsParser.cs lines 101-127: the name read, checked against the open block's. */
    method EndTagCheck(tagName: Option<string>) returns (name: Option<string>, o: Outcome)
      requires Steady() && context.stack != [] && Top(context.stack).children == []
      modifies this
      ensures Ready()
      ensures o.Pass? ==>
                Steady() && Here() == EndNameEnd(stream, old(Here())) && Nested(old(context), context)
                && name == EndTagName(stream, old(Here()))
                && context.errors == old(context.errors) + ErrorsOf(stream.symbols[old(Here())..Here()])
                                     + Unmatched(tagName, name, LocationAt(stream, Here()))
    {
      name, o := ReadEndName();
      if o.Pass? {
        o := CheckEndName(tagName, name);
      }
    }

    /** Inside the closing tag's TagElement block (HandlebarsParser.cs lines 101-135): the name
        read names the element; then the closing parts. */
    method EndTagContent(tagName: Option<string>) returns (o: Outcome)
      requires Steady() && context.stack != [] && Top(context.stack).children == []
      modifies this
      ensures Ready()
      ensures o.Pass? ==>
                Steady() && Here() == CloseEnd(stream, EndNameEnd(stream, old(Here()))) && Level(old(context), context)
                && Top(context.stack).kind == Top(old(context.stack)).kind
                && Top(context.stack).name == EndTagName(stream, old(Here()))
                && var m := EndNameEnd(stream, old(Here()));
                   context.errors == old(context.errors) + ErrorsOf(stream.symbols[old(Here())..m])
                                     + Unmatched(tagName, EndTagName(stream, old(Here())), LocationAt(stream, m))
                                     + ErrorsOf(stream.symbols[m..Here()])
    {
      var name;
      name, o := EndTagCheck(tagName);
      if o.Fail? {
        return;
      }
      o := NameAndClose(name);
    }

    /** HandlebarsParser.cs lines 129-140: the element takes the name, then the closing parts. */
    method NameAndClose(name: Option<string>) returns (o: Outcome)
      requires Steady() && context.stack != []
      modifies this
      ensures Ready()
      ensures o.Pass? ==>
                Steady() && Here() == CloseEnd(stream, old(Here())) && Level(old(context), context)
                && Top(context.stack).kind == Top(old(context.stack)).kind && Top(context.stack).name == name
                && context.errors == old(context.errors) + ErrorsOf(stream.symbols[old(Here())..Here()])
    {
      ghost var c1 := context;
      o := SetLabel(NameLabel(name));
      RelabelLevel(c1.stack, NameLabel(name));
      o := TagClose();
    }

    /** HandlebarsParser.cs lines 99-136: a TagElement block around the closing tag, which
        names it. */
    method ClosingElement(tagName: Option<string>) returns (o: Outcome)
      requires Steady() && context.stack != []
      modifies this
      ensures Ready()
      ensures o.Pass? ==>
                Steady() && Here() == CloseEnd(stream, EndNameEnd(stream, old(Here())))
                && Nested(old(context), context) && !old(context.terminated) && !context.terminated
      ensures o.Pass? ==>
                var m := EndNameEnd(stream, old(Here()));
                context.errors == old(context.errors) + ErrorsOf(stream.symbols[old(Here())..m])
                                  + Unmatched(tagName, EndTagName(stream, old(Here())), LocationAt(stream, m))
                                  + ErrorsOf(stream.symbols[m..Here()])
      ensures o.Pass? ==> EndsWithElement(Top(context.stack).children, EndTagName(stream, old(Here())))
    {
      ghost var c0 := context;
      o := OpenBlock(BlockType.TagElement);
      if o.Pass? {
        ghost var c1 := context;
        o := EndTagContent(tagName);
        if o.Pass? {
          ghost var c2 := context;
          o := CloseBlock();
          if o.Pass? {
            Closed(c0, c1, c2, context, BlockType.TagElement);
          }
        }
      }
    }

    /** AtBlockEndTag: the closing tag's element, named after the tag; then
        the block the tag closes ends, the root block ending the parse.
        Reading the current block first throws on an empty stack. */
    method AtBlockEndTag() returns (o: Outcome)
      requires Steady()
      modifies this
      ensures Ready()
      ensures o.Pass? ==>
                Steady() && Here() == CloseEnd(stream, EndNameEnd(stream, old(Here()))) && (old(Rooted()) ==> Rooted())
      ensures o.Pass? ==>
                old(context.stack) != [] && !old(context.terminated)
                && |context.stack| == (if |old(context.stack)| > 1 then |old(context.stack)| - 1 else 1)
                && context.terminated == (|old(context.stack)| == 1)
      ensures o.Pass? ==>
                var m := EndNameEnd(stream, old(Here()));
                context.errors == old(context.errors) + ErrorsOf(stream.symbols[old(Here())..m])
                                  + Unmatched(Top(old(context.stack)).name, EndTagName(stream, old(Here())), LocationAt(stream, m))
                                  + ErrorsOf(stream.symbols[m..Here()])
      ensures o.Pass? && |old(context.stack)| == 1 ==>
                EndsWithElement(Top(context.stack).children, EndTagName(stream, old(Here())))
      ensures o.Pass? && |old(context.stack)| > 1 ==>
                var children := Top(context.stack).children;
                children != [] && children[|children| - 1].BlockNode?
                && var closed := children[|children| - 1].block;
                   closed.kind == Top(old(context.stack)).kind && closed.name == Top(old(context.stack)).name
                   && EndsWithElement(closed.children, EndTagName(stream, old(Here())))
    {
      if context.stack == [] {
        return Fail(StackEmpty);
      }
      ghost var c0 := context;
      o := ClosingElement(Top(context.stack).name);
      if o.Fail? {
        return;
      }
      NestedKeepsBottom(c0, context);
      EndBlockEffect(context);
      o := CloseBlock();
    }

    // ----- Tags and blocks of text -----

    /** AtTag: after the look-ahead, the construct the opener starts is
        parsed; each one reads at least the opener. */
    method AtTag() returns (o: Outcome)
      requires Steady() && current.Some?
      modifies this
      ensures Ready()
      ensures o.Pass? ==> Steady() && Here() > old(Here()) && (old(Rooted()) ==> Rooted())
      decreases |stream.symbols| - Here(), 1
    {
      ghost var h, c0 := Here(), context;
      var k := Classify();
      if k.Err? {
        return Fail(k.fault);
      }
      TagsMove(stream, h);
      match k.value
      case BlockTag(prefix) =>
        o := AtBlockTag(prefix);
      case CommentTag =>
        o := AtCommentTag();
      case BlockEndTag =>
        o := AtBlockEndTag();
      case PartialTag =>
        o := AtPartialTag();
        if o.Pass? && c0.stack != [] {
          NestedKeepsBottom(c0, context);
        }
      case ExpressionTag(prefix, prefixKind) =>
        o := AtExpressionTag(prefix, prefixKind);
        if o.Pass? && c0.stack != [] {
          NestedKeepsBottom(c0, context);
        }
    }

    /** AtBlockTag: a Tag block is started and left open for the closing tag
        to end; its element names it (or, for "elseif" in an "if" block, it
        is merged into that block), and parsing goes on inside it. Reading
        the current block first throws on an empty stack. */
    method AtBlockTag(prefix: SymbolType) returns (o: Outcome)
      requires Steady() && current.Some?
      modifies this
      ensures Ready()
      ensures o.Pass? ==> Steady() && Here() > old(Here()) && (old(Rooted()) ==> Rooted())
      decreases |stream.symbols| - Here(), 0
    {
      if context.stack == [] {
        return Fail(StackEmpty);
      }
      var parent := Top(context.stack);
      ghost var c0 := context;
      o := OpenBlock(BlockType.Tag);
      if o.Fail? {
        return;
      }
      ghost var c1 := context;
      var tagName, descriptor;
      tagName, descriptor, o := BlockTagElement(prefix);
      if o.Fail? {
        return;
      }
      if c0.stack[0].kind == BlockType.Document {
        LevelKeepsBottom(c1, context);
      }
      Reinstate(parent.name, tagName, descriptor);
      o := ParseBlock();
    }

    /** A run from c that is not empty: its first symbol is of one of the types. */
    static lemma RunMovesAny(syms: seq<Symbol>, c: nat, types: seq<SymbolType>)
      requires c < |syms| && syms[c].kind in types
      ensures RunEnd(syms, c, AnyOf(types)) > c
    {
      assert AnyOf(types)(syms[c]);
    }

    /** HandlebarsParser.cs lines 528-531: leading whitespace becomes a WhiteSpace span. */
    method LeadingWhiteSpace() returns (o: Outcome)
      requires Steady()
      modifies this
      ensures Ready()
      ensures o.Pass? ==>
                Steady() && Here() >= old(Here()) && Nested(old(context), context)
                && (old(At(SymbolType.WhiteSpace)) ==> Here() > old(Here()))
    {
      ghost var s, h := stream.symbols, Here();
      o := EmitWhile([SymbolType.WhiteSpace], SpanKind.WhiteSpace);
      if o.Pass? && h < |s| && s[h].kind == SymbolType.WhiteSpace {
        RunMovesAny(s, h, [SymbolType.WhiteSpace]);
      }
    }

    /** HandlebarsParser.cs lines 533-537: the symbols up to a tag opener or whitespace become a
        Text span. */
    method TextUntilTag() returns (o: Outcome)
      requires Steady()
      modifies this
      ensures Ready()
      ensures o.Pass? ==>
                Steady() && Here() >= old(Here()) && Nested(old(context), context)
                && (old(current.Some?) && !old(At(OpenTag)) && !old(At(RawOpenTag)) && !old(At(SymbolType.WhiteSpace))
                    ==> Here() > old(Here()))
    {
      ghost var s, h := stream.symbols, Here();
      ghost var moves := current.Some? && !At(OpenTag) && !At(RawOpenTag) && !At(SymbolType.WhiteSpace);
      if moves {
        RunMoves(s, h, TextStops);
      }
      o := EmitUntil(TextStops, SpanKind.Text);
    }

    /** HandlebarsParser.cs lines 528-538: leading whitespace, then text. Nothing is read only at
        a tag opener or at the end. */
    method TextRun() returns (o: Outcome)
      requires Steady()
      modifies this
      ensures Ready()
      ensures o.Pass? ==>
                Steady() && Here() >= old(Here()) && Nested(old(context), context)
                && (old(current.Some?) && Here() == old(Here()) ==> At(OpenTag) || At(RawOpenTag))
    {
      o := LeadingWhiteSpace();
      if o.Pass? {
        o := TextUntilTag();
      }
    }

    /** ParseBlock: a run of text (HandlebarsParser.cs lines 528-538); at a tag opener the tag
        is parsed. Unless the reader was at the end, something is read. */
    method ParseBlock() returns (o: Outcome)
      requires Steady()
      modifies this
      ensures Ready()
      ensures o.Pass? ==>
                Steady() && Here() >= old(Here()) && (old(current.Some?) ==> Here() > old(Here()))
                && (old(Rooted()) ==> Rooted())
      decreases |stream.symbols| - Here(), 2
    {
      ghost var c0 := context;
      o := TextRun();
      if o.Fail? {
        return;
      }
      if c0.stack != [] {
        NestedKeepsBottom(c0, context);
      }
      if endOfFile || current.None? {
        return;
      }
      if current.value.kind == OpenTag || current.value.kind == RawOpenTag {
        o := AtTag();
      }
    }

    // ----- Documents -----

    /** ParseDocument: a Document block around the template, read block by
        block to the end; an empty template leaves it empty. The block is
        ended on the way out, which ends the parse when no tag was left open.
        The tree then holds the text of every symbol, in order. */
    method ParseDocument() returns (o: Outcome)
      requires Valid() && index == 0 && !atEnd && current.None?
      requires span.accepted == [] && context == ContextState([], false, [], None)
      modifies this
      ensures Valid()
      ensures o.Pass? ==> atEnd && Rooted() && StackText(context.stack) == Contents(stream.symbols)
    {
      o := OpenBlock(BlockType.Document);
      if o.Fail? {
        return;
      }
      var more := NextToken();
      while !endOfFile
        invariant Steady() && Rooted()
        decreases |stream.symbols| - Here()
      {
        o := ParseBlock();
        if o.Fail? {
          return;
        }
      }
      o := CloseDocument();
    }

    /** Ending the document block once every symbol was read: the tree then
        holds the text of the whole template. */
    method CloseDocument() returns (o: Outcome)
      requires Steady() && Rooted() && atEnd
      modifies this
      ensures Valid()
      ensures o.Pass? ==> atEnd && Rooted() && StackText(context.stack) == Contents(stream.symbols)
    {
      ghost var c := context;
      EndBlockKeepsBottom(c);
      o := CloseBlock();
      assert stream.symbols[..Here()] == stream.symbols;
    }

    /** Parsing a template as the service and the tests do: ParseDocument,
        then CompleteParse. The document holds the template's text, and the
        parse succeeds iff no error was reported. */
    method Parse() returns (r: Result<ParserResults>)
      requires Valid() && index == 0 && !atEnd && current.None?
      requires span.accepted == [] && context == ContextState([], false, [], None)
      modifies this
      ensures r.Ok? ==>
                r.value.document.kind == BlockType.Document
                && ChildrenText(r.value.document.children) == Contents(stream.symbols)
                && (r.value.success <==> r.value.errors == [])
    {
      var o := ParseDocument();
      if o.Fail? {
        return Err(o.fault);
      }
      var completed := CompleteParseSpec(context);
      context, r := completed.0, completed.1;
    }
  }
}
