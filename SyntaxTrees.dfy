// The syntax tree the parser builds: spans of symbols
// (FuManchu/Parser/SyntaxTree/Span.cs, src/FuManchu/Parser/SyntaxTree/SpanKind.cs),
// the builder that collects them (src/FuManchu/Parser/SyntaxTree/SpanBuilder.cs)
// and blocks of nodes (src/FuManchu/Parser/SyntaxTree/BlockBuilder.cs,
// src/FuManchu/Parser/SyntaxTree/BlockType.cs).
module SyntaxTrees {
  import opened Wrappers
  import opened SourceLocations
  import opened LocationTracking
  import opened Symbols
  import opened Tags

  datatype SpanKind = MetaCode | Comment | Expression | Text | WhiteSpace | Map | Parameter

  datatype BlockType =
    | Document | Text | Comment | Tag | TagElement | Expression | SubExpression | ExpressionBody | Partial

  /** A span: symbols of one kind whose starts are relative to the span's
      own start, and whether the whitespace collapser has hidden it. */
  datatype Span = Span(kind: SpanKind, symbols: seq<Symbol>, start: SourceLocation, collapsed: bool)
  {
    /** Content: the symbols' texts, in order. */
    function Content(): string { Contents(symbols) }

    /** Length: the length of the content. */
    function Length(): int { |Content()| }
  }

  /** A node of the tree: a span or a block. */
  datatype Node = SpanNode(span: Span) | BlockNode(block: Block)

  /** A built block: its type, name, tag descriptor, children and whether the
      parser marked it to be ignored. */
  datatype Block = Block(kind: BlockType, name: Option<string>, descriptor: Option<TagDescriptor>,
                         children: seq<Node>, ignore: bool)

  /** The text of a node: a span's content, or the texts of a block's
      children in order. */
  function NodeText(n: Node): string
    decreases n, 1
  {
    match n
    case SpanNode(s) => s.Content()
    case BlockNode(b) => ChildrenText(b.children)
  }

  /** The texts of a run of sibling nodes, in order. */
  function ChildrenText(ns: seq<Node>): string
    decreases ns, 0
  {
    if ns == [] then "" else ChildrenText(ns[..|ns| - 1]) + NodeText(ns[|ns| - 1])
  }

  /** The text of two runs of siblings is the text of the first, then the second. */
  lemma {:induction false} ChildrenTextAppend(a: seq<Node>, b: seq<Node>)
    ensures ChildrenText(a + b) == ChildrenText(a) + ChildrenText(b)
    decreases |b|
  {
    if b == [] {
      assert a + b == a;
    } else {
      var n := |b| - 1;
      var ab := a + b;
      assert ab[..|ab| - 1] == a + b[..n];
      assert ab[|ab| - 1] == b[n];
      ChildrenTextAppend(a, b[..n]);
      var x, y, z := ChildrenText(a), ChildrenText(b[..n]), NodeText(b[n]);
      assert ChildrenText(ab) == ChildrenText(a + b[..n]) + z;
      assert ChildrenText(b) == y + z;
      AppendAssociates(x, y, z);
    }
  }

  // ----- Locations inside a span -----

  /** The location a tracker reaches from loc when it reads the symbols' texts
      one call at a time (each call looks no further than its own text). */
  function TrackedEnd(loc: SourceLocation, syms: seq<Symbol>): SourceLocation
    decreases |syms|
  {
    if syms == [] then loc else Advance(TrackedEnd(loc, syms[..|syms| - 1]), syms[|syms| - 1].content)
  }

  /** The i-th symbol starts, relative to the span, where the earlier ones end. */
  predicate RebasedAt(syms: seq<Symbol>, i: int)
    requires 0 <= i < |syms|
  {
    syms[i].start == TrackedEnd(Zero, syms[..i])
  }

  ghost predicate Rebased(syms: seq<Symbol>) {
    forall i :: 0 <= i < |syms| ==> RebasedAt(syms, i)
  }

  /** The offset the tracker reaches is the total length of the texts read. */
  lemma {:induction false} TrackedEndAbsolute(loc: SourceLocation, syms: seq<Symbol>)
    ensures TrackedEnd(loc, syms).absolute == loc.absolute + |Contents(syms)|
    decreases |syms|
  {
    if syms != [] {
      var n := |syms| - 1;
      TrackedEndAbsolute(loc, syms[..n]);
      AdvancePrefixCounts(TrackedEnd(loc, syms[..n]), syms[n].content, |syms[n].content|);
      assert syms == syms[..n] + [syms[n]];
      ContentsAppend(syms[..n], [syms[n]]);
      assert Contents([syms[n]]) == syms[n].content;
    }
  }

  /** In a rebased run, each symbol's offset is the length of the text before it. */
  lemma RebasedOffsets(syms: seq<Symbol>, i: int)
    requires Rebased(syms) && 0 <= i < |syms|
    ensures syms[i].start.absolute == |Contents(syms[..i])|
  {
    assert RebasedAt(syms, i);
    TrackedEndAbsolute(Zero, syms[..i]);
  }

  /** The location the tracker reaches depends only on the texts read. */
  lemma {:induction false} TrackedEndByContent(loc: SourceLocation, a: seq<Symbol>, b: seq<Symbol>)
    requires |a| == |b| && forall k :: 0 <= k < |a| ==> a[k].content == b[k].content
    ensures TrackedEnd(loc, a) == TrackedEnd(loc, b)
    decreases |a|
  {
    if a != [] {
      TrackedEndByContent(loc, a[..|a| - 1], b[..|b| - 1]);
    }
  }

  /** The symbols of a run as a builder holds them once it has accepted them
      all: each is moved to where the texts before it in the span end. */
  function RebasedAll(run: seq<Symbol>): (r: seq<Symbol>)
    ensures |r| == |run|
  {
    seq(|run|, i requires 0 <= i < |run| => run[i].ChangeStart(TrackedEnd(Zero, run[..i])))
  }

  /** RebasedAll gives a rebased run with the same texts. */
  lemma RebasedAllIsRebased(run: seq<Symbol>)
    ensures Rebased(RebasedAll(run))
    ensures forall i :: 0 <= i < |run| ==> RebasedAll(run)[i] == run[i].ChangeStart(RebasedAll(run)[i].start)
  {
    var r := RebasedAll(run);
    forall i | 0 <= i < |r|
      ensures RebasedAt(r, i)
    {
      TrackedEndByContent(Zero, r[..i], run[..i]);
    }
  }

  /** What a SpanBuilder holds: its kind and collapsed flag, the symbols as
      they were accepted since the last reset, and the span's start. */
  datatype BuilderState = BuilderState(kind: SpanKind, collapsed: bool, accepted: seq<Symbol>, start: SourceLocation)

  /** SpanBuilder.Accept on the builder's state: a missing symbol is ignored;
      the first symbol gives the span its start. */
  function AcceptSpec(b: BuilderState, symbol: Option<Symbol>): BuilderState {
    if symbol.None? then b
    else b.(accepted := b.accepted + [symbol.value],
            start := if b.accepted == [] then symbol.value.start else b.start)
  }

  /** SpanBuilder.Build on the builder's state: the span and the reset builder. */
  function BuildSpec(b: BuilderState): (Span, BuilderState) {
    (Span(b.kind, RebasedAll(b.accepted), b.start, b.collapsed), b.(accepted := [], start := Zero))
  }

  class SpanBuilder {
    var symbols: seq<Symbol>
    const tracker: SourceLocationTracker
    var collapsed: bool
    var kind: SpanKind
    var start: SourceLocation
    /** The symbols accepted since the last reset, as they were accepted. */
    ghost var accepted: seq<Symbol>

    /** The builder holds the accepted symbols rebased, and the tracker stands
        where the last one ends. */
    ghost predicate Valid()
      reads this, tracker
    {
      tracker.Valid() && symbols == RebasedAll(accepted)
      && (accepted != [] ==> tracker.currentLocation == TrackedEnd(Zero, accepted))
    }

    ghost function State(): BuilderState
      reads this
    {
      BuilderState(kind, collapsed, accepted, start)
    }

    constructor ()
      ensures Valid() && accepted == [] && start == Zero && kind == MetaCode && !collapsed && fresh(tracker)
    {
      symbols := [];
      accepted := [];
      start := Zero;
      kind := MetaCode;
      collapsed := false;
      tracker := new SourceLocationTracker(Zero);
    }

    /** Accept: a missing symbol is ignored. The first symbol gives the span its
        start and is moved to Zero; each later one is moved to where the
        earlier texts end. Symbols are kept in the order accepted. */
    method Accept(symbol: Option<Symbol>)
      requires Valid()
      modifies this`symbols, this`start, this`accepted, tracker
      ensures Valid() && State() == AcceptSpec(old(State()), symbol)
      ensures symbol.None? ==> accepted == old(accepted) && start == old(start)
      ensures symbol.Some? ==> accepted == old(accepted) + [symbol.value]
      ensures symbol.Some? ==> symbols == old(symbols) + [symbol.value.ChangeStart(TrackedEnd(Zero, old(accepted)))]
      ensures symbol.Some? ==> start == if old(accepted) == [] then symbol.value.start else old(start)
    {
      if symbol.None? {
        return;
      }
      var sym := symbol.value;
      if |symbols| == 0 {
        start := sym.start;
        sym := sym.ChangeStart(Zero);
        tracker.SetCurrentLocation(Zero);
      } else {
        sym := sym.ChangeStart(tracker.currentLocation);
      }
      ghost var before := accepted;
      symbols := symbols + [sym];
      accepted := accepted + [symbol.value];
      tracker.UpdateLocation(sym.content);
      assert accepted[..|before|] == before;
      forall i | 0 <= i < |before|
        ensures accepted[..i] == before[..i]
      {
      }
      assert symbols == RebasedAll(accepted);
    }

    /** Reset: no symbols and a zero start; the kind and the collapsed flag stay. */
    method Reset()
      requires Valid()
      modifies this`symbols, this`start, this`accepted
      ensures Valid() && accepted == [] && start == Zero
    {
      symbols := [];
      accepted := [];
      start := Zero;
    }

    /** Build (new Span(this), which is Span.ReplaceWith): the span takes the
        builder's kind, symbols, start and collapsed flag, and the builder is reset. */
    method Build() returns (s: Span)
      requires Valid()
      modifies this`symbols, this`start, this`accepted
      ensures Valid() && accepted == [] && start == Zero
      ensures (s, State()) == BuildSpec(old(State()))
      ensures Rebased(s.symbols)
    {
      RebasedAllIsRebased(accepted);
      s := Span(kind, symbols, start, collapsed);
      Reset();
    }
  }

  /** The text of a span built from accepted symbols is the accepted texts in
      order: rebasing moves a symbol but keeps its text. */
  lemma AcceptKeepsContent(syms: seq<Symbol>, sym: Symbol, loc: SourceLocation)
    ensures Contents(syms + [sym.ChangeStart(loc)]) == Contents(syms) + sym.content
  {
    ContentsAppend(syms, [sym.ChangeStart(loc)]);
    assert Contents([sym.ChangeStart(loc)]) == sym.content;
  }

  // ----- Span.ChangeStart over a chain of spans -----

  /** The location the i-th span of a chain starts at when the chain is moved to
      loc: each span starts where the text of the one before it ends. */
  function Running(spans: seq<Span>, loc: SourceLocation, i: nat): SourceLocation
    requires i <= |spans|
  {
    if i == 0 then loc else Advance(Running(spans, loc, i - 1), spans[i - 1].Content())
  }

  /** The chain after ChangeStart(loc) on its first span. */
  function Restarted(spans: seq<Span>, loc: SourceLocation): (r: seq<Span>)
    ensures |r| == |spans|
  {
    seq(|spans|, i requires 0 <= i < |spans| => spans[i].(start := Running(spans, loc, i)))
  }

  /** Span.ChangeStart: the span (chain[0]) moves to newStart and each span
      reached through Next (chain[1..]) to the running location past the
      texts before it. */
  method ChangeStart(chain: array<Span>, newStart: SourceLocation)
    requires chain.Length > 0
    modifies chain
    ensures chain[..] == Restarted(old(chain[..]), newStart)
  {
    ghost var spans := chain[..];
    ghost var target := Restarted(spans, newStart);
    chain[0] := chain[0].(start := newStart);
    var tracker := new SourceLocationTracker(newStart);
    tracker.UpdateLocation(chain[0].Content());
    var i := 1;
    while i < chain.Length
      invariant 1 <= i <= chain.Length
      invariant tracker.Valid() && tracker.currentLocation == Running(spans, newStart, i)
      invariant forall k :: 0 <= k < i ==> chain[k] == target[k]
      invariant forall k :: i <= k < chain.Length ==> chain[k] == spans[k]
    {
      RestartNext(chain, i, tracker);
      i := i + 1;
    }
    assert chain[..] == target;
  }

  /** One round of ChangeStart's loop: the span at i starts at the tracker's
      location, and the tracker moves past its text. */
  method RestartNext(chain: array<Span>, i: nat, tracker: SourceLocationTracker)
    requires i < chain.Length && tracker.Valid()
    modifies chain, tracker
    ensures chain[..] == old(chain[..])[i := old(chain[i]).(start := old(tracker.currentLocation))]
    ensures tracker.Valid() && tracker.currentLocation == Advance(old(tracker.currentLocation), old(chain[i]).Content())
  {
    chain[i] := chain[i].(start := tracker.currentLocation);
    tracker.UpdateLocation(chain[i].Content());
  }

  /** The running starts of a chain depend only on the spans' texts. */
  lemma {:induction false} RunningByContent(a: seq<Span>, b: seq<Span>, loc: SourceLocation, i: nat)
    requires |a| == |b| && i <= |a|
    requires forall k :: 0 <= k < |a| ==> a[k].Content() == b[k].Content()
    ensures Running(a, loc, i) == Running(b, loc, i)
  {
    if i > 0 {
      RunningByContent(a, b, loc, i - 1);
    }
  }

  /** Moving a chain keeps every span's text, and moving it again to the same
      place changes nothing. */
  lemma RestartedIdempotent(spans: seq<Span>, loc: SourceLocation)
    ensures forall k :: 0 <= k < |spans| ==> Restarted(spans, loc)[k].Content() == spans[k].Content()
    ensures Restarted(Restarted(spans, loc), loc) == Restarted(spans, loc)
  {
    var r := Restarted(spans, loc);
    forall k | 0 <= k <= |spans|
      ensures Running(r, loc, k) == Running(spans, loc, k)
    {
      RunningByContent(r, spans, loc, k);
    }
  }

  /** The running start of the i-th span is loc moved by the length of the
      texts before it. */
  lemma {:induction false} RunningAbsolute(spans: seq<Span>, loc: SourceLocation, i: nat)
    requires i <= |spans|
    ensures Running(spans, loc, i).absolute == loc.absolute + SpansLength(spans[..i])
  {
    if i > 0 {
      RunningAbsolute(spans, loc, i - 1);
      AdvancePrefixCounts(Running(spans, loc, i - 1), spans[i - 1].Content(), |spans[i - 1].Content()|);
      assert spans[..i][..i - 1] == spans[..i - 1];
    }
  }

  /** The total length of the spans' texts. */
  function SpansLength(spans: seq<Span>): int {
    if spans == [] then 0 else SpansLength(spans[..|spans| - 1]) + spans[|spans| - 1].Length()
  }

  // ----- Comparisons -----

  /** Span.EquivalentTo: same kind, same start, same content. */
  predicate EquivalentTo(a: Span, b: Span) {
    a.kind == b.kind && a.start == b.start && a.Content() == b.Content()
  }

  /** Span.Equals: same kind, same start and the same symbols (SymbolBase.Equals). */
  predicate Equals(a: Span, b: Span) {
    a.kind == b.kind && a.start == b.start && |a.symbols| == |b.symbols|
    && forall i :: 0 <= i < |a.symbols| ==> SameSymbol(a.symbols[i], b.symbols[i])
  }

  /** Equal spans are equivalent. */
  lemma EqualsImpliesEquivalent(a: Span, b: Span)
    requires Equals(a, b)
    ensures EquivalentTo(a, b)
  {
    ContentsPointwise(a.symbols, b.symbols);
  }

  /** Equivalence does not imply equality: the same text split into different symbols. */
  lemma EquivalentButNotEqual()
    ensures var whole := Span(SpanKind.Text, [MakeSymbol(Zero, "ab", SymbolType.Text)], Zero, false);
            var split := Span(SpanKind.Text, [MakeSymbol(Zero, "a", SymbolType.Text),
                                              MakeSymbol(SourceLocation(1, 0, 1), "b", SymbolType.Text)], Zero, false);
            EquivalentTo(whole, split) && !Equals(whole, split)
  {
    var s1 := [MakeSymbol(Zero, "a", SymbolType.Text), MakeSymbol(SourceLocation(1, 0, 1), "b", SymbolType.Text)];
    assert Contents(s1) == "a" + Contents(s1[1..]);
    assert Contents(s1[1..]) == "b" + Contents(s1[2..]);
    assert Contents([MakeSymbol(Zero, "ab", SymbolType.Text)]) == "ab";
  }
}
