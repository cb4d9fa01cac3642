// The whitespace collapser (FuManchu/Parser/WhiteSpaceCollapsingParserVisitor.cs):
// a walk over a parsed tree (FuManchu/Parser/ParserVisitor.cs) that, for each
// `~` marker, sets the Collapsed flag of the whitespace span beside the tag.
// The tree is held in an arena: every node is an index, a block lists the
// indices of its children, and parent, previous and next links are indices.
module Collapsing {
  import opened Wrappers
  import opened Symbols
  import opened SyntaxTrees

  /** A node of the arena: a span with its parent block and the spans before
      and after it, or a block with its type, children and parent. */
  datatype Item =
    | SpanItem(span: Span, parent: Option<nat>, previous: Option<nat>, next: Option<nat>)
    | BlockItem(kind: BlockType, children: seq<nat>, parent: Option<nat>)

  /** A link that is absent or names a block of the arena. */
  predicate RefersToBlock(items: seq<Item>, r: Option<nat>)
  {
    r.None? || (r.value < |items| && items[r.value].BlockItem?)
  }

  /** A link that is absent or names a span of the arena. */
  predicate RefersToSpan(items: seq<Item>, r: Option<nat>)
  {
    r.None? || (r.value < |items| && items[r.value].SpanItem?)
  }

  /** Node i is well linked: parents are blocks, previous and next are spans,
      and a block's children come after it (the arena is in pre-order). */
  predicate ItemValid(items: seq<Item>, i: nat)
    requires i < |items|
  {
    match items[i]
    case SpanItem(_, p, pr, nx) => RefersToBlock(items, p) && RefersToSpan(items, pr) && RefersToSpan(items, nx)
    case BlockItem(_, cs, p) => RefersToBlock(items, p) && forall k :: 0 <= k < |cs| ==> i < cs[k] < |items|
  }

  predicate Valid(items: seq<Item>)
  {
    forall i :: 0 <= i < |items| ==> ItemValid(items, i)
  }

  /** The parent types under which a tilde collapses anything. */
  predicate TagLike(kind: BlockType)
  {
    kind == TagElement || kind == BlockType.Expression || kind == BlockType.Comment
  }

  predicate StartsWith(s: string, prefix: string)
  {
    |prefix| <= |s| && s[..|prefix|] == prefix
  }

  predicate EndsWith(s: string, suffix: string)
  {
    |suffix| <= |s| && s[|s| - |suffix|..] == suffix
  }

  /** List.IndexOf: the first position of x, or -1. */
  function IndexOf(cs: seq<nat>, x: nat): (r: int)
    ensures -1 <= r < |cs|
    ensures r == -1 <==> x !in cs
    ensures r >= 0 ==> cs[r] == x && x !in cs[..r]
  {
    if cs == [] then -1
    else if cs[0] == x then 0
    else
      var r := IndexOf(cs[1..], x);
      assert cs[1..][..if r < 0 then 0 else r] == cs[1..1 + (if r < 0 then 0 else r)];
      if r == -1 then -1 else r + 1
  }

  /** Index t names a whitespace span. */
  predicate IsWhiteSpaceSpan(items: seq<Item>, t: nat)
  {
    t < |items| && items[t].SpanItem? && items[t].span.kind == SpanKind.WhiteSpace
  }

  /** The span CollapseNextWhiteSpace(block, element) flags: the sibling after
      element, when it is a whitespace span (an absent element counts as -1,
      so the first child is looked at). */
  function NextIn(items: seq<Item>, block: Option<nat>, element: nat): Option<nat>
    requires Valid(items) && RefersToBlock(items, block)
  {
    if block.None? then None
    else
      var cs := items[block.value].children;
      var index := IndexOf(cs, element);
      assert ItemValid(items, block.value);
      if index < |cs| - 1 && IsWhiteSpaceSpan(items, cs[index + 1]) then Some(cs[index + 1]) else None
  }

  /** The span CollapsePreviousWhiteSpace(block, element) flags: the sibling
      before element, when it is a whitespace span. */
  function PreviousIn(items: seq<Item>, block: Option<nat>, element: nat): Option<nat>
    requires Valid(items) && RefersToBlock(items, block)
  {
    if block.None? then None
    else
      var cs := items[block.value].children;
      var index := IndexOf(cs, element);
      assert ItemValid(items, block.value);
      if index > 0 && IsWhiteSpaceSpan(items, cs[index - 1]) then Some(cs[index - 1]) else None
  }

  /** The span CollapseNextWhiteSpace(span) flags, or the exception it throws:
      the tag element around the tilde is looked up in its parent scope, and
      when it is the scope's last child the scope itself is looked up one
      level higher. */
  function NextTarget(items: seq<Item>, s: nat): Result<Option<nat>>
    requires Valid(items) && s < |items| && items[s].SpanItem?
  {
    assert ItemValid(items, s);
    var element := items[s].parent;
    if element.None? then Err(NullReference)
    else if !TagLike(items[element.value].kind) then Ok(None)
    else
      assert ItemValid(items, element.value);
      var scope := items[element.value].parent;
      if scope.None? then Err(NullReference)
      else
        assert ItemValid(items, scope.value);
        var cs := items[scope.value].children;
        if cs == [] then Err(ArgumentOutOfRange("index"))
        else if cs[|cs| - 1] == element.value then Ok(NextIn(items, items[scope.value].parent, scope.value))
        else Ok(NextIn(items, scope, element.value))
  }

  /** The span CollapsePreviousWhiteSpace(span) flags, or the exception it
      throws; the scope moves up when the tag element is its first child. */
  function PreviousTarget(items: seq<Item>, s: nat): Result<Option<nat>>
    requires Valid(items) && s < |items| && items[s].SpanItem?
  {
    assert ItemValid(items, s);
    var element := items[s].parent;
    if element.None? then Err(NullReference)
    else if !TagLike(items[element.value].kind) then Ok(None)
    else
      assert ItemValid(items, element.value);
      var scope := items[element.value].parent;
      if scope.None? then Err(NullReference)
      else
        assert ItemValid(items, scope.value);
        var cs := items[scope.value].children;
        if cs == [] then Err(ArgumentOutOfRange("index"))
        else if cs[0] == element.value then Ok(PreviousIn(items, items[scope.value].parent, scope.value))
        else Ok(PreviousIn(items, scope, element.value))
  }

  /** The previous span is a MetaCode span ending with the opening braces. */
  predicate AfterOpener(items: seq<Item>, s: nat)
    requires Valid(items) && s < |items| && items[s].SpanItem?
  {
    assert ItemValid(items, s);
    var p := items[s].previous;
    p.Some? && items[p.value].span.kind == MetaCode && EndsWith(items[p.value].span.Content(), "{{")
  }

  /** The next span is a MetaCode span starting with the closing braces. */
  predicate BeforeCloser(items: seq<Item>, s: nat)
    requires Valid(items) && s < |items| && items[s].SpanItem?
  {
    assert ItemValid(items, s);
    var n := items[s].next;
    n.Some? && items[n.value].span.kind == MetaCode && StartsWith(items[n.value].span.Content(), "}}")
  }

  /** What VisitTilde flags: a tilde right after `{{` collapses backwards,
      otherwise one right before `}}` collapses forwards. */
  function TildeTarget(items: seq<Item>, s: nat): Result<Option<nat>>
    requires Valid(items) && s < |items| && items[s].SpanItem?
  {
    if AfterOpener(items, s) then PreviousTarget(items, s)
    else if BeforeCloser(items, s) then NextTarget(items, s)
    else Ok(None)
  }

  /** The span is MetaCode and its first symbol is a tilde. */
  predicate IsTilde(sp: Span)
  {
    sp.kind == MetaCode && sp.symbols != [] && sp.symbols[0].kind == Tilde
  }

  /** What VisitSpan flags: only a tilde span does anything. */
  function SpanTarget(items: seq<Item>, s: nat): Result<Option<nat>>
    requires Valid(items) && s < |items| && items[s].SpanItem?
  {
    if IsTilde(items[s].span) then TildeTarget(items, s) else Ok(None)
  }

  /** The spans a visit of node c flags, in visit order, and whether an
      exception ended it: a span is visited by VisitSpan, a block by walking
      its children. */
  function NodeTargets(items: seq<Item>, c: nat): (seq<nat>, Outcome)
    requires Valid(items) && c < |items|
    decreases |items| - c, 2, 0
  {
    if items[c].BlockItem? then BlockTargets(items, c)
    else
      match SpanTarget(items, c)
      case Err(f) => ([], Fail(f))
      case Ok(None) => ([], Pass)
      case Ok(Some(t)) => ([t], Pass)
  }

  /** The spans a walk of block b flags. */
  function BlockTargets(items: seq<Item>, b: nat): (seq<nat>, Outcome)
    requires Valid(items) && b < |items| && items[b].BlockItem?
    decreases |items| - b, 1, 0
  {
    ChildrenTargets(items, b, |items[b].children|)
  }

  /** The spans flagged while visiting the first k children of block b; an
      exception skips the children after it. */
  function ChildrenTargets(items: seq<Item>, b: nat, k: nat): (seq<nat>, Outcome)
    requires Valid(items) && b < |items| && items[b].BlockItem? && k <= |items[b].children|
    decreases |items| - b, 0, k
  {
    if k == 0 then ([], Pass)
    else
      var (ts, o) := ChildrenTargets(items, b, k - 1);
      if o.Fail? then (ts, o)
      else
        assert ItemValid(items, b);
        var (us, o') := NodeTargets(items, items[b].children[k - 1]);
        (ts + us, o')
  }

  /** Once an exception ends the walk, the later children change nothing. */
  lemma {:induction false} ChildrenTargetsStop(items: seq<Item>, b: nat, i: nat, k: nat)
    requires Valid(items) && b < |items| && items[b].BlockItem? && i <= k <= |items[b].children|
    requires ChildrenTargets(items, b, i).1.Fail?
    ensures ChildrenTargets(items, b, k) == ChildrenTargets(items, b, i)
    decreases k
  {
    if k > i {
      ChildrenTargetsStop(items, b, i, k - 1);
    }
  }

  /** The arena with span t's Collapsed flag set. */
  function Mark(items: seq<Item>, t: nat): (r: seq<Item>)
    ensures |r| == |items|
  {
    if t < |items| && items[t].SpanItem? then items[t := items[t].(span := items[t].span.(collapsed := true))]
    else items
  }

  /** The arena with each of ts flagged, in order. */
  function MarkAll(items: seq<Item>, ts: seq<nat>): (r: seq<Item>)
    ensures |r| == |items|
    decreases |ts|
  {
    if ts == [] then items else Mark(MarkAll(items, ts[..|ts| - 1]), ts[|ts| - 1])
  }

  /** A node with its Collapsed flag cleared. */
  function Erase(x: Item): Item
  {
    if x.SpanItem? then x.(span := x.span.(collapsed := false)) else x
  }

  /** Two arenas that differ at most in Collapsed flags. */
  predicate SameShape(a: seq<Item>, b: seq<Item>)
  {
    |a| == |b| && forall i :: 0 <= i < |a| ==> Erase(a[i]) == Erase(b[i])
  }

  /** Flagging a span keeps the shape of the tree. */
  lemma MarkKeepsShape(items: seq<Item>, t: nat)
    ensures SameShape(items, Mark(items, t))
  {
  }

  lemma {:induction false} MarkAllKeepsShape(items: seq<Item>, ts: seq<nat>)
    ensures SameShape(items, MarkAll(items, ts))
    decreases |ts|
  {
    if ts != [] {
      MarkAllKeepsShape(items, ts[..|ts| - 1]);
      MarkKeepsShape(MarkAll(items, ts[..|ts| - 1]), ts[|ts| - 1]);
    }
  }

  lemma {:induction false} MarkAllAppend(items: seq<Item>, ts: seq<nat>, us: seq<nat>)
    ensures MarkAll(items, ts + us) == MarkAll(MarkAll(items, ts), us)
    decreases |us|
  {
    if us == [] {
      assert ts + us == ts;
    } else {
      assert (ts + us)[..|ts + us| - 1] == ts + us[..|us| - 1];
      MarkAllAppend(items, ts, us[..|us| - 1]);
    }
  }

  /** Validity depends only on the shape of the tree. */
  lemma ShapeValid(a: seq<Item>, b: seq<Item>)
    requires SameShape(a, b) && Valid(a)
    ensures Valid(b)
  {
    forall i | 0 <= i < |b|
      ensures ItemValid(b, i)
    {
      assert ItemValid(a, i);
      assert Erase(a[i]) == Erase(b[i]);
      match a[i]
      case SpanItem(_, p, pr, nx) =>
        assert p.Some? ==> Erase(a[p.value]) == Erase(b[p.value]);
        assert pr.Some? ==> Erase(a[pr.value]) == Erase(b[pr.value]);
        assert nx.Some? ==> Erase(a[nx.value]) == Erase(b[nx.value]);
      case BlockItem(_, cs, p) =>
        assert p.Some? ==> Erase(a[p.value]) == Erase(b[p.value]);
    }
  }

  /** Whether a child of block x is a whitespace span does not depend on any
      Collapsed flag. */
  lemma ShapeSiblings(a: seq<Item>, b: seq<Item>, x: nat)
    requires SameShape(a, b) && Valid(a) && x < |a| && a[x].BlockItem?
    ensures b[x] == a[x]
    ensures forall k :: 0 <= k < |a[x].children| ==>
      (IsWhiteSpaceSpan(a, a[x].children[k]) <==> IsWhiteSpaceSpan(b, a[x].children[k]))
  {
    assert Erase(a[x]) == Erase(b[x]);
    assert ItemValid(a, x);
    forall k | 0 <= k < |a[x].children|
      ensures IsWhiteSpaceSpan(a, a[x].children[k]) <==> IsWhiteSpaceSpan(b, a[x].children[k])
    {
      var c := a[x].children[k];
      assert Erase(a[c]) == Erase(b[c]);
    }
  }

  /** The sibling lookups do not depend on any Collapsed flag. */
  lemma ShapeIn(a: seq<Item>, b: seq<Item>, block: Option<nat>, element: nat)
    requires SameShape(a, b) && Valid(a) && Valid(b) && RefersToBlock(a, block) && RefersToBlock(b, block)
    ensures NextIn(a, block, element) == NextIn(b, block, element)
    ensures PreviousIn(a, block, element) == PreviousIn(b, block, element)
  {
    if block.Some? {
      ShapeSiblings(a, b, block.value);
    }
  }

  /** The scope lookups around a tilde do not depend on any Collapsed flag. */
  lemma ShapeScope(a: seq<Item>, b: seq<Item>, s: nat)
    requires SameShape(a, b) && Valid(a) && Valid(b) && s < |a| && a[s].SpanItem?
    ensures b[s].SpanItem?
    ensures NextTarget(a, s) == NextTarget(b, s) && PreviousTarget(a, s) == PreviousTarget(b, s)
  {
    assert Erase(a[s]) == Erase(b[s]);
    assert ItemValid(a, s);
    var p := a[s].parent;
    if p.Some? {
      assert Erase(a[p.value]) == Erase(b[p.value]);
      assert ItemValid(a, p.value);
      var q := a[p.value].parent;
      if q.Some? {
        ShapeSiblings(a, b, q.value);
        assert ItemValid(a, q.value) && ItemValid(b, q.value);
        ShapeIn(a, b, a[q.value].parent, q.value);
        ShapeIn(a, b, q, p.value);
      }
    }
  }

  /** The span a tilde targets does not depend on any Collapsed flag. */
  lemma ShapeSpanTarget(a: seq<Item>, b: seq<Item>, s: nat)
    requires SameShape(a, b) && Valid(a) && Valid(b) && s < |a| && a[s].SpanItem?
    ensures b[s].SpanItem? && SpanTarget(a, s) == SpanTarget(b, s)
  {
    ShapeScope(a, b, s);
    assert Erase(a[s]) == Erase(b[s]);
    assert ItemValid(a, s);
    var pr := a[s].previous;
    if pr.Some? {
      assert Erase(a[pr.value]) == Erase(b[pr.value]);
    }
    var nx := a[s].next;
    if nx.Some? {
      assert Erase(a[nx.value]) == Erase(b[nx.value]);
    }
    assert AfterOpener(a, s) == AfterOpener(b, s);
    assert BeforeCloser(a, s) == BeforeCloser(b, s);
  }

  /** The walk flags the same spans and ends the same way on arenas of the
      same shape. */
  lemma {:induction false} ShapeNodeTargets(a: seq<Item>, b: seq<Item>, x: nat)
    requires SameShape(a, b) && Valid(a) && Valid(b) && x < |a|
    ensures NodeTargets(a, x) == NodeTargets(b, x)
    decreases |a| - x, 2, 0
  {
    assert Erase(a[x]) == Erase(b[x]);
    if a[x].BlockItem? {
      ShapeBlockTargets(a, b, x);
    } else {
      ShapeSpanTarget(a, b, x);
    }
  }

  lemma {:induction false} ShapeBlockTargets(a: seq<Item>, b: seq<Item>, x: nat)
    requires SameShape(a, b) && Valid(a) && Valid(b) && x < |a| && a[x].BlockItem?
    ensures b[x].BlockItem? && BlockTargets(a, x) == BlockTargets(b, x)
    decreases |a| - x, 1, 0
  {
    ShapeSiblings(a, b, x);
    ShapeChildrenTargets(a, b, x, |a[x].children|);
  }

  lemma {:induction false} ShapeChildrenTargets(a: seq<Item>, b: seq<Item>, x: nat, k: nat)
    requires SameShape(a, b) && Valid(a) && Valid(b) && x < |a| && a[x].BlockItem?
    requires k <= |a[x].children|
    ensures b[x] == a[x] && ChildrenTargets(a, x, k) == ChildrenTargets(b, x, k)
    decreases |a| - x, 0, k
  {
    ShapeSiblings(a, b, x);
    if k > 0 {
      ShapeChildrenTargets(a, b, x, k - 1);
      assert ItemValid(a, x);
      ShapeNodeTargets(a, b, a[x].children[k - 1]);
    }
  }

  /** Every span VisitSpan flags is a whitespace span, inside a tag element,
      expression or comment, and the span is a tilde. */
  lemma SpanTargetIsWhiteSpace(items: seq<Item>, s: nat)
    requires Valid(items) && s < |items| && items[s].SpanItem?
    ensures SpanTarget(items, s).Ok? && SpanTarget(items, s).value.Some? ==>
      IsWhiteSpaceSpan(items, SpanTarget(items, s).value.value)
      && IsTilde(items[s].span)
      && items[s].parent.Some?
      && var e := items[s].parent.value; e < |items| && items[e].BlockItem? && TagLike(items[e].kind)
  {
    assert ItemValid(items, s);
  }

  /** Every span a walk flags is a whitespace span. */
  lemma {:induction false} BlockTargetsAreWhiteSpace(items: seq<Item>, b: nat)
    requires Valid(items) && b < |items| && items[b].BlockItem?
    ensures forall j :: 0 <= j < |BlockTargets(items, b).0| ==> IsWhiteSpaceSpan(items, BlockTargets(items, b).0[j])
    decreases |items| - b, 1, 0
  {
    ChildrenTargetsAreWhiteSpace(items, b, |items[b].children|);
  }

  lemma {:induction false} ChildrenTargetsAreWhiteSpace(items: seq<Item>, b: nat, k: nat)
    requires Valid(items) && b < |items| && items[b].BlockItem? && k <= |items[b].children|
    ensures forall j :: 0 <= j < |ChildrenTargets(items, b, k).0| ==> IsWhiteSpaceSpan(items, ChildrenTargets(items, b, k).0[j])
    decreases |items| - b, 0, k
  {
    if k > 0 {
      ChildrenTargetsAreWhiteSpace(items, b, k - 1);
      assert ItemValid(items, b);
      NodeTargetsAreWhiteSpace(items, items[b].children[k - 1]);
    }
  }

  lemma {:induction false} NodeTargetsAreWhiteSpace(items: seq<Item>, c: nat)
    requires Valid(items) && c < |items|
    ensures forall j :: 0 <= j < |NodeTargets(items, c).0| ==> IsWhiteSpaceSpan(items, NodeTargets(items, c).0[j])
    decreases |items| - c, 2, 0
  {
    if items[c].BlockItem? {
      BlockTargetsAreWhiteSpace(items, c);
    } else {
      SpanTargetIsWhiteSpace(items, c);
    }
  }

  /** No span knows the spans before and after it. */
  predicate Unlinked(items: seq<Item>)
  {
    forall i :: 0 <= i < |items| && items[i].SpanItem? ==> items[i].previous.None? && items[i].next.None?
  }

  /** Without previous and next links a tilde sees neither `{{` nor `}}`, so
      a walk flags nothing and never fails. */
  lemma {:induction false} UnlinkedNodeTargets(items: seq<Item>, c: nat)
    requires Valid(items) && Unlinked(items) && c < |items|
    ensures NodeTargets(items, c) == ([], Pass)
    decreases |items| - c, 2, 0
  {
    if items[c].BlockItem? {
      UnlinkedChildrenTargets(items, c, |items[c].children|);
    }
  }

  lemma {:induction false} UnlinkedChildrenTargets(items: seq<Item>, b: nat, k: nat)
    requires Valid(items) && Unlinked(items) && b < |items| && items[b].BlockItem? && k <= |items[b].children|
    ensures ChildrenTargets(items, b, k) == ([], Pass)
    decreases |items| - b, 0, k
  {
    if k > 0 {
      UnlinkedChildrenTargets(items, b, k - 1);
      assert ItemValid(items, b);
      UnlinkedNodeTargets(items, items[b].children[k - 1]);
      var empty: seq<nat> := [];
      assert empty + empty == empty;
    }
  }

  /** Flagging whitespace spans changes nothing but their Collapsed flags,
      and only from false to true. */
  lemma {:induction false} MarkAllOnlyFlagsWhiteSpace(items: seq<Item>, ts: seq<nat>)
    requires forall j :: 0 <= j < |ts| ==> IsWhiteSpaceSpan(items, ts[j])
    ensures |MarkAll(items, ts)| == |items|
    ensures forall i :: 0 <= i < |items| ==>
      MarkAll(items, ts)[i] == items[i]
      || (IsWhiteSpaceSpan(items, i) && MarkAll(items, ts)[i] == items[i].(span := items[i].span.(collapsed := true)))
    ensures forall i :: 0 <= i < |items| && i in ts ==> MarkAll(items, ts)[i].SpanItem? && MarkAll(items, ts)[i].span.collapsed
    decreases |ts|
  {
    if ts != [] {
      var init := ts[..|ts| - 1];
      MarkAllOnlyFlagsWhiteSpace(items, init);
      forall i | 0 <= i < |items| && i in ts
        ensures MarkAll(items, ts)[i].span.collapsed
      {
        if i != ts[|ts| - 1] {
          assert i in init;
        }
      }
    }
  }

  /** Flagging the same spans a second time changes nothing. */
  lemma {:induction false} MarkAllTwice(items: seq<Item>, ts: seq<nat>, us: seq<nat>)
    requires forall j :: 0 <= j < |us| ==> us[j] in ts
    ensures MarkAll(MarkAll(items, ts), us) == MarkAll(items, ts)
    decreases |us|
  {
    if us != [] {
      MarkAllTwice(items, ts, us[..|us| - 1]);
      var t := us[|us| - 1];
      MarkAllMarked(items, ts, t);
    }
  }

  /** A span already flagged stays the same when flagged again. */
  lemma {:induction false} MarkAllMarked(items: seq<Item>, ts: seq<nat>, t: nat)
    requires t in ts
    ensures Mark(MarkAll(items, ts), t) == MarkAll(items, ts)
    decreases |ts|
  {
    var init := ts[..|ts| - 1];
    var last := ts[|ts| - 1];
    if t == last {
    } else {
      assert t in init;
      MarkAllMarked(items, init, t);
      MarkAllKeepsShape(items, init);
    }
  }

  /** Running the collapser twice equals running it once: the second walk
      flags the same spans, all of them already flagged. */
  lemma CollapseIdempotent(items: seq<Item>, b: nat)
    requires Valid(items) && b < |items| && items[b].BlockItem?
    ensures var once := MarkAll(items, BlockTargets(items, b).0);
      Valid(once) && once[b].BlockItem?
      && BlockTargets(once, b) == BlockTargets(items, b)
      && MarkAll(once, BlockTargets(once, b).0) == once
  {
    var ts := BlockTargets(items, b).0;
    var once := MarkAll(items, ts);
    MarkAllKeepsShape(items, ts);
    ShapeValid(items, once);
    ShapeBlockTargets(items, once, b);
    MarkAllTwice(items, ts, ts);
  }

  /** A walk over an arena: the visitor's methods, flagging spans in place. */
  class WhiteSpaceCollapser {
    var items: seq<Item>

    constructor(items: seq<Item>)
      ensures this.items == items
    {
      this.items := items;
    }

    /** Flags span t. */
    method Collapse(t: nat)
      requires IsWhiteSpaceSpan(items, t)
      modifies this
      ensures items == Mark(old(items), t)
    {
      items := items[t := items[t].(span := items[t].span.(collapsed := true))];
    }

    /** CollapseNextWhiteSpace(block, element). */
    method CollapseNextIn(block: Option<nat>, element: nat)
      requires Valid(items) && RefersToBlock(items, block)
      modifies this
      ensures NextIn(old(items), block, element).Some? ==> items == Mark(old(items), NextIn(old(items), block, element).value)
      ensures NextIn(old(items), block, element).None? ==> items == old(items)
    {
      if block.None? {
        return;
      }
      assert ItemValid(items, block.value);
      var children := items[block.value].children;
      var index := IndexOf(children, element);
      if index < |children| - 1 {
        var potential := children[index + 1];
        if items[potential].SpanItem? && items[potential].span.kind == SpanKind.WhiteSpace {
          Collapse(potential);
        }
      }
    }

    /** CollapsePreviousWhiteSpace(block, element). */
    method CollapsePreviousIn(block: Option<nat>, element: nat)
      requires Valid(items) && RefersToBlock(items, block)
      modifies this
      ensures PreviousIn(old(items), block, element).Some? ==> items == Mark(old(items), PreviousIn(old(items), block, element).value)
      ensures PreviousIn(old(items), block, element).None? ==> items == old(items)
    {
      if block.None? {
        return;
      }
      assert ItemValid(items, block.value);
      var children := items[block.value].children;
      var index := IndexOf(children, element);
      if index > 0 {
        var potential := children[index - 1];
        if items[potential].SpanItem? && items[potential].span.kind == SpanKind.WhiteSpace {
          Collapse(potential);
        }
      }
    }

    /** CollapseNextWhiteSpace(span). */
    method CollapseNext(s: nat) returns (o: Outcome)
      requires Valid(items) && s < |items| && items[s].SpanItem?
      modifies this
      ensures Applied(old(items), NextTarget(old(items), s), items, o)
    {
      assert ItemValid(items, s);
      var element := items[s].parent;
      if element.None? {
        return Fail(NullReference);
      }
      if TagLike(items[element.value].kind) {
        assert ItemValid(items, element.value);
        var scope := items[element.value].parent;
        if scope.None? {
          return Fail(NullReference);
        }
        assert ItemValid(items, scope.value);
        var children := items[scope.value].children;
        if children == [] {
          return Fail(ArgumentOutOfRange("index"));
        }
        if children[|children| - 1] == element.value {
          CollapseNextIn(items[scope.value].parent, scope.value);
        } else {
          CollapseNextIn(scope, element.value);
        }
      }
      return Pass;
    }

    /** CollapsePreviousWhiteSpace(span). */
    method CollapsePrevious(s: nat) returns (o: Outcome)
      requires Valid(items) && s < |items| && items[s].SpanItem?
      modifies this
      ensures Applied(old(items), PreviousTarget(old(items), s), items, o)
    {
      assert ItemValid(items, s);
      var element := items[s].parent;
      if element.None? {
        return Fail(NullReference);
      }
      if TagLike(items[element.value].kind) {
        assert ItemValid(items, element.value);
        var scope := items[element.value].parent;
        if scope.None? {
          return Fail(NullReference);
        }
        assert ItemValid(items, scope.value);
        var children := items[scope.value].children;
        if children == [] {
          return Fail(ArgumentOutOfRange("index"));
        }
        if children[0] == element.value {
          CollapsePreviousIn(items[scope.value].parent, scope.value);
        } else {
          CollapsePreviousIn(scope, element.value);
        }
      }
      return Pass;
    }

    /** VisitTilde. */
    method VisitTilde(s: nat) returns (o: Outcome)
      requires Valid(items) && s < |items| && items[s].SpanItem?
      modifies this
      ensures Applied(old(items), TildeTarget(old(items), s), items, o)
    {
      assert ItemValid(items, s);
      var previous := items[s].previous;
      var next := items[s].next;
      if previous.Some? && items[previous.value].span.kind == MetaCode
        && EndsWith(items[previous.value].span.Content(), "{{")
      {
        o := CollapsePrevious(s);
      } else if next.Some? && items[next.value].span.kind == MetaCode
        && StartsWith(items[next.value].span.Content(), "}}")
      {
        o := CollapseNext(s);
      } else {
        o := Pass;
      }
    }

    /** VisitSpan. */
    method VisitSpan(s: nat) returns (o: Outcome)
      requires Valid(items) && s < |items| && items[s].SpanItem?
      modifies this
      ensures Applied(old(items), SpanTarget(old(items), s), items, o)
    {
      var span := items[s].span;
      if span.kind == MetaCode && span.symbols != [] && span.symbols[0].kind == Tilde {
        o := VisitTilde(s);
      } else {
        o := Pass;
      }
    }

    /** SyntaxTreeNode.Accept: a span is visited by VisitSpan, a block by
        VisitBlock. */
    method VisitNode(c: nat) returns (o: Outcome)
      requires Valid(items) && c < |items|
      modifies this
      ensures items == MarkAll(old(items), NodeTargets(old(items), c).0)
      ensures o == NodeTargets(old(items), c).1
      decreases |items| - c, 1
    {
      if items[c].BlockItem? {
        o := VisitBlock(c);
      } else {
        o := VisitSpan(c);
        assert MarkAll(old(items), []) == old(items);
      }
    }

    /** ParserVisitor.VisitBlock: visits the children in order; an exception
        ends the walk. */
    method VisitBlock(b: nat) returns (o: Outcome)
      requires Valid(items) && b < |items| && items[b].BlockItem?
      modifies this
      ensures items == MarkAll(old(items), BlockTargets(old(items), b).0)
      ensures o == BlockTargets(old(items), b).1
      decreases |items| - b, 0
    {
      ghost var start := items;
      var children := items[b].children;
      assert ItemValid(items, b);
      var i := 0;
      o := Pass;
      while i < |children|
        invariant 0 <= i <= |children|
        invariant items == MarkAll(start, ChildrenTargets(start, b, i).0)
        invariant ChildrenTargets(start, b, i).1 == Pass && o == Pass
        invariant SameShape(start, items) && Valid(items)
        decreases |children| - i
      {
        var c := children[i];
        ghost var ts := ChildrenTargets(start, b, i).0;
        ShapeNodeTargets(start, items, c);
        o := VisitNode(c);
        MarkAllAppend(start, ts, NodeTargets(start, c).0);
        if o.Fail? {
          ChildrenTargetsStop(start, b, i + 1, |children|);
          return;
        }
        i := i + 1;
        MarkAllKeepsShape(start, ChildrenTargets(start, b, i).0);
        ShapeValid(start, items);
      }
    }
  }

  /** The effect of one visit whose decision is r: on an exception the arena
      is unchanged and the visit fails; otherwise the chosen span, if any, is
      flagged and the visit passes. */
  predicate Applied(before: seq<Item>, r: Result<Option<nat>>, after: seq<Item>, o: Outcome)
  {
    match r
    case Err(f) => o == Fail(f) && after == before
    case Ok(None) => o == Pass && after == before
    case Ok(Some(t)) => o == Pass && after == Mark(before, t)
  }
}
