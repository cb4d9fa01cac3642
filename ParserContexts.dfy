// ParserContext (FuManchu/Parser/ParserContext.cs): the stack of blocks the
// parser is building, the errors it has reported (ParserErrorSink) and the
// flag that ends the parse; ParserResults (FuManchu/Parser/ParserResults.cs).
// Each operation is specified by a function of the context's state, and the
// properties of the operations are lemmas about those functions.
module ParserContexts {
  import opened Wrappers
  import opened Symbols
  import opened Tags
  import opened SyntaxTrees

  /** A BlockBuilder on the stack. */
  datatype BlockFrame = BlockFrame(kind: BlockType, name: Option<string>, descriptor: Option<TagDescriptor>,
                                   children: seq<Node>, ignore: bool)

  /** BlockBuilder.Build: the block takes the builder's type, name, descriptor and children. */
  function BuildBlock(f: BlockFrame): Block {
    Block(f.kind, f.name, f.descriptor, f.children, f.ignore)
  }

  datatype ParserResults = ParserResults(success: bool, document: Block, errors: seq<Error>)

  /** The state of a context: the stack (bottom first), the flag set when the
      root block ends, the error sink and the last span added. */
  datatype ContextState = ContextState(stack: seq<BlockFrame>, terminated: bool, errors: seq<Error>,
                                       lastSpan: Option<Span>)

  const Completed := InvalidOperation("Parsing has been completed.")

  function Top(stack: seq<BlockFrame>): BlockFrame
    requires stack != []
  {
    stack[|stack| - 1]
  }

  /** The stack with its top frame replaced. */
  function WithTop(stack: seq<BlockFrame>, f: BlockFrame): (r: seq<BlockFrame>)
    requires stack != []
    ensures |r| == |stack| && r[..|r| - 1] == stack[..|stack| - 1] && Top(r) == f
  {
    stack[..|stack| - 1] + [f]
  }

  /** The stack with a node appended to the children of its top frame. */
  function AddChild(stack: seq<BlockFrame>, node: Node): seq<BlockFrame>
    requires stack != []
  {
    WithTop(stack, Top(stack).(children := Top(stack).children + [node]))
  }

  /** StartBlock: a new frame of the given type (Text by default) and name. */
  function StartBlockSpec(s: ContextState, kind: Option<BlockType>, name: Option<string>): (ContextState, Outcome) {
    if s.terminated then (s, Fail(Completed))
    else
      var frame := BlockFrame(if kind.Some? then kind.value else BlockType.Text, name, None, [], false);
      (s.(stack := s.stack + [frame]), Pass)
  }

  /** EndBlock: with several frames the top one is popped and its block added
      to the frame below; the root frame stays and the parse terminates. */
  function EndBlockSpec(s: ContextState): (ContextState, Outcome) {
    if s.terminated then (s, Fail(Completed))
    else if s.stack == [] then (s, Fail(InvalidOperation("EndBlock called without matching StartBlock call.")))
    else if |s.stack| > 1 then
      var rest := s.stack[..|s.stack| - 1];
      (s.(stack := AddChild(rest, BlockNode(BuildBlock(Top(s.stack))))), Pass)
    else (s.(terminated := true), Pass)
  }

  /** AddSpan: the span becomes the last child of the top frame and the last span. */
  function AddSpanSpec(s: ContextState, span: Span): (ContextState, Outcome) {
    if s.terminated then (s, Fail(Completed))
    else if s.stack == [] then (s, Fail(InvalidOperation("No current block")))
    else (s.(stack := AddChild(s.stack, SpanNode(span)), lastSpan := Some(span)), Pass)
  }

  /** MergeCurrentWithParent: above the two lowest frames, the top frame is
      popped and its children appended to the frame below, in order. */
  function MergeSpec(s: ContextState): ContextState {
    if |s.stack| > 2 then
      var rest := s.stack[..|s.stack| - 1];
      s.(stack := WithTop(rest, Top(rest).(children := Top(rest).children + Top(s.stack).children)))
    else s
  }

  /** OnError: the error goes to the sink. */
  function OnErrorSpec(s: ContextState, error: Error): (ContextState, Outcome) {
    if s.terminated then (s, Fail(Completed)) else (s.(errors := s.errors + [error]), Pass)
  }

  /** CompleteParse: exactly the root frame must be left; it is built into
      the document, and the parse succeeded iff no error was reported. */
  function CompleteParseSpec(s: ContextState): (ContextState, Result<ParserResults>) {
    if s.stack == [] then (s, Err(InvalidOperation("No root block.")))
    else if |s.stack| != 1 then (s, Err(InvalidOperation("Outstanding blocks.")))
    else (s.(stack := []), Ok(ParserResults(s.errors == [], BuildBlock(s.stack[0]), s.errors)))
  }

  /** Setting a property of CurrentBlock (Stack.Peek, which throws on an empty stack). */
  function SetCurrentSpec(s: ContextState, f: BlockFrame): (ContextState, Outcome) {
    if s.stack == [] then (s, Fail(InvalidOperation("Stack empty."))) else (s.(stack := WithTop(s.stack, f)), Pass)
  }

  class ParserContext {
    var stack: seq<BlockFrame>
    var terminated: bool
    var errors: seq<Error>
    var lastSpan: Option<Span>
    const tagProviders: TagProvidersCollection

    function State(): ContextState
      reads this
    {
      ContextState(stack, terminated, errors, lastSpan)
    }

    constructor (tagProviders: TagProvidersCollection)
      ensures State() == ContextState([], false, [], None) && this.tagProviders == tagProviders
    {
      stack := [];
      terminated := false;
      errors := [];
      lastSpan := None;
      this.tagProviders := tagProviders;
    }

    /** CurrentBlock, read. */
    function CurrentBlock(): (r: Result<BlockFrame>)
      reads this
      ensures stack == [] <==> r.Err?
      ensures r.Ok? ==> r.value == Top(stack)
    {
      if stack == [] then Err(InvalidOperation("Stack empty.")) else Ok(Top(stack))
    }

    method EnsureNotTerminated() returns (o: Outcome)
      ensures o == if terminated then Fail(Completed) else Pass
    {
      if terminated {
        return Fail(Completed);
      }
      return Pass;
    }

    method StartBlock(kind: Option<BlockType>, name: Option<string>) returns (o: Outcome)
      modifies this
      ensures (State(), o) == StartBlockSpec(old(State()), kind, name)
    {
      o := EnsureNotTerminated();
      if o.Fail? {
        return;
      }
      stack := stack + [BlockFrame(if kind.Some? then kind.value else BlockType.Text, name, None, [], false)];
    }

    method EndBlock() returns (o: Outcome)
      modifies this
      ensures (State(), o) == EndBlockSpec(old(State()))
    {
      o := EnsureNotTerminated();
      if o.Fail? {
        return;
      }
      if |stack| == 0 {
        return Fail(InvalidOperation("EndBlock called without matching StartBlock call."));
      }
      if |stack| > 1 {
        var block := stack[|stack| - 1];
        stack := stack[..|stack| - 1];
        var parent := stack[|stack| - 1];
        stack := stack[..|stack| - 1] + [parent.(children := parent.children + [BlockNode(BuildBlock(block))])];
      } else {
        terminated := true;
      }
    }

    method AddSpan(span: Span) returns (o: Outcome)
      modifies this
      ensures (State(), o) == AddSpanSpec(old(State()), span)
    {
      o := EnsureNotTerminated();
      if o.Fail? {
        return;
      }
      if |stack| == 0 {
        return Fail(InvalidOperation("No current block"));
      }
      var top := stack[|stack| - 1];
      stack := stack[..|stack| - 1] + [top.(children := top.children + [SpanNode(span)])];
      lastSpan := Some(span);
    }

    method MergeCurrentWithParent()
      modifies this
      ensures State() == MergeSpec(old(State()))
    {
      if |stack| > 2 {
        var current := stack[|stack| - 1];
        stack := stack[..|stack| - 1];
        var parent := stack[|stack| - 1];
        var i := 0;
        while i < |current.children|
          invariant 0 <= i <= |current.children|
          invariant parent.children == Top(old(stack)[..|old(stack)| - 1]).children + current.children[..i]
          invariant parent == Top(old(stack)[..|old(stack)| - 1]).(children := parent.children)
        {
          parent := parent.(children := parent.children + [current.children[i]]);
          i := i + 1;
        }
        assert current.children[..i] == current.children;
        stack := stack[..|stack| - 1] + [parent];
      }
    }

    method OnError(error: Error) returns (o: Outcome)
      modifies this
      ensures (State(), o) == OnErrorSpec(old(State()), error)
    {
      o := EnsureNotTerminated();
      if o.Fail? {
        return;
      }
      errors := errors + [error];
    }

    method CompleteParse() returns (r: Result<ParserResults>)
      modifies this
      ensures (State(), r) == CompleteParseSpec(old(State()))
    {
      if |stack| == 0 {
        return Err(InvalidOperation("No root block."));
      }
      if |stack| != 1 {
        return Err(InvalidOperation("Outstanding blocks."));
      }
      var root := stack[0];
      stack := [];
      r := Ok(ParserResults(|errors| == 0, BuildBlock(root), errors));
    }

    /** Replaces the frame CurrentBlock returns (the parser's property sets on it). */
    method SetCurrentBlock(f: BlockFrame) returns (o: Outcome)
      modifies this
      ensures (State(), o) == SetCurrentSpec(old(State()), f)
    {
      if |stack| == 0 {
        return Fail(InvalidOperation("Stack empty."));
      }
      stack := stack[..|stack| - 1] + [f];
      o := Pass;
    }
  }

  // ----- Properties of the operations -----

  /** Once terminated, every operation that checks it fails and changes nothing. */
  lemma TerminatedRefusesAll(s: ContextState, kind: Option<BlockType>, name: Option<string>, span: Span, e: Error)
    requires s.terminated
    ensures StartBlockSpec(s, kind, name) == (s, Fail(Completed))
    ensures EndBlockSpec(s) == (s, Fail(Completed))
    ensures AddSpanSpec(s, span) == (s, Fail(Completed))
    ensures OnErrorSpec(s, e) == (s, Fail(Completed))
  {
  }

  /** A block started and ended at once becomes an empty child block of the
      frame it was started in. */
  lemma StartThenEnd(s: ContextState, kind: Option<BlockType>, name: Option<string>)
    requires !s.terminated && s.stack != []
    ensures var s1 := StartBlockSpec(s, kind, name).0;
            var k := if kind.Some? then kind.value else BlockType.Text;
            EndBlockSpec(s1) == (s.(stack := AddChild(s.stack, BlockNode(Block(k, name, None, [], false)))), Pass)
  {
    var s1 := StartBlockSpec(s, kind, name).0;
    assert s1.stack[..|s1.stack| - 1] == s.stack;
  }

  /** Ending the root block terminates the parse and keeps the root frame, so
      CompleteParse then returns it; the result succeeds iff there were no errors. */
  lemma DocumentLifecycle(errors: seq<Error>)
    ensures var s0 := ContextState([], false, errors, None);
            var s1 := StartBlockSpec(s0, Some(BlockType.Document), None).0;
            var s2 := EndBlockSpec(s1).0;
            s2.terminated && |s2.stack| == 1
            && CompleteParseSpec(s2).1 == Ok(ParserResults(errors == [], Block(BlockType.Document, None, None, [], false), errors))
  {
  }

  /** A span added and then merged lands, after the parent's existing children,
      in the parent frame. */
  lemma MergeKeepsOrder(s: ContextState, span: Span)
    requires !s.terminated && |s.stack| > 2
    ensures var s1 := AddSpanSpec(s, span).0;
            var s2 := MergeSpec(s1);
            var parent := s.stack[|s.stack| - 2];
            |s2.stack| == |s.stack| - 1
            && Top(s2.stack).children == parent.children + Top(s.stack).children + [SpanNode(span)]
  {
    var s1 := AddSpanSpec(s, span).0;
    assert s1.stack[..|s1.stack| - 1] == s.stack[..|s.stack| - 1];
  }

  /** Merging with at most two frames does nothing. */
  lemma MergeNeedsThreeFrames(s: ContextState)
    requires |s.stack| <= 2
    ensures MergeSpec(s) == s
  {
  }

  // ----- The text held by the stack -----

  /** The texts of the children of every frame, bottom frame first: what the
      blocks under construction hold. */
  function StackText(stack: seq<BlockFrame>): string {
    if stack == [] then "" else StackText(stack[..|stack| - 1]) + ChildrenText(Top(stack).children)
  }

  /** Appending nodes to the top frame appends their text. */
  lemma AddChildrenText(stack: seq<BlockFrame>, nodes: seq<Node>)
    requires stack != []
    ensures StackText(WithTop(stack, Top(stack).(children := Top(stack).children + nodes)))
            == StackText(stack) + ChildrenText(nodes)
  {
    var r := WithTop(stack, Top(stack).(children := Top(stack).children + nodes));
    ChildrenTextAppend(Top(stack).children, nodes);
    assert r[..|r| - 1] == stack[..|stack| - 1];
  }

  /** Appending one node to the top frame appends its text. */
  lemma AddChildText(stack: seq<BlockFrame>, node: Node)
    requires stack != []
    ensures StackText(AddChild(stack, node)) == StackText(stack) + NodeText(node)
  {
    AddChildrenText(stack, [node]);
    assert ChildrenText([node]) == ChildrenText([]) + NodeText(node);
  }

  /** Changing a frame's type, name, descriptor or ignore flag keeps the text. */
  lemma RelabelKeepsText(stack: seq<BlockFrame>, f: BlockFrame)
    requires stack != [] && f.children == Top(stack).children
    ensures StackText(WithTop(stack, f)) == StackText(stack)
  {
    assert WithTop(stack, f)[..|stack| - 1] == stack[..|stack| - 1];
  }

  /** Starting, ending and merging blocks move text between frames but never
      change the text the stack holds, read bottom to top. */
  lemma BlockOperationsKeepText(s: ContextState, kind: Option<BlockType>, name: Option<string>)
    ensures StackText(StartBlockSpec(s, kind, name).0.stack) == StackText(s.stack)
    ensures StackText(EndBlockSpec(s).0.stack) == StackText(s.stack)
    ensures StackText(MergeSpec(s).stack) == StackText(s.stack)
  {
    StartBlockKeepsText(s, kind, name);
    EndBlockKeepsText(s);
    MergeKeepsText(s);
  }

  lemma StartBlockKeepsText(s: ContextState, kind: Option<BlockType>, name: Option<string>)
    ensures StackText(StartBlockSpec(s, kind, name).0.stack) == StackText(s.stack)
  {
    if !s.terminated {
      var s1 := StartBlockSpec(s, kind, name).0;
      assert s1.stack[..|s1.stack| - 1] == s.stack;
    }
  }

  lemma EndBlockKeepsText(s: ContextState)
    ensures StackText(EndBlockSpec(s).0.stack) == StackText(s.stack)
  {
    if !s.terminated && |s.stack| > 1 {
      var rest := s.stack[..|s.stack| - 1];
      AddChildText(rest, BlockNode(BuildBlock(Top(s.stack))));
    }
  }

  lemma MergeKeepsText(s: ContextState)
    ensures StackText(MergeSpec(s).stack) == StackText(s.stack)
  {
    if |s.stack| > 2 {
      var rest := s.stack[..|s.stack| - 1];
      AddChildrenText(rest, Top(s.stack).children);
    }
  }
}
