// The block renderers: truthiness, writing a value, gathering a block's
// arguments and mapped parameters, validating them against the tag's
// descriptor, and the {{#if}}, {{#is}} and {{#each}} renderers. Rendering a
// child node hands it to the render visitor; here that is recorded in a log
// of (node, context) pairs, in order.
module Renderers {
  import opened Wrappers
  import opened Values
  import opened SyntaxTrees
  import Tags
  import opened RenderContexts
  import Operators

  // ---------------------------------------------------------------------
  // Truthiness and output

  /** IsTruthy. Null, the empty string and empty arrays and collections are
      false; a boolean is itself. A boxed 32-bit integer is unboxed as a
      byte, which throws. Every other value is true. */
  function IsTruthy(v: Value): (r: Result<bool>)
  {
    match v
    case Null => Ok(false)
    case Str(s) => Ok(s != "")
    case Array(_, items) => Ok(items != [])
    case List(_, items) => Ok(items != [])
    case Dict(_, entries) => Ok(entries != [])
    case Bool(b) => Ok(b)
    case Int(_) => Err(InvalidCast)
    case _ => Ok(true)
  }

  /** Every value but an integer has a truth value, and it is false exactly
      for null, false, the empty string and the empty collections. */
  lemma TruthyIff(v: Value)
    ensures v.Int? <==> IsTruthy(v) == Err(InvalidCast)
    ensures !v.Int? ==> IsTruthy(v).Ok?
    ensures IsTruthy(v) == Ok(false) <==>
              v.Null? || v == Bool(false) || v == Str("")
              || ((v.Array? || v.List?) && v.items == [])
              || (v.Dict? && v.entries == [])
  {
  }

  /** The text Write puts out: nothing for null, an encoded string as it is,
      and otherwise ToString, HTML-encoded unless the context escapes
      encoding. The HTML encoder is a parameter. */
  function Output(value: Value, escapeEncoding: bool, encode: string -> string): (r: string)
    ensures value.Null? ==> r == ""
    ensures value.Safe? ==> r == value.text
    ensures !value.Null? && !value.Safe? && escapeEncoding ==> r == ToText(value)
    ensures !value.Null? && !value.Safe? && !escapeEncoding ==> r == encode(ToText(value))
  {
    match value
    case Null => ""
    case Safe(t) => t
    case _ => if escapeEncoding then ToText(value) else encode(ToText(value))
  }

  /** The encoder only matters for a plain value in a context that does not
      escape encoding. */
  lemma EncoderOnlyForPlainValues(value: Value, escapeEncoding: bool, e1: string -> string, e2: string -> string)
    requires value.Null? || value.Safe? || escapeEncoding
    ensures Output(value, escapeEncoding, e1) == Output(value, escapeEncoding, e2)
  {
  }

  /** The text writer the renderers write to. */
  class TextWriter {
    var text: string

    constructor()
      ensures text == ""
    {
      text := "";
    }

    method Write(s: string)
      modifies this
      ensures text == old(text) + s
    {
      text := text + s;
    }
  }

  /** Write: checks its arguments, then appends the value's output. */
  method Write(context: Option<RenderContext>, writer: Option<TextWriter>, value: Value,
               encode: string -> string) returns (o: Outcome)
    modifies if writer.Some? then {writer.value} else {}
    ensures context.None? ==> o == Fail(ArgumentNull("context"))
    ensures context.Some? && writer.None? ==> o == Fail(ArgumentNull("writer"))
    ensures o.Fail? && writer.Some? ==> writer.value.text == old(writer.value.text)
    ensures context.Some? && writer.Some? ==>
              o == Pass
              && writer.value.text == old(writer.value.text) + Output(value, context.value.escapeEncoding, encode)
  {
    if context.None? {
      return Fail(ArgumentNull("context"));
    }
    if writer.None? {
      return Fail(ArgumentNull("writer"));
    }
    if value.Null? {
      assert Output(value, context.value.escapeEncoding, encode) == "";
      assert writer.value.text == old(writer.value.text) + "";
      return Pass;
    }
    var output := if value.Safe? then value.text
                  else if context.value.escapeEncoding then ToText(value)
                  else encode(ToText(value));
    writer.value.Write(output);
    o := Pass;
  }

  // ---------------------------------------------------------------------
  // Arguments and mapped parameters

  /** The positional arguments and the mapped parameters of a block. */
  datatype Arguments = Arguments(args: seq<Value>, maps: map<string, Value>)

  const NoArguments := Arguments([], map[])

  /** A parameter or map span among a block's children. */
  predicate IsArgumentSpan(n: Node)
  {
    n.SpanNode? && (n.span.kind.Parameter? || n.span.kind.Map?)
  }

  /** The contexts whose variables resolving the spans among nodes may read. */
  function SpanContexts(context: RenderContext, nodes: seq<Node>): set<RenderContext>
  {
    set n | n in nodes && n.SpanNode? :: SpanContext(context, n.span)
  }

  /** The arguments after one more node: a parameter span adds its value,
      a map span sets the key named by its first symbol (replacing an
      earlier value), and any other node adds nothing. */
  function AddArgument(context: RenderContext, n: Node, acc: Arguments): (r: Result<Arguments>)
    reads if n.SpanNode? then {SpanContext(context, n.span)} else {}
  {
    if !IsArgumentSpan(n) then Ok(acc)
    else if n.span.kind.Parameter? then
      match ResolveSpan(context, n.span)
      case Err(f) => Err(f)
      case Ok(v) => Ok(acc.(args := acc.args + [v]))
    else if |n.span.symbols| == 0 then Err(ArgumentOutOfRange("index"))
    else
      match ResolveSpan(context, n.span)
      case Err(f) => Err(f)
      case Ok(v) => Ok(acc.(maps := acc.maps[n.span.symbols[0].content := v]))
  }

  /** The arguments gathered from nodes after acc, stopping at the first
      error. */
  function Gather(context: RenderContext, nodes: seq<Node>, acc: Arguments): (r: Result<Arguments>)
    reads SpanContexts(context, nodes)
    ensures r.Ok? ==> |r.value.args| == |acc.args| + ParameterCount(nodes)
    ensures r.Ok? ==> r.value.args[..|acc.args|] == acc.args
    ensures r.Ok? ==> r.value.maps.Keys == acc.maps.Keys + MapKeys(nodes)
    decreases |nodes|
  {
    if nodes == [] then Ok(acc)
    else
      assert forall m :: m in nodes[1..] ==> m in nodes;
      match AddArgument(context, nodes[0], acc)
      case Err(f) => Err(f)
      case Ok(a) =>
        var r := Gather(context, nodes[1..], a);
        assert r.Ok? ==> r.value.args[..|acc.args|] == (r.value.args[..|a.args|])[..|acc.args|];
        r
  }

  /** The number of parameter spans among nodes. */
  function ParameterCount(nodes: seq<Node>): nat
  {
    if nodes == [] then 0
    else (if nodes[0].SpanNode? && nodes[0].span.kind.Parameter? then 1 else 0) + ParameterCount(nodes[1..])
  }

  /** The keys the map spans among nodes name. */
  function MapKeys(nodes: seq<Node>): set<string>
  {
    if nodes == [] then {}
    else
      (if nodes[0].SpanNode? && nodes[0].span.kind.Map? && |nodes[0].span.symbols| > 0
       then {nodes[0].span.symbols[0].content} else {})
      + MapKeys(nodes[1..])
  }

  /** Gathering from two runs of nodes is gathering from the first, then
      from the second after it. */
  lemma {:induction false} GatherAppend(context: RenderContext, xs: seq<Node>, ys: seq<Node>, acc: Arguments)
    ensures Gather(context, xs + ys, acc) ==
            match Gather(context, xs, acc)
            case Err(f) => Err(f)
            case Ok(a) => Gather(context, ys, a)
    decreases |xs|
  {
    if xs == [] {
      assert xs + ys == ys;
    } else {
      assert (xs + ys)[0] == xs[0];
      assert (xs + ys)[1..] == xs[1..] + ys;
      match AddArgument(context, xs[0], acc)
      case Err(f) =>
      case Ok(a) => GatherAppend(context, xs[1..], ys, a);
    }
  }

  /** A map span after the others sets its key, whatever an earlier span
      with the same key set. */
  lemma LastMapWins(context: RenderContext, xs: seq<Node>, span: Span, acc: Arguments, a: Arguments)
    requires span.kind.Map? && |span.symbols| > 0
    requires ResolveSpan(context, span).Ok?
    requires Gather(context, xs + [SpanNode(span)], acc) == Ok(a)
    ensures span.symbols[0].content in a.maps
    ensures a.maps[span.symbols[0].content] == ResolveSpan(context, span).value
  {
    GatherAppend(context, xs, [SpanNode(span)], acc);
    var b := Gather(context, xs, acc).value;
    assert [SpanNode(span)][1..] == [];
    assert a == b.(maps := b.maps[span.symbols[0].content := ResolveSpan(context, span).value]);
  }

  /** Nodes without parameter or map spans add nothing. */
  lemma {:induction false} NoArgumentSpans(context: RenderContext, nodes: seq<Node>, acc: Arguments)
    requires forall i :: 0 <= i < |nodes| ==> !IsArgumentSpan(nodes[i])
    ensures Gather(context, nodes, acc) == Ok(acc)
    decreases |nodes|
  {
    if nodes != [] {
      NoArgumentSpans(context, nodes[1..], acc);
    }
  }

  /** GetArgumentsAndMappedParameters: the arguments of a block's children. */
  method GetArgumentsAndMappedParameters(block: Block, context: RenderContext) returns (r: Result<Arguments>)
    ensures r == Gather(context, block.children, NoArguments)
  {
    var acc := NoArguments;
    var i := 0;
    while i < |block.children|
      invariant 0 <= i <= |block.children|
      invariant Gather(context, block.children, NoArguments) == Gather(context, block.children[i..], acc)
    {
      var n := block.children[i];
      assert block.children[i..][0] == n && block.children[i..][1..] == block.children[i + 1..];
      var step := AddArgument(context, n, acc);
      if step.Err? {
        return Err(step.fault);
      }
      acc := step.value;
      i := i + 1;
    }
    assert block.children[i..] == [];
    r := Ok(acc);
  }

  // ---------------------------------------------------------------------
  // Tag validation

  /** The name string.Format prints for a tag name (null prints as empty). */
  function TagName(name: Option<string>): string
  {
    if name.Some? then name.value else ""
  }

  /** ValidateTag: without a descriptor, or with an implicit one, anything
      goes; otherwise the argument count must lie within the descriptor's
      bounds (a required count of zero is no lower bound) and mapped
      parameters must be present exactly when the descriptor allows them. */
  function ValidateTag(name: Option<string>, descriptor: Option<Tags.TagDescriptor>,
                       arguments: seq<Value>, parameters: map<string, Value>): (o: Outcome)
    ensures o.Fail? ==> o.fault.InvalidOperation?
    ensures o.Pass? <==>
              descriptor.None? || descriptor.value.isImplicit
              || (&& (|arguments| >= descriptor.value.requiredArguments || descriptor.value.requiredArguments <= 0)
                  && |arguments| <= descriptor.value.maxArguments
                  && descriptor.value.allowMappedParameters == (|parameters| > 0))
  {
    if descriptor.None? || descriptor.value.isImplicit then Pass
    else
      var d := descriptor.value;
      if d.requiredArguments > 0 && |arguments| < d.requiredArguments then
        Fail(InvalidOperation("The tag " + TagName(name) + " requires at least "
                              + IntText(d.requiredArguments) + " argument(s)"))
      else if |arguments| > d.maxArguments then
        Fail(InvalidOperation("The tag " + TagName(name) + " requires at most "
                              + IntText(d.maxArguments) + " argument(s)"))
      else if d.allowMappedParameters != (|parameters| > 0) then
        Fail(InvalidOperation((if |parameters| > 0 then "Unexpected" else "Expected")
                              + " parameters to tag " + TagName(name)))
      else Pass
  }

  /** {{#each}} with one argument and {{#is}} with up to three pass. */
  lemma StandardTagsPass(x: Value, y: Value, z: Value)
    ensures ValidateTag(Some("each"), Some(Tags.EachTag), [x], map[]) == Pass
    ensures ValidateTag(Some("is"), Some(Tags.IsTag), [x], map[]) == Pass
    ensures ValidateTag(Some("is"), Some(Tags.IsTag), [x, y, z], map[]) == Pass
  {
  }

  /** {{#each}} without an argument is refused. */
  lemma EachTagNeedsArgument()
    ensures ValidateTag(Some("each"), Some(Tags.EachTag), [], map[]) ==
              Fail(InvalidOperation("The tag each requires at least 1 argument(s)"))
  {
    assert IntText(1) == "1";
    assert "The tag " + "each" + " requires at least " + "1" + " argument(s)"
        == "The tag each requires at least 1 argument(s)";
  }

  /** {{#is}} with a fourth argument is refused. */
  lemma IsTagAtMostThree(x: Value, y: Value, z: Value, w: Value)
    ensures ValidateTag(Some("is"), Some(Tags.IsTag), [x, y, z, w], map[]) ==
              Fail(InvalidOperation("The tag is requires at most 3 argument(s)"))
  {
    assert IntText(3) == "3";
    assert "The tag " + "is" + " requires at most " + "3" + " argument(s)"
        == "The tag is requires at most 3 argument(s)";
  }

  /** Mapped parameters to a tag that allows none are refused. */
  lemma EachTagRejectsMaps(x: Value, y: Value)
    ensures ValidateTag(Some("each"), Some(Tags.EachTag), [x], map["k" := y]) ==
              Fail(InvalidOperation("Unexpected parameters to tag each"))
  {
    assert |map["k" := y]| == 1 by { assert map["k" := y].Keys == {"k"}; }
    assert "Unexpected" + " parameters to tag " + "each" == "Unexpected parameters to tag each";
  }

  // ---------------------------------------------------------------------
  // Branches of {{#if}} and {{#is}}

  /** A branch: the tag element that opens it and the nodes it renders. */
  datatype Branch = Branch(marker: Block, nodes: seq<Node>)

  const IfMarkers: set<string> := {"if", "elseif", "else"}
  const IfGuards: set<string> := {"if", "elseif"}
  const IsMarkers: set<string> := {"is", "elseis", "else", "^"}
  const IsGuards: set<string> := {"is", "elseis"}

  /** A tag element whose name opens a branch. */
  predicate IsMarker(n: Node, names: set<string>)
  {
    n.BlockNode? && n.block.kind.TagElement? && n.block.name.Some? && n.block.name.value in names
  }

  /** The branches ParseConditionalBlocks builds from children, with current
      the open branch's marker (if any) and nodes what it has collected.
      Nodes before the first marker are not dropped: they are collected
      into the first branch. */
  function PartitionFrom(children: seq<Node>, names: set<string>, current: Option<Block>, nodes: seq<Node>): seq<Branch>
    decreases |children|
  {
    if children == [] then (if current.Some? then [Branch(current.value, nodes)] else [])
    else if IsMarker(children[0], names) then
      if current.Some? then [Branch(current.value, nodes)] + PartitionFrom(children[1..], names, Some(children[0].block), [])
      else PartitionFrom(children[1..], names, Some(children[0].block), nodes)
    else PartitionFrom(children[1..], names, current, nodes + [children[0]])
  }

  /** ParseConditionalBlocks' result: the last child (the closing tag) is
      removed first, which throws when there are no children. */
  function Partition(children: seq<Node>, names: set<string>): (r: Result<seq<Branch>>)
    ensures children == [] <==> r.Err?
    ensures r.Err? ==> r.fault == ArgumentOutOfRange("index")
  {
    if children == [] then Err(ArgumentOutOfRange("index"))
    else Ok(PartitionFrom(children[..|children| - 1], names, None, []))
  }

  /** The nodes of a list of branches, each marker followed by its nodes. */
  function Flat(branches: seq<Branch>): seq<Node>
  {
    if branches == [] then [] else [BlockNode(branches[0].marker)] + branches[0].nodes + Flat(branches[1..])
  }

  /** Once a branch is open, partitioning loses and reorders nothing. */
  lemma {:induction false} PartitionKeepsOrder(children: seq<Node>, names: set<string>, b: Block, nodes: seq<Node>)
    ensures Flat(PartitionFrom(children, names, Some(b), nodes)) == [BlockNode(b)] + nodes + children
    decreases |children|
  {
    if children == [] {
    } else if IsMarker(children[0], names) {
      var rest := PartitionFrom(children[1..], names, Some(children[0].block), []);
      PartitionKeepsOrder(children[1..], names, children[0].block, []);
      assert ([Branch(b, nodes)] + rest)[1..] == rest;
      assert children == [BlockNode(children[0].block)] + children[1..];
    } else {
      PartitionKeepsOrder(children[1..], names, b, nodes + [children[0]]);
      assert children == [children[0]] + children[1..];
    }
  }

  /** Before the first marker nothing is emitted; the nodes passed over are
      carried into the first branch. */
  lemma {:induction false} PartitionSkipsToFirstMarker(children: seq<Node>, names: set<string>, nodes: seq<Node>, k: nat)
    requires k < |children| && IsMarker(children[k], names)
    requires forall j :: 0 <= j < k ==> !IsMarker(children[j], names)
    ensures PartitionFrom(children, names, None, nodes) ==
            PartitionFrom(children[k + 1..], names, Some(children[k].block), nodes + children[..k])
    decreases k
  {
    if k > 0 {
      assert !IsMarker(children[0], names);
      PartitionSkipsToFirstMarker(children[1..], names, nodes + [children[0]], k - 1);
      assert children[1..][k..] == children[k + 1..];
      assert nodes + [children[0]] + children[1..][..k - 1] == nodes + children[..k];
    } else {
      assert nodes + children[..0] == nodes;
    }
  }

  /** Without any marker there are no branches. */
  lemma {:induction false} NoMarkersNoBranches(children: seq<Node>, names: set<string>, nodes: seq<Node>)
    requires forall j :: 0 <= j < |children| ==> !IsMarker(children[j], names)
    ensures PartitionFrom(children, names, None, nodes) == []
    decreases |children|
  {
    if children != [] {
      NoMarkersNoBranches(children[1..], names, nodes + [children[0]]);
    }
  }

  /** A block whose body starts with a marker is cut into branches that,
      read in order, give back the body without its closing child. */
  lemma PartitionRestores(children: seq<Node>, names: set<string>)
    requires |children| >= 2 && IsMarker(children[0], names)
    ensures Partition(children, names).Ok?
    ensures Flat(Partition(children, names).value) == children[..|children| - 1]
  {
    var body := children[..|children| - 1];
    PartitionSkipsToFirstMarker(body, names, [], 0);
    PartitionKeepsOrder(body[1..], names, body[0].block, []);
    assert body == [BlockNode(body[0].block)] + body[1..];
  }

  /** Every branch opens with a marker and holds none. */
  predicate WellFormed(branches: seq<Branch>, names: set<string>)
  {
    forall i :: 0 <= i < |branches| ==>
      IsMarker(BlockNode(branches[i].marker), names)
      && forall j :: 0 <= j < |branches[i].nodes| ==> !IsMarker(branches[i].nodes[j], names)
  }

  lemma {:induction false} PartitionWellFormed(children: seq<Node>, names: set<string>, current: Option<Block>, nodes: seq<Node>)
    requires current.Some? ==> IsMarker(BlockNode(current.value), names)
    requires forall j :: 0 <= j < |nodes| ==> !IsMarker(nodes[j], names)
    ensures WellFormed(PartitionFrom(children, names, current, nodes), names)
    decreases |children|
  {
    if children == [] {
    } else if IsMarker(children[0], names) {
      PartitionWellFormed(children[1..], names, Some(children[0].block), if current.Some? then [] else nodes);
      if current.Some? {
        var rest := PartitionFrom(children[1..], names, Some(children[0].block), []);
        assert forall i :: 1 <= i < |rest| + 1 ==> ([Branch(current.value, nodes)] + rest)[i] == rest[i - 1];
      }
    } else {
      PartitionWellFormed(children[1..], names, current, nodes + [children[0]]);
    }
  }

  /** ParseConditionalBlocks. */
  method ParseConditionalBlocks(target: Block, names: set<string>) returns (r: Result<seq<Branch>>)
    ensures r == Partition(target.children, names)
    ensures r.Ok? ==> WellFormed(r.value, names)
  {
    if target.children == [] {
      return Err(ArgumentOutOfRange("index"));
    }
    var children := target.children[..|target.children| - 1];
    var result: seq<Branch> := [];
    var current: Option<Block> := None;
    var nodes: seq<Node> := [];
    var i := 0;
    while i < |children|
      invariant 0 <= i <= |children|
      invariant PartitionFrom(children, names, None, []) == result + PartitionFrom(children[i..], names, current, nodes)
      invariant current.None? ==> result == []
    {
      var node := children[i];
      assert children[i..][0] == node && children[i..][1..] == children[i + 1..];
      var isNewElement := false;
      if node.BlockNode? && node.block.kind.TagElement? && node.block.name.Some?
         && node.block.name.value in names {
        if current.Some? {
          result := result + [Branch(current.value, nodes)];
          nodes := [];
        }
        current := Some(node.block);
        isNewElement := true;
      }
      if !isNewElement {
        nodes := nodes + [node];
      }
      i := i + 1;
    }
    assert children[i..] == [];
    if current.Some? {
      result := result + [Branch(current.value, nodes)];
    }
    PartitionWellFormed(children, names, None, []);
    r := Ok(result);
  }

  // ---------------------------------------------------------------------
  // Choosing the branch to render

  /** IsTrue: one parameter is a truth test; two compare with "=="; three
      or more name the operator in the middle. An operator the table does
      not hold is an error. */
  function IsTrue(parameters: seq<Value>, operators: map<string, Operators.Operator>): (r: Result<bool>)
    ensures |parameters| == 1 ==> r == IsTruthy(parameters[0])
    ensures |parameters| == 0 ==> r == Err(IndexOutOfRange)
    ensures |parameters| >= 3 && parameters[1].Null? ==> r == Err(NullReference)
    ensures |parameters| >= 2 && r.Ok? ==>
              var op := if |parameters| == 2 then "==" else ToText(parameters[1]);
              var y := if |parameters| == 2 then parameters[1] else parameters[2];
              op in operators && r.value == Operators.Result(operators[op], parameters[0], y)
    ensures |parameters| >= 2 && !(|parameters| >= 3 && parameters[1].Null?) ==>
              var op := if |parameters| == 2 then "==" else ToText(parameters[1]);
              (op !in operators <==> r == Err(Argument("The operator '" + op + "' is not supported.")))
  {
    if |parameters| == 1 then IsTruthy(parameters[0])
    else if |parameters| == 0 then Err(IndexOutOfRange)
    else
      var x := parameters[0];
      var y := if |parameters| == 2 then parameters[1] else parameters[2];
      if |parameters| >= 3 && parameters[1].Null? then Err(NullReference)
      else
        var op := if |parameters| == 2 then "==" else ToText(parameters[1]);
        if op !in operators then Err(Argument("The operator '" + op + "' is not supported."))
        else Ok(Operators.Result(operators[op], x, y))
  }

  /** The test a guarded branch applies to its arguments: the first
      argument's truth ({{#if}}), or IsTrue over an operator table ({{#is}}). */
  datatype Test = Truthy | Compare(operators: map<string, Operators.Operator>)

  function Check(test: Test, args: seq<Value>): Result<bool>
  {
    match test
    case Truthy => if args == [] then Err(IndexOutOfRange) else IsTruthy(args[0])
    case Compare(ops) => IsTrue(args, ops)
  }

  /** A branch whose marker's name is one of the guards ({{#if}},
      {{#elseif}}); any other branch ({{else}}) is taken unconditionally. */
  predicate Guarded(b: Branch, guards: set<string>)
  {
    b.marker.name.Some? && b.marker.name.value in guards
  }

  /** Whether a branch is taken: its marker's arguments are gathered, then
      a guarded branch is tested and an unguarded one taken. */
  function Verdict(context: RenderContext, b: Branch, guards: set<string>, test: Test): (r: Result<bool>)
    reads SpanContexts(context, b.marker.children)
    ensures !Guarded(b, guards) && Gather(context, b.marker.children, NoArguments).Ok? ==> r == Ok(true)
  {
    match Gather(context, b.marker.children, NoArguments)
    case Err(f) => Err(f)
    case Ok(a) => if !Guarded(b, guards) then Ok(true) else Check(test, a.args)
  }

  /** The contexts the markers' arguments may read. */
  function BranchContexts(context: RenderContext, branches: seq<Branch>): set<RenderContext>
  {
    set b, n | b in branches && n in b.marker.children && n.SpanNode? :: SpanContext(context, n.span)
  }

  /** The verdicts of the first n branches, in order. */
  function Verdicts(context: RenderContext, branches: seq<Branch>, n: nat, guards: set<string>, test: Test): (r: seq<Result<bool>>)
    requires n <= |branches|
    reads BranchContexts(context, branches)
    ensures |r| == n
    ensures forall j :: 0 <= j < n ==> r[j] == Verdict(context, branches[j], guards, test)
    decreases n
  {
    if n == 0 then []
    else
      assert branches[n - 1] in branches;
      Verdicts(context, branches, n - 1, guards, test) + [Verdict(context, branches[n - 1], guards, test)]
  }

  /** The index of the branch to render, looking from branch k on, given
      the branches' verdicts in order: the first one taken, stopping at the
      first error. */
  function ChooseFrom(verdicts: seq<Result<bool>>, k: nat): (r: Result<Option<nat>>)
    ensures r.Ok? && r.value.Some? ==> k <= r.value.value < |verdicts|
    decreases |verdicts| - k
  {
    if k >= |verdicts| then Ok(None)
    else
      match verdicts[k]
      case Err(f) => Err(f)
      case Ok(true) => Ok(Some(k))
      case Ok(false) => ChooseFrom(verdicts, k + 1)
  }

  /** The branch chosen is taken, and every one before it tested false. */
  lemma {:induction false} ChosenIsFirstTaken(verdicts: seq<Result<bool>>, k: nat, c: nat)
    requires ChooseFrom(verdicts, k) == Ok(Some(c))
    ensures verdicts[c] == Ok(true)
    ensures forall j :: k <= j < c ==> verdicts[j] == Ok(false)
    decreases |verdicts| - k
  {
    if verdicts[k] == Ok(false) {
      ChosenIsFirstTaken(verdicts, k + 1, c);
    }
  }

  /** Conversely, the first branch taken is the one chosen. */
  lemma {:induction false} FirstTakenIsChosen(verdicts: seq<Result<bool>>, k: nat, c: nat)
    requires k <= c < |verdicts|
    requires verdicts[c] == Ok(true)
    requires forall j :: k <= j < c ==> verdicts[j] == Ok(false)
    ensures ChooseFrom(verdicts, k) == Ok(Some(c))
    decreases c - k
  {
    if k < c {
      FirstTakenIsChosen(verdicts, k + 1, c);
    }
  }

  /** No branch is rendered exactly when every branch tested false. */
  lemma {:induction false} NoneChosen(verdicts: seq<Result<bool>>, k: nat)
    ensures ChooseFrom(verdicts, k) == Ok(None) <==> forall j :: k <= j < |verdicts| ==> verdicts[j] == Ok(false)
    decreases |verdicts| - k
  {
    if k < |verdicts| {
      NoneChosen(verdicts, k + 1);
    }
  }

  /** Every branch passed over before the one chosen was guarded: an
      unguarded branch ({{else}}) whose arguments gather is always taken. */
  lemma SkippedAreGuarded(context: RenderContext, branches: seq<Branch>, guards: set<string>, test: Test, c: nat)
    requires ChooseFrom(Verdicts(context, branches, |branches|, guards, test), 0) == Ok(Some(c))
    ensures c < |branches| && Verdict(context, branches[c], guards, test) == Ok(true)
    ensures forall j :: 0 <= j < c ==> Guarded(branches[j], guards) && Verdict(context, branches[j], guards, test) == Ok(false)
  {
    ChosenIsFirstTaken(Verdicts(context, branches, |branches|, guards, test), 0, c);
  }

  /** With a false {{#if}} and a true {{#elseif}}, the {{#elseif}} branch
      is rendered and the {{else}} is not. */
  lemma ElseIfAfterFalseIf(context: RenderContext, ifBranch: Branch, elseIfBranch: Branch, elseBranch: Branch)
    requires Verdict(context, ifBranch, IfGuards, Truthy) == Ok(false)
    requires Verdict(context, elseIfBranch, IfGuards, Truthy) == Ok(true)
    ensures ChooseFrom(Verdicts(context, [ifBranch, elseIfBranch, elseBranch], 3, IfGuards, Truthy), 0) == Ok(Some(1))
  {
    var vs := Verdicts(context, [ifBranch, elseIfBranch, elseBranch], 3, IfGuards, Truthy);
    assert vs[0] == Ok(false) && vs[1] == Ok(true);
    FirstTakenIsChosen(vs, 0, 1);
  }

  /** The nodes a conditional block renders, if any. */
  function BranchPlan(context: RenderContext, target: Block, markers: set<string>, guards: set<string>, test: Test): (r: Result<Option<seq<Node>>>)
    reads if Partition(target.children, markers).Ok? then BranchContexts(context, Partition(target.children, markers).value) else {}
    ensures Partition(target.children, markers).Err? ==> r == Err(ArgumentOutOfRange("index"))
  {
    match Partition(target.children, markers)
    case Err(f) => Err(f)
    case Ok(branches) =>
      match ChooseFrom(Verdicts(context, branches, |branches|, guards, test), 0)
      case Err(f) => Err(f)
      case Ok(None) => Ok(None)
      case Ok(Some(k)) => Ok(Some(branches[k].nodes))
  }

  /** {{#is "hello" "in" " hello, world"}} is true with the "in" operator. */
  lemma IsInList(operators: map<string, Operators.Operator>)
    requires "in" in operators && operators["in"] == Operators.In
    ensures IsTrue([Str("hello"), Str("in"), Str(" hello, world")], operators) == Ok(true)
  {
    Operators.HelloInList();
  }

  // ---------------------------------------------------------------------
  // {{#each}}

  /** One item of an enumeration, with its key when it comes from a
      dictionary. */
  datatype Item = Item(value: Value, key: Option<string>)

  /** The items {{#each}} enumerates: a dictionary's values with their keys,
      the characters of a string, the elements of an array or collection,
      and any other value (null included) as the only item. */
  function ItemsOf(v: Value): (r: seq<Item>)
    ensures !IsEnumerable(v) ==> r == [Item(v, None)]
    ensures v.Dict? ==> |r| == |v.entries|
    ensures v.Dict? ==> forall i :: 0 <= i < |r| ==> r[i] == Item(v.entries[i].1, Some(v.entries[i].0))
    ensures v.Str? ==> |r| == |v.s| && forall i :: 0 <= i < |r| ==> r[i] == Item(Char(v.s[i]), None)
    ensures (v.Array? || v.List?) ==> |r| == |v.items| && forall i :: 0 <= i < |r| ==> r[i] == Item(v.items[i], None)
  {
    if v.Dict? then seq(|v.entries|, i requires 0 <= i < |v.entries| => Item(v.entries[i].1, Some(v.entries[i].0)))
    else if IsEnumerable(v) then
      var e := Elements(v);
      seq(|e|, i requires 0 <= i < |e| => Item(e[i], None))
    else [Item(v, None)]
  }

  /** A block named "else", of any kind. */
  predicate IsElse(n: Node)
  {
    n.BlockNode? && n.block.name == Some("else")
  }

  /** The position of the first {{else}} among nodes. */
  function FirstElse(nodes: seq<Node>): (r: Option<nat>)
    ensures r.None? <==> forall j :: 0 <= j < |nodes| ==> !IsElse(nodes[j])
    ensures r.Some? ==> r.value < |nodes| && IsElse(nodes[r.value])
    ensures r.Some? ==> forall j :: 0 <= j < r.value ==> !IsElse(nodes[j])
    decreases |nodes|
  {
    if nodes == [] then None
    else if IsElse(nodes[0]) then Some(0)
    else
      match FirstElse(nodes[1..])
      case None => None
      case Some(k) => Some(k + 1)
  }

  /** What {{#each}} renders: the items, the body rendered for each of
      them, and the nodes after {{else}}, rendered when there are none. */
  datatype EachPlan = EachPlan(items: seq<Item>, body: seq<Node>, alternate: seq<Node>)

  /** The EnumerableBlockRenderer's preparation: the first argument's items;
      the block's children without the opening and closing tags (removing
      them throws when they are missing); and these split at the first
      {{else}}. */
  function PlanEach(block: Block, args: seq<Value>): (r: Result<EachPlan>)
    ensures args == [] ==> r == Err(IndexOutOfRange)
    ensures args != [] && |block.children| < 2 ==> r == Err(ArgumentOutOfRange("index"))
    ensures args != [] && |block.children| >= 2 <==> r.Ok?
    ensures r.Ok? ==> r.value.items == ItemsOf(args[0])
  {
    if args == [] then Err(IndexOutOfRange)
    else if |block.children| < 2 then Err(ArgumentOutOfRange("index"))
    else
      var inner := Inner(block);
      match FirstElse(inner)
      case None => Ok(EachPlan(ItemsOf(args[0]), inner, []))
      case Some(k) => Ok(EachPlan(ItemsOf(args[0]), inner[..k], inner[k + 1..]))
  }

  /** The children of a block between its opening and closing tags. */
  function Inner(block: Block): seq<Node>
    requires |block.children| >= 2
  {
    block.children[1..|block.children| - 1]
  }

  /** With an {{else}}, the body and the alternate are the inner children
      before and after the first one, which is dropped. */
  lemma ElseSplits(block: Block, args: seq<Value>)
    requires PlanEach(block, args).Ok? && FirstElse(Inner(block)).Some?
    ensures Inner(block) == PlanEach(block, args).value.body + [Inner(block)[FirstElse(Inner(block)).value]]
                            + PlanEach(block, args).value.alternate
    ensures forall j :: 0 <= j < |PlanEach(block, args).value.body| ==> !IsElse(PlanEach(block, args).value.body[j])
  {
    var inner := Inner(block);
    var k := FirstElse(inner).value;
    assert inner == inner[..k] + [inner[k]] + inner[k + 1..];
  }

  /** Without an {{else}} the body is all the inner children and there is
      no alternate. */
  lemma NoElseNoAlternate(block: Block, args: seq<Value>)
    requires PlanEach(block, args).Ok? && FirstElse(Inner(block)).None?
    ensures PlanEach(block, args).value.body == Inner(block)
    ensures PlanEach(block, args).value.alternate == []
  {
  }

  /** The variables an item's scope holds: first, last, index and, for a
      dictionary, the key. */
  function ItemVariables(i: int, n: int, key: Option<string>): map<string, Value>
  {
    var m := map[]["first" := Bool(i == 0)]["last" := Bool(i == n - 1)]["index" := Int(i)];
    if key.Some? then m["key" := Str(key.value)] else m
  }

  /** c is the scope the i-th of n items is rendered in: a child of the
      context whose model is the item, holding the item's variables. */
  ghost predicate ItemScope(c: RenderContext, parent: RenderContext, item: Item, i: int, n: int)
    reads c
  {
    ChildOf(c, parent, item.value) && c.variables == ItemVariables(i, n, item.key)
  }

  /** In an item's scope @first, @last, @index and @key resolve to the
      item's position and key. */
  lemma ScopeVariables(c: RenderContext, parent: RenderContext, item: Item, i: int, n: int)
    requires ItemScope(c, parent, item, i, n)
    ensures c.GetVariable("first", Null) == Bool(i == 0)
    ensures c.GetVariable("last", Null) == Bool(i == n - 1)
    ensures c.GetVariable("index", Null) == Int(i)
    ensures c.GetVariable("key", Null) == if item.key.Some? then Str(item.key.value) else Null
    ensures item.value.Null? ==> c.data == parent.data
  {
  }

  // ---------------------------------------------------------------------
  // Rendering

  /** A child node handed to the render visitor, and the context it was
      rendered in. */
  datatype Rendered = Rendered(node: Node, context: RenderContext)

  /** The log entries of rendering nodes in order in one context. */
  function Each(nodes: seq<Node>, context: RenderContext): (r: seq<Rendered>)
    ensures |r| == |nodes|
    ensures forall i :: 0 <= i < |r| ==> r[i] == Rendered(nodes[i], context)
  {
    seq(|nodes|, i requires 0 <= i < |nodes| => Rendered(nodes[i], context))
  }

  /** The log entries of rendering nodes once in each scope, scope by scope. */
  function Runs(nodes: seq<Node>, scopes: seq<RenderContext>): seq<Rendered>
    decreases |scopes|
  {
    if scopes == [] then [] else Runs(nodes, scopes[..|scopes| - 1]) + Each(nodes, scopes[|scopes| - 1])
  }

  /** What a conditional block leaves: nothing rendered and the error on
      failure, otherwise the chosen branch (if any) rendered in context. */
  ghost predicate BranchRendered(before: seq<Rendered>, after: seq<Rendered>, o: Outcome,
                                 plan: Result<Option<seq<Node>>>, context: RenderContext)
  {
    match plan
    case Err(f) => o == Fail(f) && after == before
    case Ok(None) => o == Pass && after == before
    case Ok(Some(nodes)) => o == Pass && after == before + Each(nodes, context)
  }

  /** What {{#each}} leaves: one scope per item, the body rendered in each
      in turn, then the alternate in context when there were no items. */
  ghost predicate EachRendered(before: seq<Rendered>, after: seq<Rendered>, context: RenderContext,
                               p: EachPlan, scopes: seq<RenderContext>)
    reads set c | c in scopes
  {
    && |scopes| == |p.items|
    && (forall i :: 0 <= i < |scopes| ==> ItemScope(scopes[i], context, p.items[i], i, |scopes|))
    && after == before + Runs(p.body, scopes)
                + (if p.items == [] && p.alternate != [] then Each(p.alternate, context) else [])
  }

  /** The parameters block of a block: a tag takes its arguments from its
      first child, which must be a block. */
  function ParametersBlock(target: Block): (r: Result<Block>)
    ensures target.kind.Tag? && target.children == [] ==> r == Err(InvalidOperation("Sequence contains no elements"))
    ensures target.kind.Tag? && target.children != [] && target.children[0].SpanNode? ==> r == Err(InvalidCast)
    ensures r.Ok? ==> r.value == if target.kind.Tag? then target.children[0].block else target
  {
    if !target.kind.Tag? then Ok(target)
    else if target.children == [] then Err(InvalidOperation("Sequence contains no elements"))
    else if target.children[0].SpanNode? then Err(InvalidCast)
    else Ok(target.children[0].block)
  }

  /** The contexts a block's arguments may read. */
  function ParameterContexts(context: RenderContext, target: Block): set<RenderContext>
  {
    if ParametersBlock(target).Ok? then SpanContexts(context, ParametersBlock(target).value.children) else {}
  }

  /** The arguments BlockRenderer.Render passes on: gathered from the
      parameters block, then validated against the tag's descriptor. */
  function BlockArguments(context: RenderContext, target: Block): (r: Result<Arguments>)
    reads ParameterContexts(context, target)
    ensures r.Ok? ==> ValidateTag(target.name, target.descriptor, r.value.args, r.value.maps) == Pass
  {
    match ParametersBlock(target)
    case Err(f) => Err(f)
    case Ok(p) =>
      match Gather(context, p.children, NoArguments)
      case Err(f) => Err(f)
      case Ok(a) =>
        match ValidateTag(target.name, target.descriptor, a.args, a.maps)
        case Fail(f) => Err(f)
        case Pass => Ok(a)
  }

  /** What BlockRenderer.Render does with an {{#each}} block: its
      arguments, then the enumeration they give. */
  function BlockPlan(context: RenderContext, target: Block): (r: Result<EachPlan>)
    reads ParameterContexts(context, target)
    ensures BlockArguments(context, target).Err? ==> r == Err(BlockArguments(context, target).fault)
    ensures BlockArguments(context, target).Ok? ==> r == PlanEach(target, BlockArguments(context, target).value.args)
  {
    match BlockArguments(context, target)
    case Err(f) => Err(f)
    case Ok(a) => PlanEach(target, a.args)
  }

  /** The renderer: the nodes it has handed to the render visitor so far. */
  class Renderer {
    var log: seq<Rendered>

    constructor()
      ensures log == []
    {
      log := [];
    }

    /** RenderChild: hands the node to the visitor. */
    method RenderChild(node: Option<Node>, context: Option<RenderContext>) returns (o: Outcome)
      modifies this
      ensures node.None? ==> o == Fail(ArgumentNull("node"))
      ensures node.Some? && context.None? ==> o == Fail(ArgumentNull("context"))
      ensures o.Fail? ==> log == old(log)
      ensures node.Some? && context.Some? ==> o == Pass && log == old(log) + [Rendered(node.value, context.value)]
    {
      if node.None? {
        return Fail(ArgumentNull("node"));
      }
      if context.None? {
        return Fail(ArgumentNull("context"));
      }
      log := log + [Rendered(node.value, context.value)];
      o := Pass;
    }

    /** RenderChildren: renders each child in turn. */
    method RenderChildren(children: seq<Node>, context: RenderContext)
      modifies this
      ensures log == old(log) + Each(children, context)
    {
      var i := 0;
      while i < |children|
        invariant 0 <= i <= |children|
        invariant log == old(log) + Each(children[..i], context)
      {
        var o := RenderChild(Some(children[i]), Some(context));
        assert Each(children[..i + 1], context) == Each(children[..i], context) + [Rendered(children[i], context)];
        i := i + 1;
      }
      assert children[..i] == children;
    }

    /** The Render of ConditionalBlockRenderer and IsBlockRenderer: the
        branches are tried in order and the first one taken is rendered. */
    method RenderBranches(target: Block, context: RenderContext, markers: set<string>,
                          guards: set<string>, test: Test) returns (o: Outcome)
      modifies this
      ensures BranchRendered(old(log), log, o, old(BranchPlan(context, target, markers, guards, test)), context)
    {
      ghost var plan := BranchPlan(context, target, markers, guards, test);
      var parsed := Partition(target.children, markers);
      if parsed.Err? {
        return Fail(parsed.fault);
      }
      var branches := parsed.value;
      ghost var verdicts := Verdicts(context, branches, |branches|, guards, test);
      var k := 0;
      while k < |branches|
        invariant 0 <= k <= |branches|
        invariant ChooseFrom(verdicts, 0) == ChooseFrom(verdicts, k)
      {
        var arguments := Gather(context, branches[k].marker.children, NoArguments);
        var taken := if arguments.Err? then Err(arguments.fault)
                     else if Guarded(branches[k], guards) then Check(test, arguments.value.args)
                     else Ok(true);
        assert taken == verdicts[k];
        if taken.Err? {
          assert plan == Err(taken.fault);
          return Fail(taken.fault);
        }
        if taken.value {
          assert plan == Ok(Some(branches[k].nodes));
          RenderChildren(branches[k].nodes, context);
          return Pass;
        }
        k := k + 1;
      }
      assert plan == Ok(None);
      o := Pass;
    }

    /** ConditionalBlockRenderer.Render: {{#if}}, {{#elseif}}, {{else}}. */
    method RenderConditional(target: Block, context: RenderContext) returns (o: Outcome)
      modifies this
      ensures BranchRendered(old(log), log, o, old(BranchPlan(context, target, IfMarkers, IfGuards, Truthy)), context)
    {
      o := RenderBranches(target, context, IfMarkers, IfGuards, Truthy);
    }

    /** IsBlockRenderer.Render: {{#is}}, {{#elseis}}, {{else}} and {{^}},
        testing with the operator table. */
    method RenderIs(target: Block, context: RenderContext, operators: map<string, Operators.Operator>) returns (o: Outcome)
      modifies this
      ensures BranchRendered(old(log), log, o, old(BranchPlan(context, target, IsMarkers, IsGuards, Compare(operators))), context)
    {
      o := RenderBranches(target, context, IsMarkers, IsGuards, Compare(operators));
    }

    /** RenderEnumerable: each item is rendered in a new scope holding its
        variables; the alternate is rendered when there are no items. */
    method RenderEnumerable(items: seq<Item>, context: RenderContext, children: seq<Node>,
                            alternate: seq<Node>) returns (ghost scopes: seq<RenderContext>)
      modifies this
      ensures forall i :: 0 <= i < |scopes| ==> fresh(scopes[i])
      ensures EachRendered(old(log), log, context, EachPlan(items, children, alternate), scopes)
    {
      scopes := [];
      var i := 0;
      while i < |items|
        invariant 0 <= i <= |items| && |scopes| == i
        invariant forall j :: 0 <= j < i ==> fresh(scopes[j])
        invariant forall j :: 0 <= j < i ==> ItemScope(scopes[j], context, items[j], j, |items|)
        invariant log == old(log) + Runs(children, scopes)
      {
        var scope := BeginItemScope(context, items[i], i, |items|);
        RenderChildren(children, scope);
        assert (scopes + [scope])[..i] == scopes;
        scopes := scopes + [scope];
        i := i + 1;
      }
      if i == 0 && alternate != [] {
        RenderChildren(alternate, context);
      }
    }

    /** The scope of the i-th of n items: BeginScope with the item, then
        its variables set. */
    method BeginItemScope(context: RenderContext, item: Item, i: int, n: int) returns (scope: RenderContext)
      ensures fresh(scope)
      ensures ItemScope(scope, context, item, i, n)
    {
      var created := CreateChild(Some(context), item.value);
      scope := created.value;
      scope.SetVariable("first", Bool(i == 0));
      scope.SetVariable("last", Bool(i == n - 1));
      scope.SetVariable("index", Int(i));
      if item.key.Some? {
        scope.SetVariable("key", Str(item.key.value));
      }
    }

    /** EnumerableBlockRenderer.Render with the block's arguments. */
    method RenderEach(block: Block, args: seq<Value>, context: RenderContext) returns (o: Outcome, ghost scopes: seq<RenderContext>)
      modifies this
      ensures PlanEach(block, args).Err? ==> o == Fail(PlanEach(block, args).fault) && log == old(log)
      ensures PlanEach(block, args).Ok? ==>
                o == Pass && EachRendered(old(log), log, context, PlanEach(block, args).value, scopes)
      ensures forall i :: 0 <= i < |scopes| ==> fresh(scopes[i])
    {
      scopes := [];
      var plan := PlanEach(block, args);
      if plan.Err? {
        return Fail(plan.fault), scopes;
      }
      scopes := RenderEnumerable(plan.value.items, context, plan.value.body, plan.value.alternate);
      o := Pass;
    }

    /** BlockRenderer.Render for an {{#each}} block: gather the arguments,
        validate them, then render. */
    method RenderBlock(target: Block, context: RenderContext) returns (o: Outcome, ghost scopes: seq<RenderContext>)
      modifies this
      ensures old(BlockPlan(context, target)).Err? ==>
                o == Fail(old(BlockPlan(context, target)).fault) && log == old(log)
      ensures old(BlockPlan(context, target)).Ok? ==>
                o == Pass && EachRendered(old(log), log, context, old(BlockPlan(context, target)).value, scopes)
    {
      scopes := [];
      var parameters := BlockArguments(context, target);
      if parameters.Err? {
        return Fail(parameters.fault), scopes;
      }
      o, scopes := RenderEach(target, parameters.value.args, context);
    }
  }
}
