// The render context (src/FuManchu/Renderer/RenderContext.cs) and the two
// factories that create contexts (src/FuManchu/Renderer/RenderContextFactory.cs).
// A context holds the template data it resolves paths against, its parent and
// root contexts, the unknown-value resolver and the @-variables the block
// renderers set. Resolving a value walks the symbols of an expression span:
// '../' climbs to the parent context, '@' switches to a variable lookup,
// literals return their text, and the rest builds a dotted path that the data
// evaluator resolves.
module RenderContexts {
  import opened Wrappers
  import opened Symbols
  import opened SyntaxTrees
  import opened Values
  import Evaluation
  import Tags

  /** The value of a variable in a variable table, or the fallback. */
  function VariableIn(variables: map<string, Value>, name: string, fallback: Value): (r: Value)
  {
    if name in variables then variables[name] else fallback
  }

  /** Setting a variable changes the lookup of that name and of no other. */
  lemma SetThenGet(variables: map<string, Value>, name: string, value: Value, other: string, fallback: Value)
    ensures VariableIn(variables[name := value], other, fallback) ==
            if other == name then value else VariableIn(variables, other, fallback)
  {
  }

  /** A render context. The parent, the root, the template data and the
      resolver are fixed when the context is created; the variables change. */
  class RenderContext {
    const parent: Option<RenderContext>
    const root: Option<RenderContext>
    const data: TemplateData
    const resolver: Option<string -> Value>
    var escapeEncoding: bool
    var variables: map<string, Value>

    /** The RenderContext constructor with the properties the factories set. */
    constructor (parent: Option<RenderContext>, root: Option<RenderContext>, data: TemplateData,
                 resolver: Option<string -> Value>)
      ensures this.parent == parent && this.root == root && this.data == data
      ensures SameResolver(this.resolver, resolver)
      ensures !escapeEncoding && variables == map[]
    {
      this.parent := parent;
      this.root := root;
      this.data := data;
      this.resolver := resolver;
      escapeEncoding := false;
      variables := map[];
    }

    /** GetVariable: the stored value, or the fallback when none is stored. */
    function GetVariable(name: string, fallback: Value): (r: Value)
      reads this
      ensures name in variables ==> r == variables[name]
      ensures name !in variables ==> r == fallback
    {
      VariableIn(variables, name, fallback)
    }

    /** SetVariable: stores the value, replacing any earlier one. */
    method SetVariable(name: string, value: Value)
      modifies this
      ensures variables == old(variables)[name := value]
      ensures escapeEncoding == old(escapeEncoding)
      ensures forall n :: GetVariable(n, Null) == if n == name then value else old(GetVariable(n, Null))
    {
      variables := variables[name := value];
    }

    /** ResolveValue(expression, isVariableLookup): resolution against this
        context and its own template data. */
    function ResolveExpression(expression: string, isVariable: bool): (r: Value)
      reads this
      ensures r == ResolveIn(this, data, expression, isVariable)
    {
      ResolveIn(this, data, expression, isVariable)
    }

    /** ResolveValueFromSymbols: walks the symbols, keeping the context, the
        template data, the path built so far and whether '@' was seen, and
        resolves the path at the end. */
    method ResolveValueFromSymbols(symbols: seq<Symbol>) returns (r: Result<Value>)
      ensures r == ResolveSymbols(this, symbols)
    {
      if |symbols| == 0 {
        return Ok(data.model);
      }
      var context := this;
      var templateData := data;
      var expression := "";
      var isVariableLookup := false;
      var i := 0;
      while i < |symbols|
        invariant 0 <= i <= |symbols|
        invariant Walk(this, symbols, Start(this)) ==
                  Walk(this, symbols[i..], Cursor(context, templateData, expression, isVariableLookup))
      {
        var symbol := symbols[i];
        assert symbols[i..] == [symbol] + symbols[i + 1..];
        match symbol.kind {
          case At =>
            isVariableLookup := true;
          case CurrentContext =>
            templateData := data;
          case ParentContext =>
            if context.parent.None? {
              return Ok(Null);
            }
            context := context.parent.value;
            templateData := context.data;
          case IntegerLiteral =>
            return Ok(Str(symbol.content));
          case RealLiteral =>
            return Ok(Str(symbol.content));
          case StringLiteral =>
            r := Unquote(symbol.content);
            return;
          case Slash =>
            expression := expression + ".";
          case _ =>
            if IsPathSymbol(symbol.kind) {
              if symbol.content == "this" && |expression| == 0 {
                templateData := data;
              } else {
                expression := expression + symbol.content;
              }
            }
        }
        i := i + 1;
      }
      if "." <= expression {
        expression := expression[1..];
      }
      return Ok(ResolveIn(context, templateData, expression, isVariableLookup));
    }

    /** ResolveValue(span): expression and parameter spans resolve all their
        symbols, map spans the symbols after the key and the '='; any other
        span resolves to the current model. */
    method ResolveValue(span: Span) returns (r: Result<Value>)
      ensures r == ResolveSpan(this, span)
    {
      match span.kind {
        case Expression =>
          r := ResolveValueFromSymbols(span.symbols);
        case Parameter =>
          r := ResolveValueFromSymbols(span.symbols);
        case Map =>
          r := ResolveValueFromSymbols(Skip(span.symbols, 2));
        case _ =>
          r := Ok(data.model);
      }
    }
  }

  /** RenderContextFactory.CreateRenderContext(renderer, model, resolver): a
      top-level context, with neither parent nor root. */
  method CreateRenderContext(model: Value, resolver: Option<string -> Value>) returns (c: RenderContext)
    ensures fresh(c)
    ensures c.parent.None? && c.root.None?
    ensures c.data == TemplateData(model) && SameResolver(c.resolver, resolver)
    ensures !c.escapeEncoding && c.variables == map[]
  {
    c := new RenderContext(None, None, TemplateData(model), resolver);
  }

  /** RenderContextFactory.CreateRenderContext(parent, model): a child of the
      parent, whose model defaults to the parent's, which inherits the
      resolver, and whose root is the parent's root or else the parent. */
  method CreateChild(parent: Option<RenderContext>, model: Value) returns (r: Result<RenderContext>)
    ensures parent.None? ==> r == Err(ArgumentNull("parent"))
    ensures parent.Some? ==> r.Ok? && fresh(r.value)
    ensures parent.Some? ==> ChildOf(r.value, parent.value, model)
    ensures parent.Some? ==> !r.value.escapeEncoding && r.value.variables == map[]
  {
    if parent.None? {
      return Err(ArgumentNull("parent"));
    }
    var p := parent.value;
    var m := if model.Null? then p.data.model else model;
    var root := if p.root.Some? then p.root else Some(p);
    var c := new RenderContext(Some(p), root, TemplateData(m), p.resolver);
    return Ok(c);
  }

  /** c is a child context of p created for model. */
  ghost predicate ChildOf(c: RenderContext, p: RenderContext, model: Value)
  {
    && c.parent == Some(p)
    && c.root == (if p.root.Some? then p.root else Some(p))
    && c.data == TemplateData(if model.Null? then p.data.model else model)
    && SameResolver(c.resolver, p.resolver)
  }

  /** Two resolvers that are both absent, or give the same answer to every
      path. */
  ghost predicate SameResolver(a: Option<string -> Value>, b: Option<string -> Value>)
  {
    a.None? == b.None? && (a.Some? && b.Some? ==> forall e :: a.value(e) == b.value(e))
  }

  /** Every child in a chain of children created from a top-level context
      has that context as its root. */
  lemma RootOfChain(top: RenderContext, cs: seq<RenderContext>, models: seq<Value>)
    requires top.root.None?
    requires |cs| == |models| >= 1
    requires ChildOf(cs[0], top, models[0])
    requires forall i :: 1 <= i < |cs| ==> ChildOf(cs[i], cs[i - 1], models[i])
    ensures forall i :: 0 <= i < |cs| ==> cs[i].root == Some(top)
  {
    var i := 0;
    while i < |cs|
      invariant 0 <= i <= |cs|
      invariant forall j :: 0 <= j < i ==> cs[j].root == Some(top)
    {
      if i > 0 {
        assert ChildOf(cs[i], cs[i - 1], models[i]);
      }
      i := i + 1;
    }
  }

  /** Enumerable.Skip(n). */
  function Skip<T>(s: seq<T>, n: nat): (r: seq<T>)
    ensures n <= |s| ==> r == s[n..]
    ensures n > |s| ==> r == []
  {
    if n <= |s| then s[n..] else []
  }

  /** The symbol kinds whose text becomes part of the path. */
  predicate IsPathSymbol(k: SymbolType)
  {
    k.Identifier? || k.Keyword? || k.Dot? || k.LeftBracket? || k.RightBracket?
  }

  /** String.Substring(1, Length - 2) on a quoted literal: the text between
      the quotes, or the exception Substring throws on text shorter than two
      characters. */
  function Unquote(s: string): (r: Result<Value>)
    ensures |s| >= 2 ==> r == Ok(Str(s[1..|s| - 1]))
    ensures |s| == 0 ==> r == Err(ArgumentOutOfRange("startIndex"))
    ensures |s| == 1 ==> r == Err(ArgumentOutOfRange("length"))
  {
    if |s| == 0 then Err(ArgumentOutOfRange("startIndex"))
    else if |s| == 1 then Err(ArgumentOutOfRange("length"))
    else Ok(Str(s[1..|s| - 1]))
  }

  /** The state of a symbol walk: the context and template data reached, the
      path built so far and whether the lookup is a variable lookup. */
  datatype Cursor = Cursor(context: RenderContext, data: TemplateData, expression: string, isVariable: bool)

  /** A walk either goes on from a cursor or has returned. */
  datatype Step = Continue(cursor: Cursor) | Stop(result: Result<Value>)

  /** The walk starts at the context itself with an empty path. */
  function Start(self: RenderContext): Cursor
  {
    Cursor(self, self.data, "", false)
  }

  /** One symbol of ResolveValueFromSymbols. CurrentContext and a leading
      "this" reset the template data to that of the context the walk started
      from (self), not of the context reached. */
  function StepSymbol(self: RenderContext, c: Cursor, s: Symbol): Step
  {
    match s.kind
    case At => Continue(c.(isVariable := true))
    case CurrentContext => Continue(c.(data := self.data))
    case ParentContext =>
      if c.context.parent.None? then Stop(Ok(Null))
      else Continue(c.(context := c.context.parent.value, data := c.context.parent.value.data))
    case IntegerLiteral => Stop(Ok(Str(s.content)))
    case RealLiteral => Stop(Ok(Str(s.content)))
    case StringLiteral => Stop(Unquote(s.content))
    case Slash => Continue(c.(expression := c.expression + "."))
    case _ =>
      if !IsPathSymbol(s.kind) then Continue(c)
      else if s.content == "this" && c.expression == "" then Continue(c.(data := self.data))
      else Continue(c.(expression := c.expression + s.content))
  }

  /** The walk over a run of symbols, stopping at the first that returns. */
  function Walk(self: RenderContext, symbols: seq<Symbol>, c: Cursor): Step
    decreases |symbols|
  {
    if symbols == [] then Continue(c)
    else
      match StepSymbol(self, c, symbols[0])
      case Stop(r) => Stop(r)
      case Continue(next) => Walk(self, symbols[1..], next)
  }

  /** The context whose variables a walk may read at its end. */
  function EndContext(self: RenderContext, symbols: seq<Symbol>): RenderContext
  {
    var w := Walk(self, symbols, Start(self));
    if w.Continue? then w.cursor.context else self
  }

  /** What ResolveValueFromSymbols returns. */
  function ResolveSymbols(self: RenderContext, symbols: seq<Symbol>): Result<Value>
    reads EndContext(self, symbols)
  {
    if symbols == [] then Ok(self.data.model)
    else
      match Walk(self, symbols, Start(self))
      case Stop(r) => r
      case Continue(c) =>
        var e := if "." <= c.expression then c.expression[1..] else c.expression;
        Ok(ResolveIn(c.context, c.data, e, c.isVariable))
  }

  /** The context whose variables resolving a span may read. */
  function SpanContext(self: RenderContext, span: Span): RenderContext
  {
    match span.kind
    case Expression => EndContext(self, span.symbols)
    case Parameter => EndContext(self, span.symbols)
    case Map => EndContext(self, Skip(span.symbols, 2))
    case _ => self
  }

  /** What ResolveValue(span) returns. */
  function ResolveSpan(self: RenderContext, span: Span): Result<Value>
    reads SpanContext(self, span)
  {
    match span.kind
    case Expression => ResolveSymbols(self, span.symbols)
    case Parameter => ResolveSymbols(self, span.symbols)
    case Map => ResolveSymbols(self, Skip(span.symbols, 2))
    case _ => Ok(self.data.model)
  }

  /** ResolveValue(context, templateData, expression, isVariableLookup). */
  function ResolveIn(context: RenderContext, data: TemplateData, expression: string, isVariable: bool): Value
    reads context
  {
    if isVariable && expression != "" && !("root." <= expression) then
      context.GetVariable(expression, Null)
    else if isVariable && expression != "" then
      var target := if context.root.Some? then context.root.value else context;
      LookupPath(target, target.data, expression[5..])
    else LookupPath(context, data, expression)
  }

  /** The path lookup behind ResolveValue: a blank path is the model itself,
      and a path the evaluator cannot resolve goes to the unknown-value
      resolver, or is null without one. */
  function LookupPath(context: RenderContext, data: TemplateData, expression: string): Value
  {
    if Tags.IsBlank(expression) then
      (if data.model.Null? then Unknown(context, expression) else data.model)
    else
      match Evaluation.EvalData(data, expression)
      case Some(info) => info.value
      case None => Unknown(context, expression)
  }

  /** The UnknownValueResolver's answer, or null without a resolver. */
  function Unknown(context: RenderContext, expression: string): Value
  {
    if context.resolver.Some? then context.resolver.value(expression) else Null
  }

  /** The context n parent links above c, if there is one. */
  function Ancestor(c: RenderContext, n: nat): Option<RenderContext>
    decreases n
  {
    if n == 0 then Some(c)
    else if c.parent.None? then None
    else Ancestor(c.parent.value, n - 1)
  }

  /** The symbols that end a walk. */
  predicate Stops(k: SymbolType)
  {
    k.ParentContext? || k.IntegerLiteral? || k.RealLiteral? || k.StringLiteral?
  }

  /** A walk over two runs of symbols is the walk over the first, then,
      unless it returned, the walk over the second. */
  lemma {:induction false} WalkAppend(self: RenderContext, a: seq<Symbol>, b: seq<Symbol>, c: Cursor)
    ensures Walk(self, a + b, c) ==
            match Walk(self, a, c)
            case Stop(r) => Stop(r)
            case Continue(next) => Walk(self, b, next)
    decreases |a|
  {
    if a == [] {
      assert a + b == b;
    } else {
      assert (a + b)[0] == a[0];
      assert (a + b)[1..] == a[1..] + b;
      match StepSymbol(self, c, a[0])
      case Stop(_) =>
      case Continue(next) =>
        assert Walk(self, a + b, c) == Walk(self, a[1..] + b, next);
        assert Walk(self, a, c) == Walk(self, a[1..], next);
        WalkAppend(self, a[1..], b, next);
    }
  }

  /** Without a parent step or a literal, a walk never returns early. */
  lemma {:induction false} WalkContinues(self: RenderContext, ps: seq<Symbol>, c: Cursor)
    requires forall i :: 0 <= i < |ps| ==> !Stops(ps[i].kind)
    ensures Walk(self, ps, c).Continue?
    ensures Walk(self, ps, c).cursor.context == c.context
    decreases |ps|
  {
    if ps != [] {
      WalkContinues(self, ps[1..], StepSymbol(self, c, ps[0]).cursor);
    }
  }

  /** Each ParentContext symbol climbs one context; climbing past the top
      context returns null. */
  lemma {:induction false} ClimbParents(self: RenderContext, ps: seq<Symbol>, rest: seq<Symbol>, c: Cursor)
    requires forall i :: 0 <= i < |ps| ==> ps[i].kind.ParentContext?
    ensures Ancestor(c.context, |ps|).None? ==> Walk(self, ps + rest, c) == Stop(Ok(Null))
    ensures |ps| > 0 && Ancestor(c.context, |ps|).Some? ==>
              var a := Ancestor(c.context, |ps|).value;
              Walk(self, ps + rest, c) == Walk(self, rest, c.(context := a, data := a.data))
    decreases |ps|
  {
    if ps != [] {
      assert (ps + rest)[0] == ps[0];
      assert (ps + rest)[1..] == ps[1..] + rest;
      if c.context.parent.Some? {
        var p := c.context.parent.value;
        ClimbParents(self, ps[1..], rest, c.(context := p, data := p.data));
      }
    }
  }

  /** The text a run of path symbols adds to the path: Slash adds a '.', the
      others their own text. */
  function PathText(ps: seq<Symbol>): string
  {
    if ps == [] then ""
    else (if ps[0].kind.Slash? then "." else ps[0].content) + PathText(ps[1..])
  }

  /** One path symbol or slash after the start of the path appends its text. */
  lemma StepPath(self: RenderContext, c: Cursor, s: Symbol)
    requires c.expression != ""
    requires IsPathSymbol(s.kind) || s.kind.Slash?
    ensures StepSymbol(self, c, s) == Continue(c.(expression := c.expression + (if s.kind.Slash? then "." else s.content)))
  {
  }

  /** Once the path is started, path symbols and slashes append their text. */
  lemma {:induction false} PathBuilds(self: RenderContext, ps: seq<Symbol>, c: Cursor)
    requires c.expression != ""
    requires forall i :: 0 <= i < |ps| ==> IsPathSymbol(ps[i].kind) || ps[i].kind.Slash?
    ensures Walk(self, ps, c) == Continue(c.(expression := c.expression + PathText(ps)))
    decreases |ps|
  {
    if ps != [] {
      var t := if ps[0].kind.Slash? then "." else ps[0].content;
      StepPath(self, c, ps[0]);
      assert Walk(self, ps, c) == Walk(self, ps[1..], c.(expression := c.expression + t));
      PathBuilds(self, ps[1..], c.(expression := c.expression + t));
      assert c.expression + t + PathText(ps[1..]) == c.expression + PathText(ps);
    }
  }

  /** A path of an identifier and further path symbols resolves the text
      they spell, without its leading '.', against the context itself. */
  lemma PathResolves(self: RenderContext, id: Symbol, ps: seq<Symbol>)
    requires id.kind.Identifier? && id.content != "" && id.content != "this"
    requires forall i :: 0 <= i < |ps| ==> IsPathSymbol(ps[i].kind) || ps[i].kind.Slash?
    ensures var e := id.content + PathText(ps);
      ResolveSymbols(self, [id] + ps) ==
        Ok(ResolveIn(self, self.data, if "." <= e then e[1..] else e, false))
  {
    var c := Start(self).(expression := id.content);
    assert "" + id.content == id.content;
    assert StepSymbol(self, Start(self), id) == Continue(c);
    assert ([id] + ps)[0] == id && ([id] + ps)[1..] == ps;
    assert Walk(self, [id] + ps, Start(self)) == Walk(self, ps, c);
    PathBuilds(self, ps, c);
  }

  /** A leading "this" is skipped when more symbols follow. */
  lemma ThisSkipped(self: RenderContext, this_: Symbol, ps: seq<Symbol>)
    requires IsPathSymbol(this_.kind) && this_.content == "this"
    requires ps != []
    ensures ResolveSymbols(self, [this_] + ps) == ResolveSymbols(self, ps)
  {
    assert ([this_] + ps)[1..] == ps;
    assert StepSymbol(self, Start(self), this_) == Continue(Start(self));
  }

  /** A number literal returns its own text, and a string literal the text
      between its quotes, whatever symbols follow. */
  lemma LiteralReturns(self: RenderContext, lit: Symbol, rest: seq<Symbol>)
    requires lit.kind.IntegerLiteral? || lit.kind.RealLiteral? || lit.kind.StringLiteral?
    ensures lit.kind.StringLiteral? && |lit.content| >= 2 ==>
              ResolveSymbols(self, [lit] + rest) == Ok(Str(lit.content[1..|lit.content| - 1]))
    ensures !lit.kind.StringLiteral? ==> ResolveSymbols(self, [lit] + rest) == Ok(Str(lit.content))
  {
    assert ([lit] + rest)[0] == lit;
  }

  /** '@' followed by a name reads the variable of that name from the context
      itself, or null when it is not set. */
  lemma VariableLookup(self: RenderContext, at: Symbol, id: Symbol)
    requires at.kind.At? && id.kind.Identifier?
    requires id.content != "" && id.content != "this"
    requires !("." <= id.content) && !("root." <= id.content)
    ensures ResolveSymbols(self, [at, id]) == Ok(self.GetVariable(id.content, Null))
  {
    var c := Start(self).(isVariable := true);
    assert [at, id][1..] == [id];
    assert Walk(self, [at, id], Start(self)) == Walk(self, [id], c);
    assert Walk(self, [id], c) == Continue(c.(expression := id.content));
  }

  /** "@root." resolves the rest of the path against the root context, or
      against the context itself when it has no root. */
  lemma RootPath(context: RenderContext, data: TemplateData, e: string)
    ensures var target := if context.root.Some? then context.root.value else context;
      ResolveIn(context, data, "root." + e, true) == LookupPath(target, target.data, e)
  {
    assert "root." <= "root." + e;
    assert ("root." + e)[5..] == e;
  }

  /** A path the evaluator does not resolve goes to the resolver, and is
      null without one. */
  lemma UnresolvedPath(context: RenderContext, data: TemplateData, e: string)
    requires !Tags.IsBlank(e) && Evaluation.EvalData(data, e).None?
    ensures context.resolver.None? ==> ResolveIn(context, data, e, false) == Null
    ensures context.resolver.Some? ==> ResolveIn(context, data, e, false) == context.resolver.value(e)
  {
  }

  /** "../this" resolves to the model of the context the walk started from:
      "this" resets the template data to that context's own, while the
      context reached stays the parent. */
  lemma ParentThenThis(self: RenderContext, up: Symbol, this_: Symbol)
    requires up.kind.ParentContext? && IsPathSymbol(this_.kind) && this_.content == "this"
    requires self.parent.Some? && !self.data.model.Null?
    ensures ResolveSymbols(self, [up, this_]) == Ok(self.data.model)
  {
    var p := self.parent.value;
    var c := Start(self).(context := p, data := p.data);
    assert [up, this_][1..] == [this_];
    assert Walk(self, [up, this_], Start(self)) == Walk(self, [this_], c);
    assert Walk(self, [this_], c) == Continue(c.(data := self.data));
    assert Tags.IsBlank("");
  }
}
