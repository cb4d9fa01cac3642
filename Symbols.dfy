// The symbols (tokens) of a Handlebars template: their types
// (FuManchu/Tokenizer/HandlebarsSymbolType.cs), the keywords an identifier
// can be (FuManchu/Tokenizer/HandlebarsKeyword.cs and
// HandlebarsKeywordDetector.cs), the errors the tokenizer and the parser
// record (FuManchu/Error.cs) and the symbol record itself
// (src/FuManchu/Tokenizer/SymbolBase.cs and HandlebarsSymbol.cs).
module Symbols {
  import opened Wrappers
  import opened SourceLocations

  datatype SymbolType =
    | Unknown | Identifier | Keyword | IntegerLiteral | NewLine | WhiteSpace
    | RealLiteral | StringLiteral | Comment
    | Assign | Bang | Dot | Slash | Escape | RightBracket | LeftBracket
    | RightBrace | LeftBrace | Tilde | Hash | RightArrow | Negate | Ampersand
    | Dash | At
    | OpenTag | RawOpenTag | CloseTag | RawCloseTag
    | CurrentContext | ParentContext
    | Text
    // Read by the parser of the src tree; no tokenizer state produces them.
    | OpenParenthesis | CloseParenthesis

  datatype HandlebarsKeyword = Each | If | Unless | Else | With

  /** HandlebarsKeywordDetector.SymbolTypeForIdentifier: an exact,
      case-sensitive lookup in a fixed table. */
  function KeywordFor(id: string): (k: Option<HandlebarsKeyword>)
    ensures k == Some(Each) <==> id == "each"
    ensures k == Some(If) <==> id == "if"
    ensures k == Some(Unless) <==> id == "unless"
    ensures k == Some(Else) <==> id == "else"
    ensures k == Some(With) <==> id == "with"
  {
    if id == "each" then Some(Each)
    else if id == "if" then Some(If)
    else if id == "unless" then Some(Unless)
    else if id == "else" then Some(Else)
    else if id == "with" then Some(With)
    else None
  }

  /** An error with the location it refers to and the length it covers. */
  datatype Error = Error(message: string, location: SourceLocation, length: int)

  /** A symbol: where it starts, its text, its type, the errors recorded
      while it was read, and the keyword an identifier spells. */
  datatype Symbol = Symbol(start: SourceLocation, content: string, kind: SymbolType,
                           errors: seq<Error>, keyword: Option<HandlebarsKeyword>)
  {
    /** The offset just past the symbol. */
    function End(): int { start.absolute + |content| }

    /** SymbolBase.ChangeStart. */
    function ChangeStart(newStart: SourceLocation): Symbol {
      this.(start := newStart)
    }
  }

  /** SymbolBase.Equals: start, content and type; errors and keyword are not compared. */
  predicate SameSymbol(a: Symbol, b: Symbol) {
    a.start == b.start && a.content == b.content && a.kind == b.kind
  }

  /** The symbol a plain HandlebarsSymbol constructor builds: no errors, no keyword. */
  function MakeSymbol(start: SourceLocation, content: string, kind: SymbolType): Symbol {
    Symbol(start, content, kind, [], None)
  }

  /** The text of a sequence of symbols, in order. */
  function Contents(syms: seq<Symbol>): string {
    if syms == [] then [] else syms[0].content + Contents(syms[1..])
  }

  /** Concatenation of texts regroups freely. */
  lemma AppendAssociates(x: string, a: string, b: string)
    ensures x + (a + b) == (x + a) + b
  {
  }

  /** The text of two runs of symbols is the text of the first, then the second. */
  lemma {:induction false} ContentsAppend(a: seq<Symbol>, b: seq<Symbol>)
    ensures Contents(a + b) == Contents(a) + Contents(b)
    decreases |a|
  {
    if a != [] {
      assert (a + b)[1..] == a[1..] + b;
      ContentsAppend(a[1..], b);
    } else {
      assert a + b == b;
    }
  }

  /** Symbols that agree on their texts, in order, have the same text. */
  lemma {:induction false} ContentsPointwise(a: seq<Symbol>, b: seq<Symbol>)
    requires |a| == |b| && forall i :: 0 <= i < |a| ==> a[i].content == b[i].content
    ensures Contents(a) == Contents(b)
    decreases |a|
  {
    if a != [] {
      ContentsPointwise(a[1..], b[1..]);
    }
  }
}
