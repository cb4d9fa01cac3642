// TokenizerView (FuManchu/Tokenizer/TokenizerView.cs): the parser's window
// on the tokenizer, holding the current symbol and whether the symbols ran
// out, and able to rewind the reader to the start of a symbol.
module TokenizerViews {
  import opened Wrappers
  import opened Symbols
  import opened Tokenizers

  class TokenizerView {
    const tokenizer: HandlebarsTokenizer
    var current: Option<Symbol>
    var endOfFile: bool

    ghost predicate Valid()
      reads this, tokenizer, tokenizer.source, tokenizer.source.buffer
    {
      tokenizer.Ready()
    }

    constructor (tokenizer: HandlebarsTokenizer)
      requires tokenizer.Ready()
      ensures Valid() && this.tokenizer == tokenizer && current.None? && !endOfFile
    {
      this.tokenizer := tokenizer;
      current := None;
      endOfFile := false;
    }

    /** Next: the next symbol becomes the current one; the view is at the end
        exactly when there was none. */
    method Next() returns (r: bool)
      requires Valid()
      modifies this`current, this`endOfFile, tokenizer, tokenizer.source, tokenizer.source.buffer`currentLine
      ensures Valid() && old(tokenizer.Pos()) <= tokenizer.Pos()
      ensures r <==> current.Some?
      ensures endOfFile <==> current.None?
      ensures old(tokenizer.Pos()) == |tokenizer.text| ==> endOfFile && tokenizer.Pos() == old(tokenizer.Pos())
      ensures current.Some? ==>
                current.value.start.absolute == old(tokenizer.Pos()) && current.value.End() == tokenizer.Pos()
                && current.value.content == tokenizer.text[old(tokenizer.Pos())..tokenizer.Pos()]
    {
      current := tokenizer.NextSymbol();
      endOfFile := current.None?;
      return !endOfFile;
    }

    /** PutBack: only the symbol that ends at the reader can be put back; the
        reader moves back to its start, there is no current symbol, and the
        tokenizer starts again in the Data state. */
    method PutBack(symbol: Symbol) returns (o: Outcome)
      requires Valid()
      modifies this`current, this`endOfFile, tokenizer`currentState, tokenizer.source, tokenizer.source.buffer`currentLine
      ensures old(tokenizer.Pos()) != symbol.End() ==>
                o == Fail(InvalidOperation("Cannot put symbol back.")) && unchanged(this) && unchanged(tokenizer)
                && unchanged(tokenizer.source)
      ensures old(tokenizer.Pos()) == symbol.End() && symbol.start.absolute < 0 ==>
                o == Fail(ArgumentOutOfRange("absolute"))
      ensures old(tokenizer.Pos()) == symbol.End() && 0 <= symbol.start.absolute ==>
                o.Pass? && Valid() && tokenizer.Pos() == symbol.start.absolute && current.None?
                && (endOfFile <==> tokenizer.Pos() >= |tokenizer.text|) && tokenizer.currentState == State.Data
    {
      var source := tokenizer.source;
      if source.position != symbol.start.absolute + |symbol.content| {
        return Fail(InvalidOperation("Cannot put symbol back."));
      }
      o := source.SetPosition(source.position - |symbol.content|);
      if o.Fail? {
        return;
      }
      current := None;
      endOfFile := source.position >= source.Length();
      tokenizer.Reset();
    }
  }
}
