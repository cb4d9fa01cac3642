// The Handlebars tokenizer: the generic tokenizer over a reader
// (FuManchu/Tokenizer/Tokenizer.cs), the Turn loop of its state machine
// (src/FuManchu/StateMachine.cs) and the Handlebars states
// (src/FuManchu/Tokenizer/HandlebarsTokenizer.cs).
module Tokenizers {
  import opened Wrappers
  import opened SourceLocations
  import opened LineBuffers
  import opened TextReaders
  import opened Symbols
  import opened StateMachines
  import Chars

  /** The states of HandlebarsTokenizer; the literal scanners are helpers of
      ContinueTagContent and run while it is the current state. */
  datatype State =
    | Data | BeginTag | BeginTagContent(raw: bool) | ContinueTagContent(raw: bool)
    | BeginComment | ContinueComment(explicitTerminal: bool) | EndTag(raw: bool)
    | WhiteSpace | Stop

  type Step = StateResult<Symbol, State>

  /** The character at an offset, or '\0' past the end (CurrentCharacter). */
  function CharOrNul(t: string, p: int): char {
    if 0 <= p < |t| then t[p] else '\0'
  }

  function Min(a: int, b: int): int { if a <= b then a else b }

  /** The first offset from p on where stop holds of the character there and
      the one after it, or the end of the text: where TakeUntil stops. */
  function Until(t: string, p: nat, stop: (char, char) -> bool): (q: nat)
    requires p <= |t|
    ensures p <= q <= |t|
    ensures q < |t| ==> stop(t[q], CharOrNul(t, q + 1))
    decreases |t| - p
  {
    if p == |t| || stop(t[p], CharOrNul(t, p + 1)) then p else Until(t, p + 1, stop)
  }

  /** Until has passed over characters where stop does not hold. */
  lemma {:induction false} UntilSkips(t: string, p: nat, stop: (char, char) -> bool, k: nat)
    requires p <= |t| && p <= k < Until(t, p, stop)
    ensures !stop(t[k], CharOrNul(t, k + 1))
    decreases k - p
  {
    if k > p {
      UntilSkips(t, p + 1, stop, k);
    }
  }

  /** One step of Until. */
  lemma UntilStep(t: string, p: nat, stop: (char, char) -> bool)
    requires p <= |t|
    ensures Until(t, p, stop) == if p == |t| || stop(t[p], CharOrNul(t, p + 1)) then p else Until(t, p + 1, stop)
  {
  }

  lemma SliceSplit(t: string, i: nat, j: nat, k: nat)
    requires i <= j <= k <= |t|
    ensures t[i..k] == t[i..j] + t[j..k]
  {
  }

  /** The text from p on spells expected under the case filter, reading
      '\0' past the end. */
  predicate Spells(t: string, p: int, expected: string, caseSensitive: bool) {
    |expected| > 0
    && forall j :: 0 <= j < |expected| ==> Filter(CharOrNul(t, p + j), caseSensitive) == Filter(expected[j], caseSensitive)
  }

  /** Spelling two characters is matching each of them. */
  lemma SpellsPair(t: string, p: int, a: char, b: char)
    ensures Spells(t, p, [a, b], true) <==> CharOrNul(t, p) == a && CharOrNul(t, p + 1) == b
  {
    assert [a, b][0] == a && [a, b][1] == b;
    assert CharOrNul(t, p + 0) == CharOrNul(t, p);
  }

  /** The ordering that makes Turn terminate: a state that neither reads a
      character nor emits a symbol hands over to a state of lower rank. */
  function Rank(s: State, c: char): nat {
    match s
    case Stop => 0
    case EndTag(_) => 1
    case ContinueComment(_) => 2
    case ContinueTagContent(_) => 2
    case BeginComment => 3
    case BeginTagContent(_) => 3
    case BeginTag => 4
    case Data => 5
    case WhiteSpace => if Chars.IsWhiteSpace(c) || Chars.IsNewLine(c) then 1 else 6
  }

  /** The character filter of Lookahead: identity, or ToLowerInvariant. */
  function Filter(c: char, caseSensitive: bool): char {
    if caseSensitive then c else Chars.ToLower(c)
  }

  /** The symbol types a prefix character of a tag produces. */
  function PrefixKind(c: char): SymbolType {
    match c
    case '!' => Bang
    case '>' => RightArrow
    case '^' => Negate
    case '#' => Hash
    case '&' => Ampersand
    case _ => At
  }

  // Character classes of TakeUntil's predicates; the second argument is the
  // character after the current one (Peek).
  predicate DataStop(c: char, n: char) { c == '{' || Chars.IsWhiteSpace(c) }
  predicate DashDash(c: char, n: char) { c == '-' && n == '-' }
  predicate BraceBrace(c: char, n: char) { c == '}' && n == '}' }
  predicate NotSpace(c: char, n: char) { !Chars.IsWhiteSpace(c) }
  predicate NotSpaceOrNewLine(c: char, n: char) { !Chars.IsWhiteSpace(c) && !Chars.IsNewLine(c) }
  predicate NotDigit(c: char, n: char) { !Chars.IsDigit(c) }
  predicate NotHexDigit(c: char, n: char) { !Chars.IsHexDigit(c) }
  predicate NotIdentifierPart(c: char, n: char) { !Chars.IsIdentifierPart(c) }
  predicate LiteralStop(quote: char, c: char) { c == '\\' || c == quote || Chars.IsNewLine(c) }

  /** The punctuation ContinueTagContent has a case for. */
  predicate TagCharacter(c: char) {
    c == '.' || c == '/' || c == ' ' || c == '~' || c == '"' || c == '\'' || c == '=' || c == '}'
  }

  /** Where a quoted literal whose opening quote ends before p stops: at the
      closing quote, a line break or the end of the text, passing over a
      backslash and the quote or backslash it escapes. */
  function LiteralEnd(t: string, p: nat, quote: char): (q: nat)
    requires p <= |t|
    ensures p <= q <= |t|
    ensures q < |t| ==> t[q] == quote || Chars.IsNewLine(t[q])
    decreases |t| - p
  {
    if p == |t| then p
    else if t[p] == '\\' then
      if p + 1 < |t| && (t[p + 1] == quote || t[p + 1] == '\\') then LiteralEnd(t, p + 2, quote)
      else LiteralEnd(t, p + 1, quote)
    else if t[p] == quote || Chars.IsNewLine(t[p]) then p
    else LiteralEnd(t, p + 1, quote)
  }

  /** TakeUntil's predicate inside a quoted literal. */
  function QuoteStop(quote: char): (char, char) -> bool {
    (c: char, n: char) => LiteralStop(quote, c)
  }

  /** Up to the next backslash, quote or line break, LiteralEnd does not
      change. */
  lemma {:induction false} LiteralEndUntil(t: string, p: nat, quote: char)
    requires p <= |t| && quote != '\\'
    ensures LiteralEnd(t, p, quote) == LiteralEnd(t, Until(t, p, QuoteStop(quote)), quote)
    decreases |t| - p
  {
    if p < |t| && !LiteralStop(quote, t[p]) {
      LiteralEndUntil(t, p + 1, quote);
    }
  }

  /** Where the exponent part of a real literal ends when it would start at p:
      'e' or 'E', an optional sign and the digits after it; empty without 'e'. */
  function ExponentEnd(t: string, p: nat): (q: nat)
    requires p <= |t|
    ensures p <= q <= |t|
  {
    if CharOrNul(t, p) == 'e' || CharOrNul(t, p) == 'E' then
      var digits := if CharOrNul(t, p + 1) == '+' || CharOrNul(t, p + 1) == '-' then p + 2 else p + 1;
      Until(t, digits, NotDigit)
    else p
  }

  /** The end and the type of the numeric literal that starts at p: "0x" and
      hex digits, or digits with an optional fraction (a '.' followed by a
      digit) and an optional exponent; a fraction or an exponent makes it real. */
  function NumberAt(t: string, p: nat): (n: (nat, SymbolType))
    requires p <= |t|
    ensures p <= n.0 <= |t|
    ensures n.1 == IntegerLiteral || n.1 == RealLiteral
  {
    if CharOrNul(t, p) == '0' && CharOrNul(t, p + 1) == 'x' then (Until(t, p + 2, NotHexDigit), IntegerLiteral)
    else DecimalAt(t, Until(t, p, NotDigit))
  }

  /** The end and the type of a decimal literal whose digits end at d: a
      fraction and an exponent, an exponent, or neither. */
  function DecimalAt(t: string, d: nat): (n: (nat, SymbolType))
    requires d <= |t|
    ensures d <= n.0 <= |t|
  {
    if CharOrNul(t, d) == '.' && Chars.IsDigit(CharOrNul(t, d + 1)) then
      (ExponentEnd(t, Until(t, d + 1, NotDigit)), RealLiteral)
    else if CharOrNul(t, d) == 'e' || CharOrNul(t, d) == 'E' then (ExponentEnd(t, d), RealLiteral)
    else (d, IntegerLiteral)
  }

  /** NumberAt by cases: the hex form after "0x", the decimal form otherwise. */
  lemma NumberAtCases(t: string, p: nat)
    requires p <= |t|
    ensures CharOrNul(t, p) == '0' && CharOrNul(t, p + 1) == 'x' ==>
              p + 2 <= |t| && NumberAt(t, p) == (Until(t, p + 2, NotHexDigit), IntegerLiteral)
    ensures !(CharOrNul(t, p) == '0' && CharOrNul(t, p + 1) == 'x') ==>
              var d := Until(t, p, NotDigit);
              NumberAt(t, p) ==
                if CharOrNul(t, d) == '.' && Chars.IsDigit(CharOrNul(t, d + 1)) then (ExponentEnd(t, Until(t, d + 1, NotDigit)), RealLiteral)
                else if CharOrNul(t, d) == 'e' || CharOrNul(t, d) == 'E' then (ExponentEnd(t, d), RealLiteral)
                else (d, IntegerLiteral)
  {
  }

  /** The end and the type of the symbol a '.' at p starts: "./" the current
      context, "../" the parent context, otherwise a dot. */
  function DotsAt(t: string, p: nat): (n: (nat, SymbolType))
    requires p < |t|
  {
    if CharOrNul(t, p + 1) == '/' then (p + 2, CurrentContext)
    else if CharOrNul(t, p + 1) == '.' && CharOrNul(t, p + 2) == '/' then (p + 3, ParentContext)
    else (p + 1, Dot)
  }

  /** "{{!--abc": the explicit comment that starts at offset 3 finds no
      closing "--" after its opening one, so the second round of the comment
      state is at the end of the text, where the state as written stays for
      ever; the corrected state ends the comment there. */
  lemma UnterminatedExplicitComment()
    ensures var t := "{{!--abc";
            DashDash(t[3], t[4]) && Until(t, 3, DashDash) == 3
            && Until(t, 5, DashDash) == |t|
  {
    var t := "{{!--abc";
    UntilStep(t, 3, DashDash);
    UntilStep(t, 5, DashDash);
    UntilStep(t, 6, DashDash);
    UntilStep(t, 7, DashDash);
    UntilStep(t, 8, DashDash);
  }

  /** "{{!}}": the implicit comment that would start at offset 3 is empty,
      "}}" is already there, so the state as written announces an output and
      has none, and Turn ends the symbols at the Bang. */
  lemma EmptyImplicitComment()
    ensures var t := "{{!}}";
            BraceBrace(t[3], CharOrNul(t, 4)) && Until(t, 3, BraceBrace) == 3 && 3 < |t|
  {
    UntilStep("{{!}}", 3, BraceBrace);
  }

  /** {{"a\"b"}}: inside the literal opened at offset 2, the first stop is
      the backslash at 4, where the state as written returns to
      ContinueTagContent; the literal with its escape passed over ends at
      the quote at 7. */
  lemma EscapedQuoteInLiteral()
    ensures var t := "{{\"a\\\"b\"}}";
            Until(t, 3, QuoteStop('"')) == 4 && t[4] == '\\'
            && LiteralEnd(t, 3, '"') == 7 && t[7] == '"'
  {
    var t := "{{\"a\\\"b\"}}";
    UntilStep(t, 3, QuoteStop('"'));
    UntilStep(t, 4, QuoteStop('"'));
    assert LiteralEnd(t, 6, '"') == LiteralEnd(t, 7, '"');
  }

  /** The symbols cover the text of the lines from p to q without gaps or
      overlaps: each is non-empty, starts where the previous one ends,
      holds the text there and carries the location of its start. */
  ghost predicate Tiles(lines: seq<TextLine>, syms: seq<Symbol>, p: int, q: int)
    requires Contiguous(lines)
    decreases |syms|
  {
    var t := Concat(lines);
    if syms == [] then 0 <= p == q <= |t|
    else
      var s := syms[0];
      s.start.absolute == p && 0 <= p < s.End() <= |t|
      && s.content == t[p..s.End()] && s.start == LocationIn(lines, p)
      && Tiles(lines, syms[1..], s.End(), q)
  }

  /** A symbol that starts where a tiling ends extends it. */
  lemma {:induction false} TilesAppend(lines: seq<TextLine>, syms: seq<Symbol>, p: int, q: int, sym: Symbol)
    requires Contiguous(lines) && Tiles(lines, syms, p, q)
    requires 0 <= sym.start.absolute == q < sym.End() <= |Concat(lines)|
    requires sym.content == Concat(lines)[q..sym.End()] && sym.start == LocationIn(lines, q)
    ensures Tiles(lines, syms + [sym], p, sym.End())
    decreases |syms|
  {
    if syms == [] {
      assert [sym][1..] == [];
    } else {
      TilesAppend(lines, syms[1..], syms[0].End(), q, sym);
      assert (syms + [sym])[1..] == syms[1..] + [sym];
    }
  }

  /** Tiling symbols spell the text they cover. */
  lemma {:induction false} TilesContents(lines: seq<TextLine>, syms: seq<Symbol>, p: int, q: int)
    requires Contiguous(lines) && Tiles(lines, syms, p, q)
    ensures 0 <= p <= q <= |Concat(lines)| && Contents(syms) == Concat(lines)[p..q]
    decreases |syms|
  {
    if syms != [] {
      TilesContents(lines, syms[1..], syms[0].End(), q);
      SliceSplit(Concat(lines), p, syms[0].End(), q);
    }
  }

  class HandlebarsTokenizer {
    /** Source: the reader the characters come from. */
    const source: SeekableTextReader
    /** The lines of the reader's buffer and the text they hold; neither
        changes while the tokenizer runs. */
    ghost const lines: seq<TextLine>
    ghost const text: string
    /** Buffer: the characters of the symbol being read. */
    var buffer: string
    var currentErrors: seq<Error>
    var currentStart: SourceLocation
    var currentState: State

    /** The reader is valid and not past its text. */
    ghost predicate Ready()
      reads source, source.buffer
    {
      source.Valid() && source.buffer.lines == lines && text == source.text
      && Contiguous(lines) && text == Concat(lines) && source.position <= |text|
    }

    /** Between two symbols, or inside one: the buffer holds exactly the text
        from the start of the symbol to the reader's position. */
    ghost predicate Valid()
      reads this`buffer, this`currentStart, source, source.buffer
    {
      Ready()
      && 0 <= currentStart.absolute <= source.position
      && currentStart == LocationIn(lines, currentStart.absolute)
      && buffer == text[currentStart.absolute..source.position]
    }

    ghost function Pos(): int
      reads source
    {
      source.position
    }

    /** The location of an offset of the text. */
    ghost function LocationOf(p: int): SourceLocation
      requires Contiguous(lines)
    {
      LocationIn(lines, p)
    }

    constructor (reader: SeekableTextReader)
      requires reader.Valid() && reader.position <= |reader.text|
      ensures Valid() && source == reader && currentState == State.Data && text == reader.text
      ensures buffer == [] && currentErrors == [] && currentStart == reader.location
      ensures unchanged(reader) && unchanged(reader.buffer)
    {
      source := reader;
      lines := reader.buffer.lines;
      text := reader.text;
      buffer := [];
      currentErrors := [];
      currentStart := reader.location;
      currentState := State.Data;
      new;
      LocationInAbsolute(reader.buffer.lines, reader.position);
    }

    /** CurrentCharacter: the character at the reader, '\0' at the end. */
    function CurrentCharacter(): (c: char)
      reads source, source.buffer
      requires Ready()
      ensures c == CharOrNul(text, Pos())
    {
      if source.current.Some? then source.current.value else '\0'
    }

    function EndOfFile(): (b: bool)
      reads source, source.buffer
      requires Ready()
      ensures b <==> Pos() >= |text|
    {
      source.Peek() == -1
    }

    function HaveContent(): (b: bool)
      reads this
      ensures b <==> buffer != []
    {
      |buffer| > 0
    }

    /** MoveNext: one character forward, unless at the end. */
    method MoveNext()
      requires Ready()
      modifies source, source.buffer`currentLine
      ensures Ready()
      ensures Pos() == Min(old(Pos()) + 1, |text|)
    {
      var _ := source.Read();
    }

    /** StartSymbol: an empty buffer and no errors, starting at the reader. */
    method StartSymbol()
      requires Ready()
      modifies this`buffer, this`currentStart, this`currentErrors
      ensures Valid() && buffer == [] && currentErrors == []
      ensures currentStart == source.location == LocationOf(Pos())
    {
      buffer := [];
      currentStart := source.location;
      currentErrors := [];
      LocationInAbsolute(lines, source.position);
    }

    /** EndSymbol: the buffered symbol, if any, then a fresh symbol. */
    method EndSymbol(kind: SymbolType) returns (r: Option<Symbol>)
      requires Valid()
      modifies this`buffer, this`currentStart, this`currentErrors
      ensures r.None? <==> old(buffer) == []
      ensures r.Some? ==> r.value == Symbol(old(currentStart), old(buffer), kind, old(currentErrors), None)
      ensures Valid() && buffer == [] && currentErrors == [] && currentStart == LocationOf(Pos())
    {
      r := None;
      if HaveContent() {
        r := Some(Symbol(currentStart, buffer, kind, currentErrors, None));
      }
      StartSymbol();
    }

    /** TakeCurrent: the current character goes into the buffer and the
        reader moves on; nothing happens at the end. */
    method TakeCurrent()
      requires Valid()
      modifies this`buffer, source, source.buffer`currentLine
      ensures Valid()
      ensures old(Pos()) < |text| ==> Pos() == old(Pos()) + 1
      ensures old(Pos()) >= |text| ==> Pos() == old(Pos())
    {
      if EndOfFile() {
        return;
      }
      buffer := buffer + [CurrentCharacter()];
      MoveNext();
    }

    /** Peek: the character after the current one; the reader goes back to
        where it was. */
    method Peek() returns (c: char)
      requires Ready()
      modifies source, source.buffer`currentLine
      ensures Ready() && (old(Valid()) ==> Valid())
      ensures Pos() == old(Pos()) && c == CharOrNul(text, Pos() + 1)
    {
      var start := source.position;
      MoveNext();
      c := CurrentCharacter();
      var _ := source.SetPosition(start);
    }

    /** TakeUntil: take characters until stop holds of the current one (and
        the one after it) or the text ends; true unless at the end. */
    method TakeUntil(stop: (char, char) -> bool) returns (r: bool)
      requires Valid()
      modifies this`buffer, source, source.buffer`currentLine
      ensures Valid()
      ensures old(Pos()) <= Pos() == Until(text, old(Pos()), stop)
      ensures r <==> Pos() < |text|
    {
      ghost var p0 := source.position;
      while true
        invariant Valid()
        invariant currentStart == old(currentStart)
        invariant p0 <= Pos() && Until(text, p0, stop) == Until(text, Pos(), stop)
        decreases |text| - Pos()
      {
        var done := TakeUnlessAt(stop);
        if done {
          break;
        }
      }
      r := !EndOfFile();
    }

    /** One round of TakeUntil's loop: at the end, or where stop holds, it is
        done; otherwise the current character is taken. */
    method TakeUnlessAt(stop: (char, char) -> bool) returns (done: bool)
      requires Valid()
      modifies this`buffer, source, source.buffer`currentLine
      ensures Valid() && currentStart == old(currentStart)
      ensures done ==> Pos() == old(Pos()) && Until(text, Pos(), stop) == Pos()
      ensures !done ==> old(Pos()) < Pos() && Until(text, old(Pos()), stop) == Until(text, Pos(), stop)
    {
      UntilStep(text, Pos(), stop);
      if EndOfFile() {
        return true;
      }
      var next := Peek();
      if stop(CurrentCharacter(), next) {
        return true;
      }
      TakeCurrent();
      return false;
    }

    /** Lookahead: whether the text at the reader spells expected (under the
        case filter). Taking on a match keeps the characters in the buffer;
        otherwise the buffer and the reader are restored. */
    method Lookahead(expected: string, takeIfMatch: bool, caseSensitive: bool) returns (r: bool)
      requires Valid()
      modifies this`buffer, source, source.buffer`currentLine
      ensures Valid()
      ensures r <==> Spells(text, old(Pos()), expected, caseSensitive)
      ensures r && takeIfMatch ==>
                Pos() == Min(old(Pos()) + |expected|, |text|)
      ensures !(r && takeIfMatch) ==> Pos() == old(Pos())
    {
      if |expected| == 0 || Filter(CurrentCharacter(), caseSensitive) != Filter(expected[0], caseSensitive) {
        return false;
      }
      if takeIfMatch {
        r := LookaheadTaking(expected, caseSensitive);
      } else {
        r := LookaheadMoving(expected, caseSensitive);
      }
    }

    /** The loop of Lookahead when the characters are taken into the buffer. */
    method LookaheadTaking(expected: string, caseSensitive: bool) returns (r: bool)
      requires Valid() && |expected| > 0
      modifies this`buffer, source, source.buffer`currentLine
      ensures Valid()
      ensures r <==> Spells(text, old(Pos()), expected, caseSensitive)
      ensures r ==> Pos() == Min(old(Pos()) + |expected|, |text|)
      ensures !r ==> Pos() == old(Pos())
    {
      var oldBuffer := buffer;
      var start := source.position;
      var i := 0;
      while i < |expected|
        invariant 0 <= i <= |expected|
        invariant Valid()
        invariant currentStart == old(currentStart)
        invariant Pos() == Min(start + i, |text|)
        invariant forall j :: 0 <= j < i ==>
                    Filter(CharOrNul(text, start + j), caseSensitive) == Filter(expected[j], caseSensitive)
      {
        assert CurrentCharacter() == CharOrNul(text, start + i);
        if Filter(CurrentCharacter(), caseSensitive) != Filter(expected[i], caseSensitive) {
          PutBack(oldBuffer, start);
          return false;
        }
        TakeCurrent();
        i := i + 1;
      }
      r := true;
    }

    /** A failed lookahead puts back the buffer and the reader's position. */
    method PutBack(oldBuffer: string, start: int)
      requires Valid() && currentStart.absolute <= start <= Pos()
      requires oldBuffer == text[currentStart.absolute..start]
      modifies this`buffer, source, source.buffer`currentLine
      ensures Valid() && Pos() == start && buffer == oldBuffer
    {
      buffer := oldBuffer;
      var _ := source.SetPosition(start);
    }

    /** The loop of Lookahead when the reader only moves; it is put back at the end. */
    method LookaheadMoving(expected: string, caseSensitive: bool) returns (r: bool)
      requires Valid() && |expected| > 0
      modifies source, source.buffer`currentLine
      ensures Valid()
      ensures r <==> Spells(text, old(Pos()), expected, caseSensitive)
      ensures Pos() == old(Pos())
    {
      var start := source.position;
      var i := 0;
      r := true;
      while i < |expected|
        invariant 0 <= i <= |expected|
        invariant Ready()
        invariant Pos() == Min(start + i, |text|)
        invariant forall j :: 0 <= j < i ==>
                    Filter(CharOrNul(text, start + j), caseSensitive) == Filter(expected[j], caseSensitive)
      {
        assert CurrentCharacter() == CharOrNul(text, start + i);
        if Filter(CurrentCharacter(), caseSensitive) != Filter(expected[i], caseSensitive) {
          r := false;
          break;
        }
        MoveNext();
        i := i + 1;
      }
      var _ := source.SetPosition(start);
    }

    /** TakeAll: Lookahead that takes the characters on a match. */
    method TakeAll(expected: string, caseSensitive: bool) returns (r: bool)
      requires Valid()
      modifies this`buffer, source, source.buffer`currentLine
      ensures Valid()
      ensures r <==> Spells(text, old(Pos()), expected, caseSensitive)
      ensures r ==> Pos() == Min(old(Pos()) + |expected|, |text|)
      ensures !r ==> Pos() == old(Pos())
    {
      r := Lookahead(expected, true, caseSensitive);
    }

    /** The character at an offset of the text, '\0' outside it. */
    ghost function At(k: int): char {
      CharOrNul(text, k)
    }

    /** What every state promises about one step from state s: the tokenizer
        stays valid and never moves back; an output symbol is exactly the text
        from the start of the symbol to the reader, and a fresh symbol starts
        after it; a result announces an output exactly when it has one;
        without an output the symbol keeps its start; and a step that reads
        nothing and emits nothing hands over to a state of lower rank. */
    twostate predicate Stepped(s: State, new r: Option<Step>)
      reads this, source, source.buffer
    {
      Valid() && old(Valid()) && old(Pos()) <= Pos()
      && (r.Some? ==> (r.value.hasOutput <==> r.value.output.Some?))
      && (r.Some? && r.value.output.Some? ==>
            var sym := r.value.output.value;
            sym.start == old(currentStart) && old(currentStart.absolute) < Pos()
            && sym.content == text[old(currentStart.absolute)..Pos()]
            && buffer == [] && currentErrors == [] && currentStart == LocationOf(Pos()))
      && ((r.None? || r.value.output.None?) ==> currentStart == old(currentStart))
      && (r.None? || r.value.output.Some? || old(Pos()) < Pos()
          || Rank(r.value.next, CurrentCharacter()) < Rank(s, CurrentCharacter()))
    }

    /** BeginTag: "{{" opens a tag, "{{{" a raw tag; anything else is an error
        at the offending character and the tokenizer stops. */
    method BeginTag() returns (r: Option<Step>)
      requires Valid() && currentState == State.BeginTag
      modifies this`buffer, this`currentStart, this`currentErrors, source, source.buffer`currentLine
      ensures Stepped(State.BeginTag, r) && r.Some?
      ensures At(old(Pos())) != '{' ==>
                r == Some(Transition(Stop)) && Pos() == old(Pos())
                && currentErrors == old(currentErrors) + [Error("Expected '{'", LocationOf(Pos()), 0)]
      ensures At(old(Pos())) == '{' && At(old(Pos()) + 1) != '{' ==>
                r == Some(Transition(Stop)) && Pos() == old(Pos()) + 1
                && currentErrors == old(currentErrors) + [Error("Expected '{'", LocationOf(Pos()), 0)]
      ensures At(old(Pos())) == '{' && At(old(Pos()) + 1) == '{' ==>
                var raw := At(old(Pos()) + 2) == '{';
                Pos() == old(Pos()) + (if raw then 3 else 2)
                && r.value.output.Some? && r.value.next == State.BeginTagContent(raw)
                && r.value.output.value.kind == (if raw then RawOpenTag else OpenTag)
    {
      var n := TakeOpenBraces();
      if n < 2 {
        currentErrors := currentErrors + [Error("Expected '{'", source.location, 0)];
        return Some(Transition(Stop));
      }
      var sym := EndSymbol(if n == 3 then RawOpenTag else OpenTag);
      return Some(TransitionWith(sym, State.BeginTagContent(n == 3)));
    }

    /** The braces BeginTag reads: none when the first character is not '{',
        one when the second is not, then two, or three for a raw tag. */
    method TakeOpenBraces() returns (n: nat)
      requires Valid()
      modifies this`buffer, source, source.buffer`currentLine
      ensures Valid() && Pos() == old(Pos()) + n
      ensures n == if At(old(Pos())) != '{' then 0
                   else if At(old(Pos()) + 1) != '{' then 1
                   else if At(old(Pos()) + 2) == '{' then 3
                   else 2
    {
      if CurrentCharacter() != '{' {
        return 0;
      }
      TakeCurrent();
      if CurrentCharacter() != '{' {
        return 1;
      }
      TakeCurrent();
      if CurrentCharacter() == '{' {
        TakeCurrent();
        return 3;
      }
      return 2;
    }

    /** EndTag: "}}" closes a tag, "}}}" a raw tag; anything else is an error
        at the offending character and the tokenizer stops. A third '}' after
        a plain tag is left for the text that follows. */
    method EndTag(raw: bool) returns (r: Option<Step>)
      requires Valid() && currentState == State.EndTag(raw)
      modifies this`buffer, this`currentStart, this`currentErrors, source, source.buffer`currentLine
      ensures Stepped(State.EndTag(raw), r) && r.Some?
      ensures At(old(Pos())) != '}' ==>
                r == Some(Transition(Stop)) && Pos() == old(Pos())
                && currentErrors == old(currentErrors) + [Error("Expected '}'", LocationOf(Pos()), 0)]
      ensures At(old(Pos())) == '}' && At(old(Pos()) + 1) != '}' ==>
                r == Some(Transition(Stop)) && Pos() == old(Pos()) + 1
                && currentErrors == old(currentErrors) + [Error("Expected '}'", LocationOf(Pos()), 0)]
      ensures At(old(Pos())) == '}' && At(old(Pos()) + 1) == '}' && raw && At(old(Pos()) + 2) != '}' ==>
                r == Some(Transition(Stop)) && Pos() == old(Pos()) + 2
                && currentErrors == old(currentErrors) + [Error("Expected '}'", LocationOf(Pos()), 0)]
      ensures At(old(Pos())) == '}' && At(old(Pos()) + 1) == '}' && raw && At(old(Pos()) + 2) == '}' ==>
                Pos() == old(Pos()) + 3 && r.value.output.Some? && r.value.output.value.kind == RawCloseTag
                && r.value.next == State.Data
      ensures At(old(Pos())) == '}' && At(old(Pos()) + 1) == '}' && !raw ==>
                Pos() == old(Pos()) + 2 && r.value.output.Some? && r.value.output.value.kind == CloseTag
                && r.value.next == State.Data
    {
      var n := TakeCloseBraces(raw);
      if n != (if raw then 3 else 2) {
        currentErrors := currentErrors + [Error("Expected '}'", source.location, 0)];
        return Some(Transition(Stop));
      }
      var sym := EndSymbol(if raw then RawCloseTag else CloseTag);
      return Some(TransitionWith(sym, State.Data));
    }

    /** The braces EndTag reads: up to the first that is missing, two for a
        plain tag and three for a raw one. */
    method TakeCloseBraces(raw: bool) returns (n: nat)
      requires Valid()
      modifies this`buffer, source, source.buffer`currentLine
      ensures Valid() && Pos() == old(Pos()) + n
      ensures n == if At(old(Pos())) != '}' then 0
                   else if At(old(Pos()) + 1) != '}' then 1
                   else if !raw || At(old(Pos()) + 2) != '}' then 2
                   else 3
    {
      if CurrentCharacter() != '}' {
        return 0;
      }
      TakeCurrent();
      if CurrentCharacter() != '}' {
        return 1;
      }
      TakeCurrent();
      if CurrentCharacter() == '}' && raw {
        TakeCurrent();
        return 3;
      }
      return 2;
    }

    /** BeginComment: "--" right after "{{!" asks for an explicit "--}}" terminator. */
    method BeginComment() returns (r: Option<Step>)
      requires Valid() && currentState == State.BeginComment
      modifies source, source.buffer`currentLine
      ensures Stepped(State.BeginComment, r) && Pos() == old(Pos())
      ensures r == Some(Transition(State.ContinueComment(At(Pos()) == '-' && At(Pos() + 1) == '-')))
    {
      var next := Peek();
      return Some(Transition(State.ContinueComment(CurrentCharacter() == '-' && next == '-')));
    }

    /** The message BeginTagContent records for a prefix a raw tag does not allow. */
    static function UnexpectedInRawTag(c: char): string {
      "Unexpected '" + [c] + "' in raw tag."
    }

    /** BeginTagContent: the prefix of a tag's content. '~' is a symbol of its
        own; '!', '>', '^' and '#' are errors in a raw tag and otherwise, like
        '&' and '@', a symbol followed by the content ('!' by a comment);
        anything else is content already. */
    method BeginTagContent(raw: bool) returns (r: Option<Step>)
      requires Valid() && currentState == State.BeginTagContent(raw)
      modifies this`buffer, this`currentStart, this`currentErrors, source, source.buffer`currentLine
      ensures Stepped(State.BeginTagContent(raw), r) && r.Some?
      ensures var c := At(old(Pos()));
              c == '~' ==>
                Pos() == old(Pos()) + 1 && r.value.output.Some? && r.value.output.value.kind == Tilde
                && r.value.next == State.BeginTagContent(raw)
      ensures var c := At(old(Pos()));
              (c == '!' || c == '>' || c == '^' || c == '#') && raw ==>
                r == Some(Transition(Stop)) && Pos() == old(Pos())
                && currentErrors == old(currentErrors) + [Error(UnexpectedInRawTag(c), LocationOf(Pos()), 0)]
      ensures var c := At(old(Pos()));
              ((c == '!' || c == '>' || c == '^' || c == '#') && !raw) || c == '&' || c == '@' ==>
                Pos() == old(Pos()) + 1 && r.value.output.Some? && r.value.output.value.kind == PrefixKind(c)
                && r.value.next == (if c == '!' then State.BeginComment else State.ContinueTagContent(false))
      ensures var c := At(old(Pos()));
              c !in "~!>^#&@" ==>
                r == Some(Transition(State.ContinueTagContent(raw))) && Pos() == old(Pos())
    {
      var c := CurrentCharacter();
      if c == '~' {
        r := TakeSymbol(Tilde, currentState, currentState);
        return;
      }
      if c == '!' || c == '>' || c == '^' || c == '#' {
        if raw {
          currentErrors := currentErrors + [Error(UnexpectedInRawTag(c), source.location, 0)];
          return Some(Transition(Stop));
        }
        r := TakeSymbol(PrefixKind(c), if c == '!' then State.BeginComment else State.ContinueTagContent(false), currentState);
        return;
      }
      if c == '&' || c == '@' {
        r := TakeSymbol(PrefixKind(c), State.ContinueTagContent(false), currentState);
        return;
      }
      return Some(Transition(State.ContinueTagContent(raw)));
    }

    /** The current character as a symbol of its own (TakeCurrent, then
        EndSymbol), and the state to run next. */
    method TakeSymbol(kind: SymbolType, next: State, ghost s: State) returns (r: Option<Step>)
      requires Valid() && Pos() < |text|
      modifies this`buffer, this`currentStart, this`currentErrors, source, source.buffer`currentLine
      ensures Stepped(s, r) && Pos() == old(Pos()) + 1
      ensures r.Some? && r.value.next == next && r.value.output.Some? && r.value.output.value.kind == kind
    {
      TakeCurrent();
      var sym := EndSymbol(kind);
      return Some(TransitionWith(sym, next));
    }

    /** WhiteSpace: a run of white space and line breaks is one symbol; the
        text goes on in the Data state. */
    method WhiteSpace() returns (r: Option<Step>)
      requires Valid() && currentState == State.WhiteSpace
      modifies this`buffer, this`currentStart, this`currentErrors, source, source.buffer`currentLine
      ensures Stepped(State.WhiteSpace, r) && r.Some? && r.value.next == State.Data
      ensures Pos() == Until(text, old(Pos()), NotSpaceOrNewLine)
      ensures r.value.output.Some? <==> old(currentStart.absolute) < Pos()
      ensures r.value.output.Some? ==> r.value.output.value.kind == SymbolType.WhiteSpace
    {
      var _ := TakeUntil(NotSpaceOrNewLine);
      if HaveContent() {
        var sym := EndSymbol(SymbolType.WhiteSpace);
        return Some(TransitionWith(sym, State.Data));
      }
      return Some(Transition(State.Data));
    }

    /** ContinueComment, with the two corrections described under Findings:
        an explicit comment that reaches the end of the text ends there (the
        source stays in this state without reading anything, for ever), and
        an empty comment yields no symbol but a plain transition (the source
        announces an output and gives none, which ends the symbol stream). */
    method ContinueComment(explicitTerminal: bool) returns (r: Option<Step>)
      requires Valid() && currentState == State.ContinueComment(explicitTerminal)
      modifies this`buffer, this`currentStart, this`currentErrors, source, source.buffer`currentLine
      ensures Stepped(State.ContinueComment(explicitTerminal), r) && r.Some?
      ensures explicitTerminal ==>
                var e := Min(Until(text, old(Pos()), DashDash) + 2, |text|);
                Pos() == e
                && if BraceBrace(At(e), At(e + 1)) || e == |text| then
                     r.value.next == State.EndTag(false) && (r.value.output.Some? <==> old(currentStart.absolute) < e)
                     && (r.value.output.Some? ==> r.value.output.value.kind == Comment)
                   else r == Some(Stay(State.ContinueComment(true)))
      ensures !explicitTerminal ==>
                Pos() == Until(text, old(Pos()), BraceBrace) && r.value.next == State.EndTag(false)
                && (r.value.output.Some? <==> old(currentStart.absolute) < Pos())
                && (r.value.output.Some? ==> r.value.output.value.kind == Comment)
    {
      if explicitTerminal {
        r := ContinueExplicitComment();
        return;
      }
      var _ := TakeUntil(BraceBrace);
      r := EndComment();
    }

    /** The explicit branch of ContinueComment: up to and over the next "--";
        the comment ends if "}}" or the end of the text follows. */
    method ContinueExplicitComment() returns (r: Option<Step>)
      requires Valid() && currentState == State.ContinueComment(true)
      modifies this`buffer, this`currentStart, this`currentErrors, source, source.buffer`currentLine
      ensures Stepped(State.ContinueComment(true), r) && r.Some?
      ensures var e := Min(Until(text, old(Pos()), DashDash) + 2, |text|);
              Pos() == e
              && if BraceBrace(At(e), At(e + 1)) || e == |text| then
                   r.value.next == State.EndTag(false) && (r.value.output.Some? <==> old(currentStart.absolute) < e)
                   && (r.value.output.Some? ==> r.value.output.value.kind == Comment)
                 else r == Some(Stay(State.ContinueComment(true)))
    {
      var closing := TakePastDashes();
      if closing {
        r := EndComment();
        return;
      }
      return Some(Stay(currentState));
    }

    /** Up to the next "--" and over it, or to the end of the text; closing
        when "}}" or the end of the text follows. */
    method TakePastDashes() returns (closing: bool)
      requires Valid()
      modifies this`buffer, source, source.buffer`currentLine
      ensures Valid() && Pos() == Min(Until(text, old(Pos()), DashDash) + 2, |text|)
      ensures old(Pos()) < Pos() || Pos() == |text|
      ensures closing <==> BraceBrace(At(Pos()), At(Pos() + 1)) || Pos() == |text|
    {
      var _ := TakeUntil(DashDash);
      TakeCurrent();
      TakeCurrent();
      var next := Peek();
      closing := (CurrentCharacter() == '}' && next == '}') || EndOfFile();
    }

    /** The end of a comment: the comment symbol, if there is any text, and EndTag. */
    method EndComment() returns (r: Option<Step>)
      requires Valid() && currentState.ContinueComment?
      modifies this`buffer, this`currentStart, this`currentErrors
      ensures Stepped(currentState, r) && r.Some? && r.value.next == State.EndTag(false)
      ensures r.value.output.Some? <==> old(currentStart.absolute) < Pos()
      ensures r.value.output.Some? ==> r.value.output.value.kind == Comment
    {
      if HaveContent() {
        var sym := EndSymbol(Comment);
        return Some(TransitionWith(sym, State.EndTag(false)));
      }
      return Some(Transition(State.EndTag(false)));
    }

    /** ContinueComment as the source has it. At the end of the text an
        explicit comment stays in its state and changes nothing, so Turn
        runs it again for ever; an empty implicit comment announces an
        output and gives none. */
    method ContinueCommentAsWritten(explicitTerminal: bool) returns (r: Option<Step>)
      requires Valid() && currentState == State.ContinueComment(explicitTerminal)
      modifies this`buffer, this`currentStart, this`currentErrors, source, source.buffer`currentLine
      ensures Valid() && r.Some?
      ensures explicitTerminal && old(Pos()) == |text| ==>
                r == Some(Stay(State.ContinueComment(true))) && Pos() == old(Pos())
                && buffer == old(buffer) && currentStart == old(currentStart) && currentErrors == old(currentErrors)
      ensures !explicitTerminal && old(buffer) == [] && BraceBrace(At(old(Pos())), At(old(Pos()) + 1)) ==>
                r == Some(StateResult(true, None, State.EndTag(false))) && Pos() == old(Pos())
    {
      if explicitTerminal {
        var _ := TakeUntil(DashDash);
        TakeCurrent();
        TakeCurrent();
        var next := Peek();
        if CurrentCharacter() == '}' && next == '}' {
          var sym := EndSymbol(Comment);
          return Some(TransitionWith(sym, State.EndTag(false)));
        }
        return Some(Stay(currentState));
      }
      var _ := TakeUntil(BraceBrace);
      var sym := EndSymbol(Comment);
      return Some(TransitionWith(sym, State.EndTag(false)));
    }

    /** Data: text outside tags. At the end the pending text is a symbol and
        the tokenizer stops (with no text it yields no result at all); white
        space and line breaks go to the WhiteSpace state; otherwise DataText. */
    method Data() returns (r: Option<Step>)
      requires Valid() && currentState == State.Data
      modifies this`buffer, this`currentStart, this`currentErrors, source, source.buffer`currentLine
      ensures Stepped(State.Data, r)
      ensures r.None? <==> old(Pos()) == |text| && old(currentStart.absolute) == old(Pos())
      ensures old(Pos()) == |text| && old(currentStart.absolute) < old(Pos()) ==>
                r.value.output.Some? && r.value.output.value.kind == SymbolType.Text && r.value.next == Stop
      ensures old(Pos()) < |text| && (Chars.IsWhiteSpace(At(old(Pos()))) || Chars.IsNewLine(At(old(Pos())))) ==>
                Pos() == old(Pos()) && r.value.next == State.WhiteSpace
                && (r.value.output.Some? <==> old(currentStart.absolute) < old(Pos()))
                && (r.value.output.Some? ==> r.value.output.value.kind == SymbolType.Text)
      ensures old(Pos()) < |text| && !Chars.IsWhiteSpace(At(old(Pos()))) && !Chars.IsNewLine(At(old(Pos()))) ==>
                DataTextStep(old(currentStart.absolute), old(Pos()), Pos(), r)
    {
      if EndOfFile() {
        if HaveContent() {
          var sym := EndSymbol(SymbolType.Text);
          return Some(TransitionWith(sym, Stop));
        }
        return None;
      }
      var c := CurrentCharacter();
      if Chars.IsWhiteSpace(c) || Chars.IsNewLine(c) {
        if HaveContent() {
          var sym := EndSymbol(SymbolType.Text);
          return Some(TransitionWith(sym, State.WhiteSpace));
        }
        return Some(Transition(State.WhiteSpace));
      }
      r := DataText();
    }

    /** The outcome of DataText for a symbol started at start, with the reader
        at p before and at p' after: the text runs to q, the next '{' or white
        space, and white space ends the round there. */
    ghost predicate DataTextStep(start: int, p: nat, p': int, r: Option<Step>)
      requires 0 <= start && p <= |text|
    {
      var q := Until(text, p, DataStop);
      if Chars.IsWhiteSpace(At(q)) then r == Some(Stay(State.Data)) && p' == q
      else BraceStep(start, q, p', r)
    }

    /** What Data does at q: a '{' after a backslash is taken as text; "{{"
        ends the text before a tag; a single '{' (or the end) is taken as text. */
    ghost predicate BraceStep(start: int, q: nat, p': int, r: Option<Step>)
      requires 0 <= start && q <= |text|
    {
      r.Some?
      && if At(q) == '{' && start < q && text[q - 1] == '\\' then r == Some(Stay(State.Data)) && p' == q + 1
         else if At(q) == '{' && At(q + 1) == '{' then
           p' == q && r.value.next == State.BeginTag && (r.value.output.Some? <==> start < q)
           && (r.value.output.Some? ==> r.value.output.value.kind == SymbolType.Text)
         else r == Some(Stay(State.Data)) && p' == Min(q + 1, |text|)
    }

    /** The text part of Data: take up to the next '{' or white space. */
    method DataText() returns (r: Option<Step>)
      requires Valid() && currentState == State.Data
      requires Pos() < |text| && !Chars.IsWhiteSpace(At(Pos())) && !Chars.IsNewLine(At(Pos()))
      modifies this`buffer, this`currentStart, this`currentErrors, source, source.buffer`currentLine
      ensures Stepped(State.Data, r)
      ensures DataTextStep(old(currentStart.absolute), old(Pos()), Pos(), r)
    {
      UntilStep(text, Pos(), DataStop);
      var _ := TakeUntil(DataStop);
      if Chars.IsWhiteSpace(CurrentCharacter()) {
        return Some(Stay(State.Data));
      }
      if EndOfFile() {
        // The rest of Data peeks and takes nothing here, and stays.
        return Some(Stay(State.Data));
      }
      r := DataBrace();
    }

    /** The rest of Data, at a '{'. */
    method DataBrace() returns (r: Option<Step>)
      requires Valid() && currentState == State.Data && At(Pos()) == '{'
      modifies this`buffer, this`currentStart, this`currentErrors, source, source.buffer`currentLine
      ensures Stepped(State.Data, r)
      ensures BraceStep(old(currentStart.absolute), old(Pos()), Pos(), r)
    {
      var c := CurrentCharacter();
      if HaveContent() && c == '{' {
        if buffer[|buffer| - 1] == '\\' {
          TakeCurrent();
          return Some(Stay(State.Data));
        }
        var next := Peek();
        if next == '{' {
          var sym := EndSymbol(SymbolType.Text);
          return Some(TransitionWith(sym, State.BeginTag));
        }
      }
      var next := Peek();
      if next == '{' {
        return Some(Transition(State.BeginTag));
      }
      TakeCurrent();
      return Some(Stay(State.Data));
    }

    /** ContinueTagContent: the inside of a tag, one symbol per round. */
    method ContinueTagContent(raw: bool) returns (r: Option<Step>)
      requires Valid() && currentState == State.ContinueTagContent(raw)
      modifies this`buffer, this`currentStart, this`currentErrors, source, source.buffer`currentLine
      ensures Stepped(State.ContinueTagContent(raw), r) && r.Some?
      ensures var c := At(old(Pos()));
              c == '@' || c == '/' || c == '=' ==>
                Pos() == old(Pos()) + 1 && r.value.next == currentState && r.value.output.Some?
                && r.value.output.value.kind == (if c == '@' then SymbolType.At else if c == '/' then Slash else Assign)
      ensures var c := At(old(Pos()));
              c != '@' && Chars.IsIdentifierStart(c) ==>
                Pos() == Until(text, old(Pos()) + 1, NotIdentifierPart) && IdentifierStep(r, currentState)
      ensures Chars.IsDigit(At(old(Pos()))) ==>
                r.value.next == currentState && r.value.output.Some?
                && (Pos(), r.value.output.value.kind) == NumberAt(text, old(Pos()))
      ensures At(old(Pos())) == '.' ==>
                r.value.next == currentState && r.value.output.Some?
                && (Pos(), r.value.output.value.kind) == DotsAt(text, old(Pos()))
      ensures At(old(Pos())) == ' ' ==>
                Pos() == Until(text, old(Pos()), NotSpace) && r.value.next == currentState
                && r.value.output.Some? && r.value.output.value.kind == SymbolType.WhiteSpace
      ensures At(old(Pos())) == '~' ==>
                Pos() == old(Pos()) + 1 && r.value.next == State.EndTag(raw)
                && r.value.output.Some? && r.value.output.value.kind == Tilde
      ensures var c := At(old(Pos()));
              c == '"' || c == '\'' ==>
                r.value.next == currentState && r.value.output.Some? && QuotedStep(old(Pos()) + 1, c, old(currentStart), old(currentErrors), Pos(), r.value.output.value)
      ensures At(old(Pos())) == '}' ==> r == Some(Transition(State.EndTag(raw))) && Pos() == old(Pos())
      ensures var c := At(old(Pos()));
              !Chars.IsIdentifierStart(c) && !Chars.IsDigit(c) && !TagCharacter(c) ==>
                r == Some(Transition(Stop)) && Pos() == old(Pos())
                && currentErrors == old(currentErrors) + [Error("Unexpected character: " + [c], LocationOf(Pos()), 0)]
    {
      var c := CurrentCharacter();
      if Chars.IsIdentifierStart(c) || Chars.IsDigit(c) {
        assert !TagCharacter(c) || c == '@';
        r := TagWord();
      } else {
        r := TagPunctuation(raw);
      }
    }

    /** The cases of ContinueTagContent that start a word: an '@', an
        identifier or a number. */
    method TagWord() returns (r: Option<Step>)
      requires Valid() && currentState.ContinueTagContent?
      requires Chars.IsIdentifierStart(At(Pos())) || Chars.IsDigit(At(Pos()))
      modifies this`buffer, this`currentStart, this`currentErrors, source, source.buffer`currentLine
      ensures Stepped(currentState, r) && r.Some?
      ensures At(old(Pos())) == '@' ==>
                Pos() == old(Pos()) + 1 && r.value.next == currentState && r.value.output.Some?
                && r.value.output.value.kind == SymbolType.At
      ensures var c := At(old(Pos()));
              c != '@' && Chars.IsIdentifierStart(c) ==>
                Pos() == Until(text, old(Pos()) + 1, NotIdentifierPart) && IdentifierStep(r, currentState)
      ensures Chars.IsDigit(At(old(Pos()))) ==>
                r.value.next == currentState && r.value.output.Some?
                && (Pos(), r.value.output.value.kind) == NumberAt(text, old(Pos()))
    {
      var c := CurrentCharacter();
      if c == '@' {
        r := TakeSymbol(SymbolType.At, currentState, currentState);
        assert !Chars.IsDigit(c);
      } else if Chars.IsIdentifierStart(c) {
        r := Identifier();
        assert !Chars.IsDigit(c);
      } else {
        r := NumericLiteral();
      }
    }

    /** The symbol of an identifier: the keyword type when the text is a
        keyword, the identifier type otherwise; no errors are attached. */
    twostate predicate IdentifierStep(new r: Option<Step>, next: State)
    {
      r.Some? && r.value.next == next && r.value.output.Some?
      && var sym := r.value.output.value;
         sym.kind == (if KeywordFor(sym.content).Some? then Keyword else SymbolType.Identifier)
         && sym.keyword == KeywordFor(sym.content) && sym.errors == []
    }

    /** The switch of ContinueTagContent over the punctuation of a tag. */
    method TagPunctuation(raw: bool) returns (r: Option<Step>)
      requires Valid() && currentState == State.ContinueTagContent(raw)
      requires !Chars.IsIdentifierStart(At(Pos())) && !Chars.IsDigit(At(Pos()))
      modifies this`buffer, this`currentStart, this`currentErrors, source, source.buffer`currentLine
      ensures Stepped(State.ContinueTagContent(raw), r) && r.Some?
      ensures var c := At(old(Pos()));
              c == '/' || c == '=' ==>
                Pos() == old(Pos()) + 1 && r.value.next == currentState && r.value.output.Some?
                && r.value.output.value.kind == (if c == '/' then Slash else Assign)
      ensures At(old(Pos())) == '.' ==>
                r.value.next == currentState && r.value.output.Some?
                && (Pos(), r.value.output.value.kind) == DotsAt(text, old(Pos()))
      ensures At(old(Pos())) == ' ' ==>
                Pos() == Until(text, old(Pos()), NotSpace) && r.value.next == currentState
                && r.value.output.Some? && r.value.output.value.kind == SymbolType.WhiteSpace
      ensures At(old(Pos())) == '~' ==>
                Pos() == old(Pos()) + 1 && r.value.next == State.EndTag(raw)
                && r.value.output.Some? && r.value.output.value.kind == Tilde
      ensures var c := At(old(Pos()));
              c == '"' || c == '\'' ==>
                r.value.next == currentState && r.value.output.Some? && QuotedStep(old(Pos()) + 1, c, old(currentStart), old(currentErrors), Pos(), r.value.output.value)
      ensures At(old(Pos())) == '}' ==> r == Some(Transition(State.EndTag(raw))) && Pos() == old(Pos())
      ensures var c := At(old(Pos()));
              !TagCharacter(c) ==>
                r == Some(Transition(Stop)) && Pos() == old(Pos())
                && currentErrors == old(currentErrors) + [Error("Unexpected character: " + [c], LocationOf(Pos()), 0)]
    {
      var c := CurrentCharacter();
      if c == '.' {
        r := Dots();
      } else if c == '/' {
        r := TakeSymbol(Slash, currentState, currentState);
      } else if c == ' ' {
        r := Spaces();
      } else if c == '~' {
        r := TakeSymbol(Tilde, State.EndTag(raw), currentState);
      } else {
        r := TagClosing(raw);
      }
    }

    /** The ' ' case of ContinueTagContent: the run of white space is one symbol. */
    method Spaces() returns (r: Option<Step>)
      requires Valid() && currentState.ContinueTagContent? && At(Pos()) == ' '
      modifies this`buffer, this`currentStart, this`currentErrors, source, source.buffer`currentLine
      ensures Stepped(currentState, r) && r.Some? && r.value.next == currentState && r.value.output.Some?
      ensures Pos() == Until(text, old(Pos()), NotSpace) && r.value.output.value.kind == SymbolType.WhiteSpace
    {
      var _ := TakeUntil(NotSpace);
      var sym := EndSymbol(SymbolType.WhiteSpace);
      r := Some(StayWith(sym, currentState));
    }

    /** The quote, '=', '}' and default cases of ContinueTagContent. */
    method TagClosing(raw: bool) returns (r: Option<Step>)
      requires Valid() && currentState == State.ContinueTagContent(raw)
      requires var c := At(Pos()); c != '.' && c != '/' && c != ' ' && c != '~'
      modifies this`buffer, this`currentStart, this`currentErrors, source, source.buffer`currentLine
      ensures Stepped(State.ContinueTagContent(raw), r) && r.Some?
      ensures At(old(Pos())) == '=' ==>
                Pos() == old(Pos()) + 1 && r.value.next == currentState && r.value.output.Some?
                && r.value.output.value.kind == Assign
      ensures var c := At(old(Pos()));
              c == '"' || c == '\'' ==>
                r.value.next == currentState && r.value.output.Some? && QuotedStep(old(Pos()) + 1, c, old(currentStart), old(currentErrors), Pos(), r.value.output.value)
      ensures At(old(Pos())) == '}' ==> r == Some(Transition(State.EndTag(raw))) && Pos() == old(Pos())
      ensures var c := At(old(Pos()));
              !TagCharacter(c) ==>
                r == Some(Transition(Stop)) && Pos() == old(Pos())
                && currentErrors == old(currentErrors) + [Error("Unexpected character: " + [c], LocationOf(Pos()), 0)]
    {
      var c := CurrentCharacter();
      if c == '"' || c == '\'' {
        r := QuotedFromOpening(c);
      } else if c == '=' {
        r := TakeSymbol(Assign, currentState, currentState);
      } else if c == '}' {
        r := Some(Transition(State.EndTag(raw)));
      } else {
        currentErrors := currentErrors + [Error("Unexpected character: " + [c], source.location, 0)];
        r := Some(Transition(Stop));
      }
    }

    /** The quote case of ContinueTagContent: the opening quote is taken,
        then the literal. */
    method QuotedFromOpening(quote: char) returns (r: Option<Step>)
      requires Valid() && currentState.ContinueTagContent? && (quote == '"' || quote == '\'') && At(Pos()) == quote
      modifies this`buffer, this`currentStart, this`currentErrors, source, source.buffer`currentLine
      ensures Stepped(old(currentState), r) && r.Some? && r.value.next == currentState && r.value.output.Some?
      ensures QuotedStep(old(Pos()) + 1, quote, old(currentStart), old(currentErrors), Pos(), r.value.output.value)
    {
      TakeCurrent();
      r := QuotedLiteral(quote);
    }

    /** The '.' case of ContinueTagContent. */
    method Dots() returns (r: Option<Step>)
      requires Valid() && currentState.ContinueTagContent? && At(Pos()) == '.'
      modifies this`buffer, this`currentStart, this`currentErrors, source, source.buffer`currentLine
      ensures Stepped(currentState, r) && r.Some? && r.value.next == currentState && r.value.output.Some?
      ensures (Pos(), r.value.output.value.kind) == DotsAt(text, old(Pos()))
    {
      var kind := TakeDots();
      var sym := EndSymbol(kind);
      return Some(StayWith(sym, currentState));
    }

    /** The characters of the '.' case: "./", "../" or the '.' alone. */
    method TakeDots() returns (kind: SymbolType)
      requires Valid() && At(Pos()) == '.'
      modifies this`buffer, source, source.buffer`currentLine
      ensures Valid() && (Pos(), kind) == DotsAt(text, old(Pos()))
    {
      TakeCurrent();
      if CurrentCharacter() == '/' {
        TakeCurrent();
        return CurrentContext;
      }
      var next := Peek();
      if CurrentCharacter() == '.' && next == '/' {
        TakeCurrent();
        TakeCurrent();
        return ParentContext;
      }
      return Dot;
    }

    /** Identifier: the start character and the identifier characters after it. */
    method Identifier() returns (r: Option<Step>)
      requires Valid() && currentState.ContinueTagContent? && Chars.IsIdentifierStart(At(Pos()))
      modifies this`buffer, this`currentStart, this`currentErrors, source, source.buffer`currentLine
      ensures Stepped(currentState, r) && IdentifierStep(r, currentState)
      ensures Pos() == Until(text, old(Pos()) + 1, NotIdentifierPart)
    {
      TakeOneThenUntil(NotIdentifierPart);
      var sym: Option<Symbol> := None;
      if HaveContent() {
        var keyword := KeywordFor(buffer);
        sym := Some(Symbol(currentStart, buffer, if keyword.Some? then Keyword else SymbolType.Identifier, [], keyword));
      }
      StartSymbol();
      return Some(StayWith(sym, currentState));
    }

    /** NumericLiteral: a hex literal after "0x", a decimal one otherwise. */
    method NumericLiteral() returns (r: Option<Step>)
      requires Valid() && currentState.ContinueTagContent? && Chars.IsDigit(At(Pos()))
      modifies this`buffer, this`currentStart, this`currentErrors, source, source.buffer`currentLine
      ensures Stepped(currentState, r) && r.Some? && r.value.next == currentState && r.value.output.Some?
      ensures (Pos(), r.value.output.value.kind) == NumberAt(text, old(Pos()))
    {
      ghost var p := Pos();
      SpellsPair(text, p, '0', 'x');
      var hex := TakeAll("0x", true);
      if hex {
        r := HexLiteral(p);
      } else {
        r := DecimalLiteral();
      }
    }

    /** DecimalLiteral: digits, then a fraction, an exponent or neither. */
    method DecimalLiteral() returns (r: Option<Step>)
      requires Valid() && currentState.ContinueTagContent? && Chars.IsDigit(At(Pos()))
      requires !(At(Pos()) == '0' && At(Pos() + 1) == 'x')
      modifies this`buffer, this`currentStart, this`currentErrors, source, source.buffer`currentLine
      ensures Stepped(currentState, r) && r.Some? && r.value.next == currentState && r.value.output.Some?
      ensures (Pos(), r.value.output.value.kind) == NumberAt(text, old(Pos()))
    {
      var _ := TakeUntil(NotDigit);
      r := DecimalRest();
    }

    /** The rest of DecimalLiteral, once its digits are taken: a fraction,
        an exponent or the integer literal. */
    method DecimalRest() returns (r: Option<Step>)
      requires Valid() && currentState.ContinueTagContent? && currentStart.absolute < Pos()
      modifies this`buffer, this`currentStart, this`currentErrors, source, source.buffer`currentLine
      ensures Stepped(currentState, r) && r.Some? && r.value.next == currentState && r.value.output.Some?
      ensures (Pos(), r.value.output.value.kind) == DecimalAt(text, old(Pos()))
    {
      ghost var d := Pos();
      var next := Peek();
      var c := CurrentCharacter();
      if c == '.' && Chars.IsDigit(next) {
        ghost var e := ExponentEnd(text, Until(text, d + 1, NotDigit));
        assert DecimalAt(text, d) == (e, SymbolType.RealLiteral);
        r := RealLiteral();
        return;
      }
      if c == 'E' || c == 'e' {
        assert DecimalAt(text, d) == (ExponentEnd(text, d), SymbolType.RealLiteral);
        r := RealLiteralExponantPart();
        return;
      }
      assert DecimalAt(text, d) == (d, IntegerLiteral);
      var sym := EndSymbol(IntegerLiteral);
      return Some(StayWith(sym, currentState));
    }

    /** HexLiteral: the hex digits after the "0x" of a literal that starts at p. */
    method HexLiteral(ghost p: nat) returns (r: Option<Step>)
      requires Valid() && currentState.ContinueTagContent? && currentStart.absolute < Pos()
      requires p + 2 == Pos() && At(p) == '0' && At(p + 1) == 'x'
      modifies this`buffer, this`currentStart, this`currentErrors, source, source.buffer`currentLine
      ensures Stepped(currentState, r) && r.Some? && r.value.next == currentState && r.value.output.Some?
      ensures (Pos(), r.value.output.value.kind) == NumberAt(text, p)
    {
      NumberAtCases(text, p);
      var _ := TakeUntil(NotHexDigit);
      var sym := EndSymbol(IntegerLiteral);
      return Some(StayWith(sym, currentState));
    }

    /** RealLiteral: the '.', the digits of the fraction, then the exponent part. */
    method RealLiteral() returns (r: Option<Step>)
      requires Valid() && currentState.ContinueTagContent? && At(Pos()) == '.'
      modifies this`buffer, this`currentStart, this`currentErrors, source, source.buffer`currentLine
      ensures Stepped(currentState, r) && r.Some? && r.value.next == currentState && r.value.output.Some?
      ensures Pos() == ExponentEnd(text, Until(text, old(Pos()) + 1, NotDigit)) && r.value.output.value.kind == SymbolType.RealLiteral
    {
      TakeOneThenUntil(NotDigit);
      r := RealLiteralExponantPart();
    }

    /** The current character, then TakeUntil: the '.' and digits of a
        fraction, or the start and rest of an identifier. */
    method TakeOneThenUntil(stop: (char, char) -> bool)
      requires Valid() && Pos() < |text|
      modifies this`buffer, source, source.buffer`currentLine
      ensures Valid() && old(Pos()) < Pos() == Until(text, old(Pos()) + 1, stop)
    {
      TakeCurrent();
      var _ := TakeUntil(stop);
    }

    /** RealLiteralExponantPart: an optional exponent, then the real literal symbol. */
    method RealLiteralExponantPart() returns (r: Option<Step>)
      requires Valid() && currentState.ContinueTagContent? && currentStart.absolute < Pos()
      modifies this`buffer, this`currentStart, this`currentErrors, source, source.buffer`currentLine
      ensures Stepped(currentState, r) && r.Some? && r.value.next == currentState && r.value.output.Some?
      ensures Pos() == ExponentEnd(text, old(Pos())) && r.value.output.value.kind == SymbolType.RealLiteral
    {
      TakeExponent();
      var sym := EndSymbol(SymbolType.RealLiteral);
      return Some(StayWith(sym, currentState));
    }

    /** The exponent itself: 'e' or 'E', an optional sign and the digits. */
    method TakeExponent()
      requires Valid()
      modifies this`buffer, source, source.buffer`currentLine
      ensures Valid() && Pos() == ExponentEnd(text, old(Pos()))
    {
      var c := CurrentCharacter();
      if c == 'e' || c == 'E' {
        TakeCurrent();
        TakeSignedDigits();
      }
    }

    /** After the 'e' of an exponent: an optional sign, then the digits. */
    method TakeSignedDigits()
      requires Valid()
      modifies this`buffer, source, source.buffer`currentLine
      ensures Valid()
      ensures Pos() == Until(text, if At(old(Pos())) == '+' || At(old(Pos())) == '-' then old(Pos()) + 1 else old(Pos()), NotDigit)
    {
      var c := CurrentCharacter();
      if c == '+' || c == '-' {
        TakeCurrent();
      }
      var _ := TakeUntil(NotDigit);
    }

    /** The string literal symbol of a literal whose opening quote ends
        before p: it runs to LiteralEnd and takes the closing quote when there
        is one; without one it carries the "Untermined string literal" error
        at the start of the literal. */
    ghost predicate QuotedStep(p: nat, quote: char, start: SourceLocation, errors: seq<Error>, p': int, sym: Symbol)
      requires p <= |text|
    {
      var e := LiteralEnd(text, p, quote);
      var closed := e < |text| && text[e] == quote;
      sym.kind == StringLiteral
      && p' == (if closed then e + 1 else e)
      && sym.errors == (if closed then errors else errors + [Error("Untermined string literal", start, 0)])
    }

    /** QuotedLiteral, after the opening quote: escapes are passed over inside
        the same state, so the whole literal is one symbol. */
    method QuotedLiteral(quote: char) returns (r: Option<Step>)
      requires Valid() && currentState.ContinueTagContent? && (quote == '"' || quote == '\'')
      requires currentStart.absolute < Pos()
      modifies this`buffer, this`currentStart, this`currentErrors, source, source.buffer`currentLine
      ensures Stepped(currentState, r) && r.Some? && r.value.next == currentState && r.value.output.Some?
      ensures QuotedStep(old(Pos()), quote, old(currentStart), old(currentErrors), Pos(), r.value.output.value)
    {
      TakeLiteralBody(quote);
      if EndOfFile() || Chars.IsNewLine(CurrentCharacter()) {
        currentErrors := currentErrors + [Error("Untermined string literal", currentStart, 0)];
      } else {
        TakeCurrent();
      }
      var sym := EndSymbol(StringLiteral);
      return Some(StayWith(sym, currentState));
    }

    /** The loop of QuotedLiteral: rounds of LiteralPart until one ends
        without an escape, which leaves the reader at the end of the literal. */
    method TakeLiteralBody(quote: char)
      requires Valid() && quote != '\\'
      modifies this`buffer, source, source.buffer`currentLine
      ensures Valid() && old(Pos()) <= Pos() == LiteralEnd(text, old(Pos()), quote)
    {
      ghost var p0 := Pos();
      while true
        invariant Valid() && currentStart == old(currentStart)
        invariant p0 <= Pos() && LiteralEnd(text, Pos(), quote) == LiteralEnd(text, p0, quote)
        decreases |text| - Pos()
      {
        var escaped := LiteralPart(quote);
        if !escaped {
          break;
        }
      }
    }

    /** One round of QuotedLiteral: the characters up to a backslash, quote
        or line break, and an escape when a backslash follows them. */
    method LiteralPart(quote: char) returns (escaped: bool)
      requires Valid() && quote != '\\'
      modifies this`buffer, source, source.buffer`currentLine
      ensures Valid() && currentStart == old(currentStart)
      ensures LiteralEnd(text, Pos(), quote) == LiteralEnd(text, old(Pos()), quote)
      ensures escaped ==> old(Pos()) < Pos()
      ensures !escaped ==> old(Pos()) <= Pos() && LiteralEnd(text, Pos(), quote) == Pos()
    {
      LiteralEndUntil(text, Pos(), quote);
      var _ := TakeUntil(QuoteStop(quote));
      escaped := TakeEscape(quote);
    }

    /** At a backslash, quote or line break (or the end): a backslash and
        the quote or backslash it escapes are taken; anything else ends the
        literal. */
    method TakeEscape(quote: char) returns (escaped: bool)
      requires Valid() && quote != '\\' && (Pos() < |text| ==> LiteralStop(quote, text[Pos()]))
      modifies this`buffer, source, source.buffer`currentLine
      ensures Valid() && currentStart == old(currentStart)
      ensures LiteralEnd(text, Pos(), quote) == LiteralEnd(text, old(Pos()), quote)
      ensures escaped ==> old(Pos()) < Pos()
      ensures !escaped ==> Pos() == old(Pos()) == LiteralEnd(text, Pos(), quote)
    {
      var c := CurrentCharacter();
      if c != '\\' {
        return false;
      }
      TakeCurrent();
      c := CurrentCharacter();
      if c == quote || c == '\\' {
        TakeCurrent();
      }
      return true;
    }

    /** QuotedLiteral as written: at an escape it returns Stay() with
        nothing, so the rest of the literal is read by ContinueTagContent as
        if it were outside the quotes. */
    method QuotedLiteralAsWritten(quote: char) returns (r: Option<Step>)
      requires Valid() && currentState.ContinueTagContent? && (quote == '"' || quote == '\'')
      modifies this`buffer, this`currentStart, this`currentErrors, source, source.buffer`currentLine
      ensures Valid() && r.Some? && r.value.next == currentState
      ensures var q := Until(text, old(Pos()), QuoteStop(quote));
              q < |text| && text[q] == '\\' ==>
                r == Some(Stay(currentState)) && old(Pos()) < Pos() && currentStart == old(currentStart)
    {
      var _ := TakeUntil(QuoteStop(quote));
      if CurrentCharacter() == '\\' {
        TakeCurrent();
        if CurrentCharacter() == quote || CurrentCharacter() == '\\' {
          TakeCurrent();
        }
        return Some(Stay(currentState));
      }
      if EndOfFile() || Chars.IsNewLine(CurrentCharacter()) {
        currentErrors := currentErrors + [Error("Untermined string literal", currentStart, 0)];
      } else {
        TakeCurrent();
      }
      var sym := EndSymbol(StringLiteral);
      return Some(StayWith(sym, currentState));
    }

    /** One round of Turn: the current state runs (Stop gives no result). */
    method Run() returns (r: Option<Step>)
      requires Valid()
      modifies this`buffer, this`currentStart, this`currentErrors, source, source.buffer`currentLine
      ensures Stepped(currentState, r)
      ensures r.None? ==> currentState == Stop || Pos() == |text| == currentStart.absolute
    {
      match currentState
      case Stop => r := None;
      case Data => r := Data();
      case BeginTag => r := BeginTag();
      case BeginTagContent(raw) => r := BeginTagContent(raw);
      case ContinueTagContent(raw) => r := ContinueTagContent(raw);
      case EndTag(raw) => r := EndTag(raw);
      case BeginComment => r := BeginComment();
      case ContinueComment(explicitTerminal) => r := ContinueComment(explicitTerminal);
      case WhiteSpace => r := WhiteSpace();
    }

    /** Turn: run states, moving to the state each result names, until one
        announces an output or a state stops; the output is the text read
        since the symbol started. */
    method Turn() returns (sym: Option<Symbol>)
      requires Valid()
      modifies this`buffer, this`currentStart, this`currentErrors, this`currentState, source, source.buffer`currentLine
      ensures Valid() && old(Pos()) <= Pos()
      ensures sym.Some? ==>
                sym.value.start == old(currentStart) && old(currentStart.absolute) < Pos()
                && sym.value.content == text[old(currentStart.absolute)..Pos()]
                && currentStart == LocationOf(Pos())
      ensures sym.None? ==> currentStart == old(currentStart) && (currentState == Stop || Pos() == |text| == currentStart.absolute)
    {
      while true
        invariant Valid() && old(Pos()) <= Pos() && currentStart == old(currentStart)
        decreases |text| - Pos(), Rank(currentState, CurrentCharacter())
      {
        var result := Run();
        match TurnRound(currentState, result)
        case Finish(output, state) =>
          currentState := state;
          return output;
        case Again(state) =>
          currentState := state;
      }
    }

    /** NextSymbol: a fresh symbol, then nothing at the end of the text and
        the output of Turn otherwise. */
    method NextSymbol() returns (sym: Option<Symbol>)
      requires Ready()
      modifies this`buffer, this`currentStart, this`currentErrors, this`currentState, source, source.buffer`currentLine
      ensures Valid() && old(Pos()) <= Pos()
      ensures old(Pos()) == |text| ==> sym.None? && Pos() == old(Pos())
      ensures sym.Some? ==>
                sym.value.start == LocationOf(old(Pos())) && sym.value.start.absolute == old(Pos())
                && old(Pos()) < Pos() && sym.value.content == text[old(Pos())..Pos()]
      ensures sym.None? ==> currentState == Stop || Pos() == old(Pos()) == |text|
    {
      StartSymbol();
      if EndOfFile() {
        return None;
      }
      sym := Turn();
    }

    /** Reads symbols until NextSymbol gives none, as the tokenizer tests
        do: the symbols tile the text from where the reader was, each at its
        own location, and unless the tokenizer stopped they reach the end. */
    method Tokenize() returns (syms: seq<Symbol>)
      requires Ready()
      modifies this`buffer, this`currentStart, this`currentErrors, this`currentState, source, source.buffer`currentLine
      ensures var e := if syms == [] then old(Pos()) else syms[|syms| - 1].End();
              Valid() && old(Pos()) <= e <= Pos() && Tiles(lines, syms, old(Pos()), e)
              && Contents(syms) == text[old(Pos())..e]
              && (currentState != Stop ==> e == Pos() == |text|)
    {
      syms := [];
      ghost var p0 := Pos();
      while true
        invariant Ready() && p0 <= Pos() && Tiles(lines, syms, p0, Pos())
        invariant Pos() == if syms == [] then p0 else syms[|syms| - 1].End()
        decreases |text| - Pos()
      {
        var done;
        syms, done := ReadSymbolInto(p0, syms);
        if done {
          break;
        }
      }
      TilesContents(lines, syms, p0, if syms == [] then p0 else syms[|syms| - 1].End());
    }

    /** One round of Tokenize: NextSymbol, and the symbol it gives extends
        the tiling; done when it gives none. */
    method ReadSymbolInto(ghost p0: int, syms: seq<Symbol>) returns (more: seq<Symbol>, done: bool)
      requires Ready() && p0 <= Pos() && Tiles(lines, syms, p0, Pos())
      modifies this`buffer, this`currentStart, this`currentErrors, this`currentState, source, source.buffer`currentLine
      ensures Valid() && old(Pos()) <= Pos()
      ensures done ==> more == syms && (currentState != Stop ==> Pos() == old(Pos()) == |text|)
      ensures !done ==>
                old(Pos()) < Pos() && Tiles(lines, more, p0, Pos())
                && more != [] && Pos() == more[|more| - 1].End()
    {
      ghost var p := Pos();
      var sym := NextSymbol();
      if sym.None? {
        return syms, true;
      }
      SymbolExtends(syms, p0, p, sym.value);
      return syms + [sym.value], false;
    }

    /** A symbol read from p to the reader's position extends a tiling that
        ends at p. */
    lemma SymbolExtends(syms: seq<Symbol>, p0: int, p: int, sym: Symbol)
      requires Ready() && Tiles(lines, syms, p0, p)
      requires sym.start == LocationOf(p) && sym.start.absolute == p
      requires p < Pos() && sym.content == text[p..Pos()]
      ensures Tiles(lines, syms + [sym], p0, Pos()) && sym.End() == Pos()
    {
      TilesAppend(lines, syms, p0, p, sym);
    }

    /** Reset: back to the start state. */
    method Reset()
      modifies this`currentState
      ensures currentState == State.Data
    {
      currentState := State.Data;
    }
  }
}
