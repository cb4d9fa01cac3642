# FuManchu in Dafny

FuManchu is a Handlebars template engine for .NET. It compiles a template in
three stages:

- a tokenizer turns the text into Handlebars symbols (tag openers and closers,
  identifiers, literals, comments, whitespace);
- a recursive-descent parser builds a tree of blocks and spans from them;
- a whitespace-collapsing pass honours `~`.

A renderer then walks the tree against a model. It resolves `../`, `@` and
`@root.` paths over a chain of render contexts. It decides truthiness, gathers
tag arguments, validates them against tag descriptors, and picks the branch of
an `if`/`is` block or the items of an `each` block.

This project models that pipeline, one module per component of the C# source:

| module | models |
|---|---|
| `SourceLocations` | the `SourceLocation` struct and its arithmetic |
| `LocationTracking` | `SourceLocationTracker`, as a class whose counters follow each character read |
| `LineBuffers` | `LineTrackingStringBuffer`, as a class holding a sequence of text lines |
| `TextReaders` | `SeekableTextReader` over a line buffer |
| `Chars` | the character classes of `ParserHelpers` and `HandlebarsHelpers` |
| `Symbols`, `StateMachines`, `Tokenizers`, `TokenizerViews` | the symbol type, the state machine driver, `Tokenizer`/`HandlebarsTokenizer` as one class, and the view the parser reads |
| `SyntaxTrees` | `Span`, `Block` and `SpanBuilder` |
| `ParserContexts`, `Parsers` | `ParserContext` (the block stack), then `TokenizerBackedParser` and `HandlebarsParser` as one parser class |
| `Collapsing` | `WhiteSpaceCollapsingParserVisitor`, over an index arena of the tree |
| `Values`, `Evaluation` | the values a template sees, and `TemplateDataEvaluator` |
| `RenderContexts` | `RenderContext` and `RenderContextFactory` |
| `Operators` | `OperatorCollection`, the `in` operator and the equality operators |
| `Tags` | `TagProvidersCollection` and the standard tag descriptors |
| `Renderers` | the decisions of the node, block, conditional, `is` and enumerable renderers |

Exceptions become values: `Outcome` (`Pass` or `Fail(fault)`) and
`Result<T>` (`Ok(value)` or `Err(fault)`). A fault names the .NET exception
type and its parameter name or message. Code that mutates objects step by step
is modelled by classes with `modifies` frames. In `LineBuffers`,
`TextReaders`, `LocationTracking`, `ParserContexts`, `RenderContexts`,
`Operators` and `Tags`, each method is proved equal to a specification
function, and the properties are proved about that function. The parser's
methods are instead specified by what they add to the tree, the errors they
report and how far they read.

## Model

| member | source | states |
|---|---|---|
| SourceLocations.CompareTo | src/FuManchu/Text/SourceLocation.cs:82-85 | the comparison is negative, zero or positive exactly as the absolute offsets compare; line and column play no part |
| SourceLocations.AddSubtractRoundTrip | src/FuManchu/Text/SourceLocation.cs:51-79 | adding back the difference restores the left location whenever its line is not before the right one |
| SourceLocations.AddSubtractNeedsOrderedLines | src/FuManchu/Text/SourceLocation.cs:51-79 | a concrete pair whose lines are in the wrong order, for which the round trip does not return the original |
| SourceLocations.SubtractAddRoundTrip | src/FuManchu/Text/SourceLocation.cs:51-79 | subtracting what was added gives back the added location, for a non-negative line |
| SourceLocations.AddZero | src/FuManchu/Text/SourceLocation.cs:51-65 | Zero is a left and right unit of Add |
| SourceLocations.AddAssociative | src/FuManchu/Text/SourceLocation.cs:51-65 | Add is associative over locations with non-negative lines |
| SourceLocations.CompareToIgnoresLineAndColumn | src/FuManchu/Text/SourceLocation.cs:82-91 | Equals implies a zero comparison and CompareTo is antisymmetric; two locations with the same offset but different lines compare equal yet are not Equals |
| SourceLocations.EqualsIsIdentity | src/FuManchu/Text/SourceLocation.cs:88-91 | Equals holds exactly when all three components agree |
| SourceLocations.AddAndSubtractExamples | FuManchu.Tests/Text/SourceLocationFacts.cs:22-47 | (1,1,1)+(4,1,1) = (5,2,1) and (5,2,1)-(4,1,1) = (1,1,1) |
| LocationTracking.StepIsAdd | src/FuManchu/Text/SourceLocationTracker.cs:94-107 | one character read moves the location by the unit step Add would apply |
| LocationTracking.AdvancePrefixCounts | src/FuManchu/Text/SourceLocationTracker.cs:74-87 | reading n characters adds n to the offset and the number of line breaks among them to the line |
| LocationTracking.AdvancePrefixIsAdd | src/FuManchu/Text/SourceLocationTracker.cs:74-87 | reading a prefix from any location equals Add of that location and the prefix read from Zero |
| LocationTracking.AdvanceIsAdd | src/FuManchu/Text/SourceLocationTracker.cs:53-56 | the location after a whole string is the start plus the string's own extent |
| LocationTracking.MultilineExample | test/FuManchu.Tests/Text/SourceLocationTrackerFacts.cs:30-40 | from (10,42,45), reading "foo\nbar\rbaz\r\nbox" gives (26,45,3) |
| LocationTracking.SourceLocationTracker.constructor | src/FuManchu/Text/SourceLocationTracker.cs:24-29 | the tracker starts at the given location with its counters in step |
| LocationTracking.SourceLocationTracker.SetCurrentLocation | src/FuManchu/Text/SourceLocationTracker.cs:34-45 | setting the location resynchronises the counters; setting the current value changes nothing |
| LocationTracking.SourceLocationTracker.UpdateLocationChar | src/FuManchu/Text/SourceLocationTracker.cs:63-67 | the location becomes the one step function of the old location, the character read and the next one |
| LocationTracking.SourceLocationTracker.UpdateLocation | src/FuManchu/Text/SourceLocationTracker.cs:74-87 | the location becomes the fold of per-character steps over the string, each looking ahead one character and '\0' after the last |
| LocationTracking.SourceLocationTracker.UpdateCharacterCore | src/FuManchu/Text/SourceLocationTracker.cs:94-107 | the three counters take one step for the character read |
| LocationTracking.SourceLocationTracker.UpdateInternalState | src/FuManchu/Text/SourceLocationTracker.cs:112-117 | the counters are copied from the current location |
| LocationTracking.SourceLocationTracker.RecalculateSourceLocation | src/FuManchu/Text/SourceLocationTracker.cs:122-125 | the current location is rebuilt from the counters |
| LocationTracking.CalculateNewLocation | src/FuManchu/Text/SourceLocationTracker.cs:53-56 | a fresh tracker fed the content ends at the advanced location, whose offset has grown by the content's length |
| LineBuffers.LineTrackingStringBuffer.constructor | src/FuManchu/Text/LineTrackingStringBuffer.cs:19-23 | a new buffer holds one empty line at offset 0 and no text |
| LineBuffers.LineTrackingStringBuffer.Length | src/FuManchu/Text/LineTrackingStringBuffer.cs:36-39 | the length is the number of characters appended so far |
| LineBuffers.LineTrackingStringBuffer.EndLocation | src/FuManchu/Text/LineTrackingStringBuffer.cs:28-31 | the end location is (length, line count - 1, length of the last line) |
| LineBuffers.LineTrackingStringBuffer.Append | src/FuManchu/Text/LineTrackingStringBuffer.cs:45-57 | the text grows by the content, one line is added per break ('\r\n' counts once), and the completed lines before the last are kept |
| LineBuffers.LineTrackingStringBuffer.AppendAt | src/FuManchu/Text/LineTrackingStringBuffer.cs:47-55 | one loop step appends a character and pushes a line exactly when the character ends a line |
| LineBuffers.AppendStepKeeps | src/FuManchu/Text/LineTrackingStringBuffer.cs:47-55 | one append step keeps the lines contiguous, extends the text by one character and counts the break |
| LineBuffers.AppendStepShape | src/FuManchu/Text/LineTrackingStringBuffer.cs:51-55 | a line ends after '\n', after a lone '\r' and after any other newline character; a '\r' followed by '\n' keeps its line open |
| LineBuffers.LineTrackingStringBuffer.AppendCore | src/FuManchu/Text/LineTrackingStringBuffer.cs:63-66 | the character goes to the end of the last line and nothing else changes |
| LineBuffers.AppendCharFacts | src/FuManchu/Text/LineTrackingStringBuffer.cs:63-66 | appending a character to the last line keeps the lines contiguous and extends the text by that character |
| LineBuffers.LineTrackingStringBuffer.PushNewLine | src/FuManchu/Text/LineTrackingStringBuffer.cs:117-121 | a new empty line starts where the last one ends, with the next index; the text is unchanged |
| LineBuffers.PushLineFacts | src/FuManchu/Text/LineTrackingStringBuffer.cs:117-121 | pushing a line keeps the lines contiguous and the text the same |
| LineBuffers.ConcatLength | src/FuManchu/Text/LineTrackingStringBuffer.cs:36-39 | the text of contiguous lines ends where the last line ends |
| LineBuffers.ConcatAt | src/FuManchu/Text/LineTrackingStringBuffer.cs:81-82 | the character a line holds at an offset is the text's character there |
| LineBuffers.ContainingLineUnique | src/FuManchu/Text/LineTrackingStringBuffer.cs:129-141 | at most one line contains a given offset |
| LineBuffers.SomeLineContains | src/FuManchu/Text/LineTrackingStringBuffer.cs:129-141 | every offset inside the text lies in some line |
| LineBuffers.StartsGrow | src/FuManchu/Text/LineTrackingStringBuffer.cs:117-121 | every later line starts at or after the end of an earlier one |
| LineBuffers.Scan | src/FuManchu/Text/LineTrackingStringBuffer.cs:129-141 | a scan result is a valid line index |
| LineBuffers.Slot | src/FuManchu/Text/LineTrackingStringBuffer.cs:133 | the wrapped index (i + start) % count is a valid index |
| LineBuffers.SlotReaches | src/FuManchu/Text/LineTrackingStringBuffer.cs:131-138 | the wrap-around visits every line index |
| LineBuffers.ScanSound | src/FuManchu/Text/LineTrackingStringBuffer.cs:129-141 | a found line contains the offset; no result means no remaining slot contains it |
| LineBuffers.ScanFindsContainingLine | src/FuManchu/Text/LineTrackingStringBuffer.cs:129-141 | the scan finds a line iff some line contains the offset, and then it finds that line |
| LineBuffers.ScanStartIrrelevant | src/FuManchu/Text/LineTrackingStringBuffer.cs:90-112 | starting the scan at the cached line finds the same line as a scan from line 0 |
| LineBuffers.LineTrackingStringBuffer.ScanLines | src/FuManchu/Text/LineTrackingStringBuffer.cs:129-141 | the loop returns the scan result |
| LineBuffers.LineTrackingStringBuffer.FindLine | src/FuManchu/Text/LineTrackingStringBuffer.cs:90-112 | the cached-line lookup returns what a full scan returns, a line exactly when the offset is inside the text, and caches it |
| LineBuffers.LineTrackingStringBuffer.SelectLine | src/FuManchu/Text/LineTrackingStringBuffer.cs:90-111 | the cached line, a scan from it, or a scan from the first line all give the line a scan from the first line finds |
| LineBuffers.LineTrackingStringBuffer.CharAt | src/FuManchu/Text/LineTrackingStringBuffer.cs:74-83 | an offset outside the text throws ArgumentOutOfRange("absolute"); otherwise the character there with location (offset, line index, offset - line start) |
| LineBuffers.LineFrom | src/FuManchu/Text/LineTrackingStringBuffer.cs:129-141 | a found line index contains the position |
| LineBuffers.LineFromFinds | src/FuManchu/Text/LineTrackingStringBuffer.cs:129-141 | the forward search finds the line that contains the position |
| LineBuffers.LocationInAbsolute | src/FuManchu/Text/SeekableTextReader.cs:92-110 | the location of a position, including the end, carries that position as its offset |
| LineBuffers.LocationInLine | src/FuManchu/Text/LineTrackingStringBuffer.cs:81-82 | the location of a position in line k is (position, k, position - start of k) |
| TextReaders.SeekableTextReader.constructor | src/FuManchu/Text/SeekableTextReader.cs:19-23 | the reader holds the content in a fresh buffer and stands at position 0 |
| TextReaders.SeekableTextReader.Length | src/FuManchu/Text/SeekableTextReader.cs:45 | the length is the length of the content |
| TextReaders.SeekableTextReader.Peek | src/FuManchu/Text/SeekableTextReader.cs:65-73 | -1 iff the position is at or past the end, else the character at the position |
| TextReaders.SeekableTextReader.Read | src/FuManchu/Text/SeekableTextReader.cs:76-87 | returns what Peek returned and advances the position by one unless at the end |
| TextReaders.SeekableTextReader.SetPosition | src/FuManchu/Text/SeekableTextReader.cs:51-62 | setting the current position changes nothing; a negative position throws ArgumentOutOfRange("absolute") |
| TextReaders.SeekableTextReader.UpdateState | src/FuManchu/Text/SeekableTextReader.cs:92-110 | current character and location follow the position; at the end the location is the end location, or Zero for empty text |
| StateMachines.TurnRound | src/FuManchu/StateMachine.cs:74-99 | a null result ends Turn with no output in the same state; otherwise the next state becomes current, and the loop ends exactly when the result announces an output |
| StateMachines.Stay | src/FuManchu/StateMachine.cs:25-28 | Turn runs the current state again, with no output |
| StateMachines.StayWith | src/FuManchu/StateMachine.cs:35-38 | Turn returns the output and stays in the current state |
| StateMachines.Transition | src/FuManchu/StateMachine.cs:54-57 | Turn goes on in the new state, whatever state returned it, with no output |
| StateMachines.TransitionWith | src/FuManchu/StateMachine.cs:65-68 | Turn returns the output and ends in the new state, whatever state returned it |
| Symbols.KeywordFor | FuManchu/Tokenizer/HandlebarsKeywordDetector.cs:24-33 | an identifier is a keyword exactly when it is one of each, if, unless, else, with, spelled that way |
| Symbols.ContentsAppend | FuManchu/Parser/SyntaxTree/Span.cs:143-146 | the contents of concatenated symbol lists are the concatenated contents |
| Symbols.ContentsPointwise | FuManchu/Parser/SyntaxTree/Span.cs:143-146 | symbol lists with the same contents one by one have the same content, whatever their locations |
| Tokenizers.Until | FuManchu/Tokenizer/Tokenizer.cs:344-352 | the scan stops at the first character satisfying the predicate (seeing the next character, '\0' past the end) or at the end |
| Tokenizers.UntilSkips | FuManchu/Tokenizer/Tokenizer.cs:344-352 | no character before the stop satisfies the predicate |
| Tokenizers.SpellsPair | FuManchu/Tokenizer/Tokenizer.cs:148-197 | a two-character lookahead matches exactly when the current and next characters are the expected ones |
| Tokenizers.LiteralEnd | src/FuManchu/Tokenizer/HandlebarsTokenizer.cs:483-508 | a string literal body ends at the end of the text, at the closing quote or at a line break, escapes passed over |
| Tokenizers.LiteralEndUntil | src/FuManchu/Tokenizer/HandlebarsTokenizer.cs:485-495 | scanning to the next backslash, quote or line break does not move the end of the literal |
| Tokenizers.NumberAt | src/FuManchu/Tokenizer/HandlebarsTokenizer.cs:408-538 | a number literal is an integer or a real literal and ends after its start |
| Tokenizers.NumberAtCases | src/FuManchu/Tokenizer/HandlebarsTokenizer.cs:408-438 | "0x" starts a hexadecimal integer over hex digits; otherwise digits, then a '.', 'e' or 'E' makes it real |
| Tokenizers.ExponentEnd | src/FuManchu/Tokenizer/HandlebarsTokenizer.cs:526-538 | the exponent part never moves backwards |
| Tokenizers.TilesAppend | test/FuManchu.Tests/Tokenizer/HandlebarsTokenizerTagFacts.cs:94-170 | a symbol that starts where the tiling ends, and holds the text there, extends the tiling |
| Tokenizers.TilesContents | test/FuManchu.Tests/Tokenizer/HandlebarsTokenizerTagFacts.cs:94-170 | symbols that tile a stretch of text have exactly that text as their concatenated contents |
| Tokenizers.HandlebarsTokenizer.constructor | FuManchu/Tokenizer/Tokenizer.cs:23-35 | a new tokenizer reads from the given reader, starts in the Data state and has an empty buffer, no errors and its start at the reader's location |
| Tokenizers.HandlebarsTokenizer.CurrentCharacter | FuManchu/Tokenizer/Tokenizer.cs:45-53 | the character at the reader, '\0' at the end |
| Tokenizers.HandlebarsTokenizer.EndOfFile | FuManchu/Tokenizer/Tokenizer.cs:76-79 | true exactly when the reader is at the end of the text |
| Tokenizers.HandlebarsTokenizer.HaveContent | FuManchu/Tokenizer/Tokenizer.cs:84-87 | true exactly when the buffer is not empty |
| Tokenizers.HandlebarsTokenizer.MoveNext | FuManchu/Tokenizer/Tokenizer.cs:202-205 | the reader advances by one, not past the end |
| Tokenizers.HandlebarsTokenizer.StartSymbol | FuManchu/Tokenizer/Tokenizer.cs:286-291 | the buffer and the errors are cleared and the start is the reader's location |
| Tokenizers.HandlebarsTokenizer.EndSymbol | FuManchu/Tokenizer/Tokenizer.cs:130-139 | no symbol iff the buffer was empty, else a symbol of the buffer, start and errors; buffer and errors are always cleared and the start reset |
| Tokenizers.HandlebarsTokenizer.TakeCurrent | FuManchu/Tokenizer/Tokenizer.cs:307-316 | the current character is appended and the reader advances; nothing happens at the end |
| Tokenizers.HandlebarsTokenizer.Peek | FuManchu/Tokenizer/Tokenizer.cs:235-242 | returns the character after the current one and leaves the reader where it was |
| Tokenizers.HandlebarsTokenizer.TakeUntil | FuManchu/Tokenizer/Tokenizer.cs:344-352 | takes characters up to the first one that satisfies the predicate; true iff that stop is before the end |
| Tokenizers.HandlebarsTokenizer.TakeUnlessAt | FuManchu/Tokenizer/Tokenizer.cs:344-352 | one step of the TakeUntil loop: either at the stop, or one character further with the same stop ahead |
| Tokenizers.HandlebarsTokenizer.Lookahead | FuManchu/Tokenizer/Tokenizer.cs:148-197 | true iff the text at the reader spells the expected string; only a taking match moves the reader, and a failed match leaves it in place |
| Tokenizers.HandlebarsTokenizer.LookaheadTaking | FuManchu/Tokenizer/Tokenizer.cs:163-196 | a taking lookahead moves past the match, or restores the buffer and the reader when there is none |
| Tokenizers.HandlebarsTokenizer.LookaheadMoving | FuManchu/Tokenizer/Tokenizer.cs:172-196 | a non-taking lookahead reports the match and leaves the reader where it was |
| Tokenizers.HandlebarsTokenizer.TakeAll | FuManchu/Tokenizer/Tokenizer.cs:299-302 | takes the expected string iff it is there; otherwise nothing moves |
| Tokenizers.HandlebarsTokenizer.BeginTag | src/FuManchu/Tokenizer/HandlebarsTokenizer.cs:50-89 | "{{" gives OpenTag and "{{{" gives RawOpenTag, each followed by tag content; a missing '{' records an error and stops |
| Tokenizers.HandlebarsTokenizer.EndTag | src/FuManchu/Tokenizer/HandlebarsTokenizer.cs:297-336 | in raw mode "}}}" gives RawCloseTag, otherwise "}}" gives CloseTag, then Data; a missing '}' records an error and stops |
| Tokenizers.HandlebarsTokenizer.BeginComment | src/FuManchu/Tokenizer/HandlebarsTokenizer.cs:36-44 | "--" after the bang selects an explicitly terminated comment, anything else an implicit one; nothing is read |
| Tokenizers.HandlebarsTokenizer.BeginTagContent | src/FuManchu/Tokenizer/HandlebarsTokenizer.cs:96-170 | '~', '!', '>', '^', '#', '&' and '@' each give their own symbol and next state; '!', '>', '^' and '#' in a raw tag record an error and stop; anything else goes to the tag content |
| Tokenizers.HandlebarsTokenizer.TakeSymbol | src/FuManchu/Tokenizer/HandlebarsTokenizer.cs:96-164 | one character becomes a symbol of the given kind, with the given next state |
| Tokenizers.HandlebarsTokenizer.WhiteSpace | src/FuManchu/Tokenizer/HandlebarsTokenizer.cs:545-552 | a run of white space and line breaks becomes a WhiteSpace symbol, then Data |
| Tokenizers.HandlebarsTokenizer.ContinueComment | src/FuManchu/Tokenizer/HandlebarsTokenizer.cs:179-198 | an explicit comment runs past the next "--" and ends before "}}" or at the end of the text; an implicit one runs to "}}"; an empty comment gives no symbol |
| Tokenizers.HandlebarsTokenizer.ContinueExplicitComment | src/FuManchu/Tokenizer/HandlebarsTokenizer.cs:181-194 | the explicit branch: past the next "--", then the comment ends before "}}" or at the end of the text, or the state is kept |
| Tokenizers.HandlebarsTokenizer.EndComment | src/FuManchu/Tokenizer/HandlebarsTokenizer.cs:189-197 | the text read is a Comment symbol, if any, and the next state is EndTag |
| Tokenizers.HandlebarsTokenizer.ContinueCommentAsWritten | src/FuManchu/Tokenizer/HandlebarsTokenizer.cs:179-198 | as written, an explicit comment at the end of the text keeps its state and changes nothing, and an empty implicit comment announces an output it does not have |
| Tokenizers.HandlebarsTokenizer.Data | src/FuManchu/Tokenizer/HandlebarsTokenizer.cs:349-401 | at the end, pending text becomes a Text symbol and the tokenizer stops (with none, no result); white space or a line break ends the text and goes to WhiteSpace; otherwise text is read on |
| Tokenizers.HandlebarsTokenizer.DataText | src/FuManchu/Tokenizer/HandlebarsTokenizer.cs:371-401 | text runs to the next '{' or white space; a '\' before '{' keeps the brace as text; "{{" after text ends the Text symbol and begins a tag |
| Tokenizers.HandlebarsTokenizer.DataBrace | src/FuManchu/Tokenizer/HandlebarsTokenizer.cs:378-401 | the decision taken at a '{': escaped, the start of a tag, or a plain character |
| Tokenizers.HandlebarsTokenizer.ContinueTagContent | src/FuManchu/Tokenizer/HandlebarsTokenizer.cs:205-290 | '@', identifiers, numbers, "./", "../", '.', '/', spaces, '~', quotes, '=' and '}' each give their symbol or next state; any other character stops the tokenizer |
| Tokenizers.HandlebarsTokenizer.TagPunctuation | src/FuManchu/Tokenizer/HandlebarsTokenizer.cs:224-290 | the punctuation cases of tag content |
| Tokenizers.HandlebarsTokenizer.Spaces | src/FuManchu/Tokenizer/HandlebarsTokenizer.cs:253-257 | a run of spaces inside a tag becomes one WhiteSpace symbol |
| Tokenizers.HandlebarsTokenizer.TagClosing | src/FuManchu/Tokenizer/HandlebarsTokenizer.cs:265-290 | '=' gives Assign, a quote a string literal, '}' goes to EndTag, anything else stops |
| Tokenizers.HandlebarsTokenizer.Dots | src/FuManchu/Tokenizer/HandlebarsTokenizer.cs:226-246 | "./" gives CurrentContext, "../" gives ParentContext, a lone '.' gives Dot |
| Tokenizers.HandlebarsTokenizer.Identifier | src/FuManchu/Tokenizer/HandlebarsTokenizer.cs:440-466 | an identifier runs over identifier characters; a keyword spelling gives a Keyword symbol carrying that keyword |
| Tokenizers.HandlebarsTokenizer.NumericLiteral | src/FuManchu/Tokenizer/HandlebarsTokenizer.cs:468-481 | the literal read and its kind are those of the number at the start |
| Tokenizers.HandlebarsTokenizer.DecimalLiteral | src/FuManchu/Tokenizer/HandlebarsTokenizer.cs:408-427 | digits, then a real part on '.', 'e' or 'E' |
| Tokenizers.HandlebarsTokenizer.DecimalRest | src/FuManchu/Tokenizer/HandlebarsTokenizer.cs:410-427 | after the digits, the rest of a decimal literal and its kind |
| Tokenizers.HandlebarsTokenizer.HexLiteral | src/FuManchu/Tokenizer/HandlebarsTokenizer.cs:429-438 | "0x" and the hex digits after it form an integer literal |
| Tokenizers.HandlebarsTokenizer.RealLiteral | src/FuManchu/Tokenizer/HandlebarsTokenizer.cs:514-520 | a '.' and digits, then an optional exponent, form a real literal |
| Tokenizers.HandlebarsTokenizer.RealLiteralExponantPart | src/FuManchu/Tokenizer/HandlebarsTokenizer.cs:526-538 | an optional 'e'/'E', sign and digits end a real literal |
| Tokenizers.HandlebarsTokenizer.QuotedLiteral | src/FuManchu/Tokenizer/HandlebarsTokenizer.cs:483-508 | the whole literal, escapes included, is one StringLiteral symbol; the closing quote is taken, and without one the symbol carries "Untermined string literal" at its start |
| Tokenizers.HandlebarsTokenizer.LiteralPart | src/FuManchu/Tokenizer/HandlebarsTokenizer.cs:485-495 | one round of the literal: up to a stop, then over an escape if a backslash is there |
| Tokenizers.HandlebarsTokenizer.QuotedLiteralAsWritten | src/FuManchu/Tokenizer/HandlebarsTokenizer.cs:483-508 | as written, an escape makes the state return Stay() with nothing, so the literal is cut at the backslash |
| Tokenizers.HandlebarsTokenizer.Run | src/FuManchu/Tokenizer/HandlebarsTokenizer.cs:36-552 | the current state runs, with the corrected comment and literal states (see ## Findings); only Stop or the end of empty text gives no result |
| Tokenizers.HandlebarsTokenizer.Turn | src/FuManchu/StateMachine.cs:74-99 | states run, each result setting the next state, until one announces an output (the text read since the symbol start) or a state stops; the states are the corrected ones (see ## Findings) |
| Tokenizers.HandlebarsTokenizer.NextSymbol | FuManchu/Tokenizer/Tokenizer.cs:211-223 | nothing at the end of the text; otherwise a symbol that starts at the reader's old position and holds the text read, over the corrected states (see ## Findings) |
| Tokenizers.HandlebarsTokenizer.Tokenize | test/FuManchu.Tests/Tokenizer/HandlebarsTokenizerTagFacts.cs:94-170 | the symbols read until none is left tile the text, each at its own location, and reach the end unless the tokenizer stopped; proved for the tokenizer with the corrected comment and literal states (see ## Findings) |
| Tokenizers.HandlebarsTokenizer.Reset | FuManchu/Tokenizer/Tokenizer.cs:247-250 | the state goes back to Data |
| Tokenizers.UnterminatedExplicitComment | src/FuManchu/Tokenizer/HandlebarsTokenizer.cs:181-193 | in "{{!--abc" no "--" follows the opening one, so the comment state reaches the end of the text |
| Tokenizers.EmptyImplicitComment | src/FuManchu/Tokenizer/HandlebarsTokenizer.cs:196-197 | in "{{!}}" the implicit comment is empty: "}}" follows the bang at once |
| Tokenizers.EscapedQuoteInLiteral | src/FuManchu/Tokenizer/HandlebarsTokenizer.cs:485-495 | in {{"a\"b"}} the scan stops at the backslash, while the literal with its escape ends at the last quote |
| TokenizerViews.TokenizerView.constructor | FuManchu/Tokenizer/TokenizerView.cs:18-22 | the view wraps the tokenizer with no current symbol |
| TokenizerViews.TokenizerView.Next | FuManchu/Tokenizer/TokenizerView.cs:47-52 | the next symbol becomes the current one; the view is at the end iff there was none; a symbol covers exactly the text read |
| TokenizerViews.TokenizerView.PutBack | FuManchu/Tokenizer/TokenizerView.cs:58-69 | only the symbol ending at the reader can be put back, else InvalidOperation; the reader moves back by its length, the current symbol is cleared, the state is reset and the end flag follows the position |
| SyntaxTrees.ChildrenTextAppend | FuManchu/Parser/SyntaxTree/Block.cs:62-65 | a block spans its children in order: the text of two runs of sibling nodes is the text of the first followed by that of the second |
| SyntaxTrees.TrackedEndAbsolute | src/FuManchu/Parser/SyntaxTree/SpanBuilder.cs:75-79 | the tracker's offset after the accepted symbols is the start plus the length of their contents |
| SyntaxTrees.RebasedOffsets | src/FuManchu/Parser/SyntaxTree/SpanBuilder.cs:67-79 | in a built span, each symbol starts at the offset given by the length of the symbols before it |
| SyntaxTrees.TrackedEndByContent | src/FuManchu/Parser/SyntaxTree/SpanBuilder.cs:75-79 | where the tracker ends depends only on the contents of the symbols, not on their old locations |
| SyntaxTrees.RebasedAll | src/FuManchu/Parser/SyntaxTree/SpanBuilder.cs:60-80 | rebasing keeps one symbol per accepted symbol |
| SyntaxTrees.RebasedAllIsRebased | src/FuManchu/Parser/SyntaxTree/SpanBuilder.cs:67-79 | the first symbol is moved to Zero and each later one to the location its predecessors' contents reach; nothing but the start changes |
| SyntaxTrees.SpanBuilder.constructor | src/FuManchu/Parser/SyntaxTree/SpanBuilder.cs:19-22 | a new builder holds no symbols and starts at Zero |
| SyntaxTrees.SpanBuilder.Accept | src/FuManchu/Parser/SyntaxTree/SpanBuilder.cs:60-80 | a null symbol is ignored; the first symbol sets the span's start and is rebased to Zero; each later one is rebased to where the earlier contents end; the order is kept |
| SyntaxTrees.SpanBuilder.Reset | src/FuManchu/Parser/SyntaxTree/SpanBuilder.cs:102-106 | the builder is emptied and its start is Zero |
| SyntaxTrees.SpanBuilder.Build | FuManchu/Parser/SyntaxTree/Span.cs:135-147 | the span takes kind, rebased symbols and start from the builder, which is then reset |
| SyntaxTrees.AcceptKeepsContent | FuManchu/Parser/SyntaxTree/Span.cs:143-146 | rebasing a symbol keeps the span content the in-order concatenation of the symbol contents |
| SyntaxTrees.Restarted | FuManchu/Parser/SyntaxTree/Span.cs:79-90 | restarting keeps one span per span of the chain |
| SyntaxTrees.ChangeStart | FuManchu/Parser/SyntaxTree/Span.cs:79-90 | the first span gets the new start and each following one the running location past the earlier contents |
| SyntaxTrees.RunningByContent | FuManchu/Parser/SyntaxTree/Span.cs:83-89 | the running location depends only on the spans' contents |
| SyntaxTrees.RestartedIdempotent | FuManchu/Parser/SyntaxTree/Span.cs:79-90 | restarting keeps every content, and restarting twice from the same start is restarting once |
| SyntaxTrees.RunningAbsolute | FuManchu/Parser/SyntaxTree/Span.cs:83-89 | the running offset is the new start plus the lengths of the spans passed |
| SyntaxTrees.EqualsImpliesEquivalent | FuManchu/Parser/SyntaxTree/Span.cs:93-119 | equal spans (kind, start, symbols) are equivalent (kind, start, content) |
| SyntaxTrees.EquivalentButNotEqual | FuManchu/Parser/SyntaxTree/Span.cs:93-119 | the same text split into different symbols is equivalent but not equal |
| ParserContexts.WithTop | FuManchu/Parser/ParserContext.cs:39-42 | replacing the current block keeps every frame below it and the stack's height |
| ParserContexts.ParserContext.constructor | FuManchu/Parser/ParserContext.cs:24-29 | a new context has no frames, is not terminated, has no errors and no last span |
| ParserContexts.ParserContext.CurrentBlock | FuManchu/Parser/ParserContext.cs:39-42 | the top frame; an empty stack throws |
| ParserContexts.ParserContext.EnsureNotTerminated | FuManchu/Parser/ParserContext.cs:154-160 | throws "Parsing has been completed." exactly when the context is terminated |
| ParserContexts.ParserContext.StartBlock | FuManchu/Parser/ParserContext.cs:216-223 | pushes a frame of the given type (Text by default) and name; throws once terminated |
| ParserContexts.ParserContext.EndBlock | FuManchu/Parser/ParserContext.cs:131-149 | with more than one frame, pops one and appends its built block to the new top; with one frame, terminates; with none, throws; throws once terminated |
| ParserContexts.ParserContext.AddSpan | FuManchu/Parser/ParserContext.cs:97-108 | appends the span to the top frame's children and records it as the last span; throws on an empty stack and once terminated |
| ParserContexts.ParserContext.MergeCurrentWithParent | FuManchu/Parser/ParserContext.cs:165-177 | with more than two frames, pops the top and appends its children to the parent in order; otherwise changes nothing |
| ParserContexts.ParserContext.OnError | FuManchu/Parser/ParserContext.cs:183-188 | appends the error to the sink; throws once terminated |
| ParserContexts.ParserContext.CompleteParse | FuManchu/Parser/ParserContext.cs:114-126 | needs exactly one frame, otherwise throws; returns the built root block, the errors, and success iff there are none |
| ParserContexts.ParserContext.SetCurrentBlock | FuManchu/Parser/ParserContext.cs:39-42 | a change to the current block's properties replaces the top frame; an empty stack throws |
| ParserContexts.TerminatedRefusesAll | FuManchu/Parser/ParserContext.cs:154-160 | once terminated, StartBlock, EndBlock, AddSpan and OnError all throw and change nothing |
| ParserContexts.StartThenEnd | FuManchu/Parser/ParserContext.cs:131-149 | a block started and ended at once becomes an empty child block of the frame it was started in |
| ParserContexts.DocumentLifecycle | FuManchu/Parser/ParserContext.cs:114-149 | ending the root block terminates the parse and keeps the root frame, so CompleteParse returns it, successful iff there were no errors |
| ParserContexts.MergeKeepsOrder | FuManchu/Parser/ParserContext.cs:165-177 | a span added then merged lands in the parent after the parent's own children and the merged frame's earlier ones |
| ParserContexts.MergeNeedsThreeFrames | FuManchu/Parser/ParserContext.cs:167 | with two frames or fewer the merge is a no-op |
| ParserContexts.AddChildrenText | FuManchu/Parser/ParserContext.cs:172-175 | appending nodes to the top frame appends their text to the text the stack holds |
| ParserContexts.AddChildText | FuManchu/Parser/ParserContext.cs:106 | appending one node appends its text |
| ParserContexts.RelabelKeepsText | FuManchu/Parser/ParserContext.cs:39-42 | changing the top frame's type, name or descriptor keeps the text |
| ParserContexts.BlockOperationsKeepText | FuManchu/Parser/ParserContext.cs:131-223 | StartBlock, EndBlock and MergeCurrentWithParent never add, drop or reorder text |
| Parsers.TokenizedStreamIsWellFormed | src/FuManchu/Tokenizer/HandlebarsTokenizer.cs:36-552 | the symbols the tokenizer produces tile the text: they are contiguous and the stream stops where the last one ends |
| Parsers.PutBackTarget | FuManchu/Parser/TokenizerBackedParser.cs:442-448 | a symbol can be put back only if it ends where the reader stands, i.e. it is the symbol just read |
| Parsers.RunEndIsLongest | FuManchu/Parser/TokenizerBackedParser.cs:250-253 | the run AcceptWhile takes is the longest: every symbol in it satisfies the condition and the one after does not |
| Parsers.MatchedPrefixMatches | FuManchu/Parser/TokenizerBackedParser.cs:144-155 | AcceptAll takes exactly the symbols matching the expected types in order and stops at the first mismatch or the end |
| Parsers.PieceText | FuManchu/Parser/TokenizerBackedParser.cs:373-380 | the span output for a run of symbols holds exactly their text |
| Parsers.GrowsText | FuManchu/Parser/ParserContext.cs:97-108 | appending nodes appends their text to the text the block stack holds |
| Parsers.Framed | FuManchu/Parser/ParserContext.cs:131-223 | starting a block, filling it and ending it adds one block holding those nodes to the parent, and the root stays |
| Parsers.CommentHalves | src/FuManchu/Parser/HandlebarsParser.cs:150-184 | a comment tag is its opening, the comment text as one collapsed span, and its closing |
| Parsers.HeadThenName | src/FuManchu/Parser/HandlebarsParser.cs:233-257 | the name read after a block tag's prefix is the block tag's name, negated when the prefix was '^' |
| Parsers.HeadThenEndName | src/FuManchu/Parser/HandlebarsParser.cs:101-123 | after reading an end tag's head, the last span's content is the end tag's name |
| Parsers.EndBlockEffect | FuManchu/Parser/ParserContext.cs:131-149 | ending a block pops one frame, or terminates when only the root is left, and keeps the root and the errors |
| Parsers.TagsMove | src/FuManchu/Parser/HandlebarsParser.cs:95-184 | comment tags and end tags always consume at least one symbol |
| Parsers.UnbalancedAsWrittenNamesNothing | src/FuManchu/Parser/HandlebarsParser.cs:123-127 | as written, the unbalanced-tags message for a retyped element names '' instead of the open tag |
| Parsers.UnbalancedNamesBoth | src/FuManchu/Parser/HandlebarsParser.cs:123-127 | the corrected message names both the open tag and the end tag found |
| Parsers.HandlebarsParser.constructor | FuManchu/Parser/TokenizerBackedParser.cs:26-29 | a fresh parser stands before the first symbol with an empty builder and an empty parse |
| Parsers.HandlebarsParser.CurrentLocation | FuManchu/Parser/TokenizerBackedParser.cs:34-37 | the location of the current symbol, or of the end of the stream |
| Parsers.HandlebarsParser.At | FuManchu/Parser/TokenizerBackedParser.cs:260-263 | true iff there is a current symbol and it has the given type |
| Parsers.HandlebarsParser.NextToken | FuManchu/Parser/TokenizerBackedParser.cs:364-368 | the next symbol becomes current, or the parser is at the end; once at the end nothing changes |
| Parsers.HandlebarsParser.EnsureCurrent | FuManchu/Parser/TokenizerBackedParser.cs:306-313 | reads the first symbol if none was read, without moving; true iff there is a current symbol |
| Parsers.HandlebarsParser.Accept | FuManchu/Parser/TokenizerBackedParser.cs:115-125 | the symbol's errors are reported, then it is added to the builder; it fails only on a terminated parse |
| Parsers.HandlebarsParser.AcceptAndMoveNext | FuManchu/Parser/TokenizerBackedParser.cs:161-165 | accepts the current symbol and moves to the next; true iff one remains |
| Parsers.HandlebarsParser.AcceptWhile | FuManchu/Parser/TokenizerBackedParser.cs:250-253 | accepts exactly the run of symbols satisfying the condition |
| Parsers.HandlebarsParser.AcceptUntil | FuManchu/Parser/TokenizerBackedParser.cs:202-205 | accepts exactly the run of symbols of none of the given types |
| Parsers.HandlebarsParser.AcceptAll | FuManchu/Parser/TokenizerBackedParser.cs:144-155 | accepts the matching prefix of the expected types; true iff all matched |
| Parsers.HandlebarsParser.PutBack | FuManchu/Parser/TokenizerBackedParser.cs:442-448 | a null symbol is ignored; the symbol just read is put back; any other throws "Cannot put symbol back." |
| Parsers.HandlebarsParser.PutCurrentBack | FuManchu/Parser/TokenizerBackedParser.cs:465-471 | the current symbol, if any, is put back and none is current |
| Parsers.HandlebarsParser.NextIs | FuManchu/Parser/TokenizerBackedParser.cs:349-358 | the condition on the symbol after the current one; the parser does not move, and it throws exactly when the last symbol of a truncated stream cannot be put back |
| Parsers.HandlebarsParser.Output | FuManchu/Parser/TokenizerBackedParser.cs:373-380 | the builder is reset, and a span of its symbols is added to the current block iff it held any |
| Parsers.HandlebarsParser.Optional | FuManchu/Parser/TokenizerBackedParser.cs:397-405 | true iff at the given type, and then exactly that symbol is accepted |
| Parsers.HandlebarsParser.Required | FuManchu/Parser/TokenizerBackedParser.cs:480-489 | true iff at the expected type; "Expected: " and the type's name is reported iff it is missing and the flag is set |
| Parsers.HandlebarsParser.AtCommentTag | src/FuManchu/Parser/HandlebarsParser.cs:150-184 | adds one Comment block holding the comment's parts and reports the errors of its symbols |
| Parsers.HandlebarsParser.Rename | src/FuManchu/Parser/HandlebarsParser.cs:305-309 | the current block takes the body's name, and becomes a tag element when the body is negated or named "else"; its children are kept |
| Parsers.HandlebarsParser.EmitMap | src/FuManchu/Parser/HandlebarsParser.cs:276-284 | past the Assign, the run up to whitespace or the end of the body is read, and one Map span holding the held parameter name, the Assign and that run is added, with the errors of the symbols read |
| Parsers.HandlebarsParser.Parameter | src/FuManchu/Parser/HandlebarsParser.cs:285-295 | the run up to an Assign, whitespace or the end of the body is read; before an Assign it stays in the builder and nothing is added, otherwise exactly that run becomes one Parameter span |
| Parsers.HandlebarsParser.Argument | src/FuManchu/Parser/HandlebarsParser.cs:276-295 | a map or a parameter: only argument nodes are added, and the parser moves unless it stands at a stop symbol |
| Parsers.HandlebarsParser.Spacing | src/FuManchu/Parser/HandlebarsParser.cs:262-268 | at whitespace, it becomes a WhiteSpace span and the parser moves; otherwise nothing happens |
| Parsers.HandlebarsParser.Parenthesised | src/FuManchu/Parser/HandlebarsParser.cs:270-274 | at '(', one sub-expression block is added and the parser moves; otherwise nothing happens |
| Parsers.HandlebarsParser.Iteration | src/FuManchu/Parser/HandlebarsParser.cs:260-296 | one pass of the argument loop always moves and adds only argument nodes: WhiteSpace, Map and Parameter spans and sub-expression blocks |
| Parsers.HandlebarsParser.Arguments | src/FuManchu/Parser/HandlebarsParser.cs:260-296 | the argument loop adds only argument nodes and stops at a '}}', '}}}', '~' or ')' symbol; at the end of the stream it throws |
| Parsers.HandlebarsParser.NameBody | src/FuManchu/Parser/HandlebarsParser.cs:241-252 | the name run becomes the block's only child, an Expression span, and the block takes the name BodyName gives |
| Parsers.HandlebarsParser.BodyContent | src/FuManchu/Parser/HandlebarsParser.cs:241-302 | the ExpressionBody block keeps its type, takes the body's name, holds the name span followed only by argument nodes, and is ignored when it has no children |
| Parsers.HandlebarsParser.AtExpressionBody | src/FuManchu/Parser/HandlebarsParser.cs:233-310 | one ExpressionBody block is added, named after the body and holding the name span then only argument nodes; the enclosing block takes the first name read ('^' for an unnamed negated body) and its type follows Rename |
| Parsers.HandlebarsParser.SubExpressionContent | src/FuManchu/Parser/HandlebarsParser.cs:360-374 | the parenthesised body moves past its '(' and leaves the sub-expression block a SubExpression or, when named "else", a tag element |
| Parsers.HandlebarsParser.AtSubExpression | src/FuManchu/Parser/HandlebarsParser.cs:356-376 | a sub-expression moves past its '(' and adds exactly one block, of type SubExpression or, when named "else", TagElement |
| Parsers.HandlebarsParser.AtExpressionTag | src/FuManchu/Parser/HandlebarsParser.cs:189-228 | an expression tag consumes input and keeps the text already parsed |
| Parsers.HandlebarsParser.AtPartialTag | src/FuManchu/Parser/HandlebarsParser.cs:315-351 | a partial tag consumes input and keeps the text already parsed |
| Parsers.HandlebarsParser.LookAhead | src/FuManchu/Parser/HandlebarsParser.cs:384-505 | the construct chosen is TagKindAt: '#' block, '!' comment, '/' end tag, '>' partial, '^' negated expression before a close and negated block otherwise, '&' and anything else an expression |
| Parsers.HandlebarsParser.Classify | src/FuManchu/Parser/HandlebarsParser.cs:381-505 | the same choice, with the reader put back where it was |
| Parsers.HandlebarsParser.Describe | src/FuManchu/Parser/HandlebarsParser.cs:56-61 | the descriptor of a named tag comes from the tag providers; it throws iff the providers do |
| Parsers.HandlebarsParser.Reinstate | src/FuManchu/Parser/HandlebarsParser.cs:76-87 | an elseif inside an if is merged into its parent; otherwise the block takes the tag's name and descriptor |
| Parsers.HandlebarsParser.CheckEndName | src/FuManchu/Parser/HandlebarsParser.cs:123-127 | reports "Unbalanced tags" iff the end tag's name differs from the open tag's, with the corrected message that names both tags (see ## Findings) |
| Parsers.HandlebarsParser.NameAndClose | src/FuManchu/Parser/HandlebarsParser.cs:129-140 | the closing element takes the end tag's name as read, keeps its type, and the closing parts are read |
| Parsers.HandlebarsParser.ClosingElement | src/FuManchu/Parser/HandlebarsParser.cs:99-141 | the open block gets one more child, a TagElement named after the end tag as read, whether or not the name matches |
| Parsers.HandlebarsParser.AtBlockEndTag | src/FuManchu/Parser/HandlebarsParser.cs:95-145 | the closed block keeps its type and name and ends with a TagElement named after the end tag as read, matching or not (at the root, the root ends with it); an end tag closes one block, or terminates the parse at the root, and adds its symbols' errors and the unbalanced-tags error if the names differ, with the corrected message (see ## Findings) |
| Parsers.HandlebarsParser.AtTag | src/FuManchu/Parser/HandlebarsParser.cs:381-508 | a tag always consumes input and keeps the document root |
| Parsers.HandlebarsParser.AtBlockTag | src/FuManchu/Parser/HandlebarsParser.cs:24-90 | a block tag always consumes input and keeps the document root |
| Parsers.HandlebarsParser.LeadingWhiteSpace | src/FuManchu/Parser/HandlebarsParser.cs:528-531 | leading white space is consumed and its text kept |
| Parsers.HandlebarsParser.TextUntilTag | src/FuManchu/Parser/HandlebarsParser.cs:533-537 | text up to the next tag is consumed and its text kept |
| Parsers.HandlebarsParser.TextRun | src/FuManchu/Parser/HandlebarsParser.cs:528-538 | the text before a tag is consumed; if nothing was consumed the parser stands at a tag |
| Parsers.HandlebarsParser.ParseBlock | src/FuManchu/Parser/HandlebarsParser.cs:525-548 | each round consumes input and keeps the document root |
| Parsers.HandlebarsParser.ParseDocument | src/FuManchu/Parser/HandlebarsParser.cs:551-573 | the whole stream is consumed and the document holds exactly the text of all symbols |
| Parsers.HandlebarsParser.Parse | FuManchu/Parser/ParserContext.cs:114-126 | the result is a Document block holding the whole text, and it succeeds iff no error was reported |
| Collapsing.IndexOf | FuManchu/Parser/WhiteSpaceCollapsingParserVisitor.cs:53 | List.IndexOf: the first position holding the element, or -1 iff it is absent |
| Collapsing.MarkAllKeepsShape | FuManchu/Parser/WhiteSpaceCollapsingParserVisitor.cs:59 | setting Collapsed flags never changes the tree, only those flags |
| Collapsing.MarkAllAppend | FuManchu/Parser/WhiteSpaceCollapsingParserVisitor.cs:59 | flagging two lists of spans one after the other is flagging their concatenation |
| Collapsing.ShapeValid | FuManchu/Parser/WhiteSpaceCollapsingParserVisitor.cs:116-144 | a well-linked tree stays well linked when flags change |
| Collapsing.ShapeSpanTarget | FuManchu/Parser/WhiteSpaceCollapsingParserVisitor.cs:116-144 | which span a tilde collapses does not depend on the flags already set |
| Collapsing.ShapeBlockTargets | FuManchu/Parser/WhiteSpaceCollapsingParserVisitor.cs:116-144 | which spans a walk collapses does not depend on the flags already set |
| Collapsing.SpanTargetIsWhiteSpace | FuManchu/Parser/WhiteSpaceCollapsingParserVisitor.cs:116-144 | a span is collapsed only for a tilde inside a tag element, expression or comment, and only if it is a whitespace span |
| Collapsing.BlockTargetsAreWhiteSpace | FuManchu/Parser/WhiteSpaceCollapsingParserVisitor.cs:116-144 | every span a walk over a block collapses is a whitespace span |
| Collapsing.UnlinkedNodeTargets | FuManchu/Parser/WhiteSpaceCollapsingParserVisitor.cs:134-144 | without previous and next links no tilde sees "{{" or "}}", so a walk collapses nothing and never throws |
| Collapsing.MarkAllOnlyFlagsWhiteSpace | FuManchu/Parser/WhiteSpaceCollapsingParserVisitor.cs:59 | collapsing changes nothing but the Collapsed flag of whitespace spans, and sets it on every target |
| Collapsing.MarkAllTwice | FuManchu/Parser/WhiteSpaceCollapsingParserVisitor.cs:59 | collapsing spans already collapsed changes nothing |
| Collapsing.CollapseIdempotent | FuManchu/Parser/WhiteSpaceCollapsingParserVisitor.cs:116-144 | a second walk over a collapsed tree collapses the same spans and changes nothing |
| Collapsing.WhiteSpaceCollapser.constructor | FuManchu/Parser/WhiteSpaceCollapsingParserVisitor.cs:11 | the collapser walks the given tree |
| Collapsing.WhiteSpaceCollapser.Collapse | FuManchu/Parser/WhiteSpaceCollapsingParserVisitor.cs:57-60 | sets the Collapsed flag of one whitespace span |
| Collapsing.WhiteSpaceCollapser.CollapseNextIn | FuManchu/Parser/WhiteSpaceCollapsingParserVisitor.cs:45-62 | collapses the child after the element iff it is a whitespace span; nothing for a null block or the last child |
| Collapsing.WhiteSpaceCollapser.CollapsePreviousIn | FuManchu/Parser/WhiteSpaceCollapsingParserVisitor.cs:96-113 | collapses the child before the element iff it is a whitespace span; nothing for a null block or the first child |
| Collapsing.WhiteSpaceCollapser.CollapseNext | FuManchu/Parser/WhiteSpaceCollapsingParserVisitor.cs:17-38 | from a tilde's tag, collapses the whitespace after the tag, climbing one level when the tag is the last child, or throws as the source does on a missing parent |
| Collapsing.WhiteSpaceCollapser.CollapsePrevious | FuManchu/Parser/WhiteSpaceCollapsingParserVisitor.cs:68-89 | from a tilde's tag, collapses the whitespace before the tag, climbing one level when the tag is the first child, or throws as the source does on a missing parent |
| Collapsing.WhiteSpaceCollapser.VisitTilde | FuManchu/Parser/WhiteSpaceCollapsingParserVisitor.cs:134-144 | a tilde after "{{" collapses backwards, one before "}}" forwards, any other nothing |
| Collapsing.WhiteSpaceCollapser.VisitSpan | FuManchu/Parser/WhiteSpaceCollapsingParserVisitor.cs:116-128 | only a MetaCode span whose first symbol is a tilde is visited as a tilde |
| Collapsing.WhiteSpaceCollapser.VisitNode | FuManchu/Parser/ParserVisitor.cs:19-52 | visiting a node flags exactly the spans NodeTargets names and fails as it does |
| Collapsing.WhiteSpaceCollapser.VisitBlock | FuManchu/Parser/ParserVisitor.cs:19-31 | a block's children are visited in order, stopping at the first exception |
| Values.Lookup | FuManchu/Binding/TemplateDataEvaluator.cs:75-78 | IDictionary.TryGetValue: nothing iff no entry has the key, otherwise the value of an entry with that key |
| Values.Trim | src/FuManchu/Operators/InOperator.cs:28 | String.Trim: no longer than the text and starting and ending with no white space |
| Values.TrimIsInfix | src/FuManchu/Operators/InOperator.cs:28 | String.Trim removes only white space, and only at the ends: the result is the infix of the text after its leading white space, with nothing but white space after it |
| Values.ParseIntSpaces | src/FuManchu/Operators/EqualityOperator.cs:52 | a string converts to an Int as Int32.Parse with NumberStyles.Integer does: tabs and spaces around a sign and digits are skipped, but a no-break space, which String.Trim removes, makes it fail |
| Values.ChangeType | src/FuManchu/Operators/EqualityOperator.cs:52 | Convert.ChangeType: a value of the target type is returned unchanged, and any conversion that succeeds has the target type |
| Values.Elements | src/FuManchu/Operators/InOperator.cs:32-35 | the items a foreach enumerates: a string's characters in order, the elements of an array or list |
| Evaluation.RightToLeft | FuManchu/Binding/TemplateDataEvaluator.cs:50-67 | the whole path first, then a split at every dot, each prefix shorter than the one before |
| Evaluation.DotSplitsCover | FuManchu/Binding/TemplateDataEvaluator.cs:54-66 | a split is produced at every dot of the path |
| Evaluation.IndexValue | FuManchu/Binding/TemplateDataEvaluator.cs:69-94 | a value is found iff the container is a dictionary holding the key, and it is that entry's value |
| Evaluation.PropertyValue | FuManchu/Binding/TemplateDataEvaluator.cs:96-122 | a dictionary key is found first; otherwise a property of the container, or of the model of a TemplateData |
| Evaluation.Eval | FuManchu/Binding/TemplateDataEvaluator.cs:17-20 | a null object resolves nothing |
| Evaluation.WholePathFirst | FuManchu/Binding/TemplateDataEvaluator.cs:22-48 | a whole path that resolves is taken as it is |
| Evaluation.FirstSplitWins | FuManchu/Binding/TemplateDataEvaluator.cs:22-48 | the first split whose prefix resolves with nothing after it wins when no earlier prefix resolves |
| Evaluation.FoundThroughSomeSplit | FuManchu/Binding/TemplateDataEvaluator.cs:22-48 | whatever is found, some prefix of the path resolved against the object |
| Evaluation.NothingWithoutAPrefix | FuManchu/Binding/TemplateDataEvaluator.cs:22-48 | a path none of whose prefixes resolves finds nothing |
| Evaluation.DictionaryKeyBeforeProperty | FuManchu/Binding/TemplateDataEvaluator.cs:96-102 | a dictionary key named "Count" hides the Count property |
| Evaluation.OneDotSplits | FuManchu/Binding/TemplateDataEvaluator.cs:50-67 | "person.name" is tried whole, then as "person" then "name" |
| Evaluation.NoDotSplits | FuManchu/Binding/TemplateDataEvaluator.cs:50-67 | a path without a dot is tried only whole |
| Evaluation.NestedPath | FuManchu/Binding/TemplateDataEvaluator.cs:22-48 | "person.name" resolves through the person property into its dictionary |
| Evaluation.DictionaryModelKeyNotFound | FuManchu/Binding/TemplateDataEvaluator.cs:12-15 | evaluation starts at the TemplateData wrapper, which is asked for keys instead of the model, so a key of a dictionary model is not found |
| RenderContexts.SetThenGet | src/FuManchu/Renderer/RenderContext.cs:87-96 | setting a variable changes the lookup of that name and of no other |
| RenderContexts.RenderContext.constructor | src/FuManchu/Renderer/RenderContext.cs:23-27 | a context with its parent, root, data and resolver, no variables and EscapeEncoding false |
| RenderContexts.RenderContext.GetVariable | src/FuManchu/Renderer/RenderContext.cs:87-96 | the stored value, or the fallback when none is stored |
| RenderContexts.RenderContext.SetVariable | src/FuManchu/Renderer/RenderContext.cs:286-289 | the variable is stored and every other lookup is unchanged |
| RenderContexts.RenderContext.ResolveExpression | src/FuManchu/Renderer/RenderContext.cs:242-245 | resolves against the context's own template data |
| RenderContexts.RenderContext.ResolveValueFromSymbols | src/FuManchu/Renderer/RenderContext.cs:134-234 | the symbol walk ResolveSymbols specifies |
| RenderContexts.RenderContext.ResolveValue | src/FuManchu/Renderer/RenderContext.cs:103-127 | expressions and parameters resolve all their symbols, maps the symbols after the key and '=', anything else the model |
| RenderContexts.CreateRenderContext | src/FuManchu/Renderer/RenderContextFactory.cs:18-38 | a fresh top-level context for the model, with no parent or root and the given resolver |
| RenderContexts.CreateChild | src/FuManchu/Renderer/RenderContextFactory.cs:46-71 | a null parent throws; otherwise a fresh child whose model defaults to the parent's, whose root is the parent's root or the parent, and which shares the resolver |
| RenderContexts.RootOfChain | src/FuManchu/Renderer/RenderContextFactory.cs:68 | every context in a chain of children has the top-level context as its root |
| RenderContexts.Skip | src/FuManchu/Renderer/RenderContext.cs:117 | Enumerable.Skip: the suffix after n items, empty when there are fewer |
| RenderContexts.Unquote | src/FuManchu/Renderer/RenderContext.cs:192-195 | the text between the quotes; a one-character text throws for its length and an empty one for its start index |
| RenderContexts.WalkAppend | src/FuManchu/Renderer/RenderContext.cs:147-225 | the walk over two runs of symbols is the walk over the first and, unless it returned, over the second |
| RenderContexts.WalkContinues | src/FuManchu/Renderer/RenderContext.cs:147-225 | without a parent step or a literal the walk never returns early and stays in its context |
| RenderContexts.ClimbParents | src/FuManchu/Renderer/RenderContext.cs:171-184 | each '../' climbs one context, and climbing past the top returns null |
| RenderContexts.PathBuilds | src/FuManchu/Renderer/RenderContext.cs:197-223 | once a path has started, names add their text and slashes add '.' |
| RenderContexts.PathResolves | src/FuManchu/Renderer/RenderContext.cs:197-233 | a path resolves the text it spells, without a leading '.', against the context itself |
| RenderContexts.ThisSkipped | src/FuManchu/Renderer/RenderContext.cs:203-214 | a leading "this" is skipped |
| RenderContexts.LiteralReturns | src/FuManchu/Renderer/RenderContext.cs:186-195 | a number returns its text and a string the text between its quotes, whatever follows |
| RenderContexts.VariableLookup | src/FuManchu/Renderer/RenderContext.cs:257-260 | "@name" reads the variable of that name, null when unset |
| RenderContexts.RootPath | src/FuManchu/Renderer/RenderContext.cs:262-267 | "@root." resolves the rest against the root context, or the context itself without one |
| RenderContexts.UnresolvedPath | src/FuManchu/Renderer/RenderContext.cs:269-278 | a path that does not resolve goes to the unknown-value resolver, and is null without one |
| RenderContexts.ParentThenThis | src/FuManchu/Renderer/RenderContext.cs:171-214 | "../this" gives the starting context's own model, because "this" resets the data but not the context |
| Operators.NullEquality | src/FuManchu/Operators/EqualityOperator.cs:35-89 | two nulls are equal and a null equals nothing else, loosely and strictly |
| Operators.StrictImpliesLoose | src/FuManchu/Operators/EqualityOperator.cs:35-89 | strictly equal values are loosely equal |
| Operators.StrictSymmetric | src/FuManchu/Operators/EqualityOperator.cs:68-89 | strict equality is symmetric |
| Operators.LooseAsymmetric | src/FuManchu/Operators/EqualityOperator.cs:35-60 | loose equality is not symmetric: 1 == "01" but not "01" == 1 |
| Operators.NegationIsExact | src/FuManchu/Operators/NegatedEqualityOperator.cs:31-34 | a negated operator answers exactly the opposite of its equality |
| Operators.Fields | src/FuManchu/Operators/InOperator.cs:28 | String.Split at ',' always gives at least one field |
| Operators.FieldsHaveNoComma | src/FuManchu/Operators/InOperator.cs:28 | no field holds a ',' |
| Operators.FieldsOfPlainText | src/FuManchu/Operators/InOperator.cs:28 | a text without commas is one field |
| Operators.NonEmpty | src/FuManchu/Operators/InOperator.cs:28 | RemoveEmptyEntries keeps only non-empty fields, all from the input |
| Operators.ListItemShape | src/FuManchu/Operators/InOperator.cs:25-30 | every item of a comma-separated list has no ',' and no surrounding white space |
| Operators.InListItemShape | src/FuManchu/Operators/InOperator.cs:25-30 | a value found in a list has no ',' and no surrounding white space in its text |
| Operators.InItself | src/FuManchu/Operators/InOperator.cs:25-30 | a plain non-empty word is in itself |
| Operators.InArray | src/FuManchu/Operators/InOperator.cs:32-36 | a value is in any array holding an equal element |
| Operators.HelloInList | test/FuManchu.Tests/Operators/InOperatorFacts.cs:33-37 | "hello" is in " hello, world" |
| Operators.OperatorCollection.constructor | src/FuManchu/Operators/OperatorsCollection.cs:35-41 | a collection built from null is empty |
| Operators.OperatorCollection.Contains | src/FuManchu/Operators/OperatorsCollection.cs:151-154 | true iff an operator of that name is present |
| Operators.OperatorCollection.ContainsOperator | src/FuManchu/Operators/OperatorsCollection.cs:136-144 | a null operator throws; otherwise whether its name is present |
| Operators.OperatorCollection.GetOperator | src/FuManchu/Operators/OperatorsCollection.cs:173-181 | the operator of that name iff present, and it carries that name |
| Operators.OperatorCollection.Count | src/FuManchu/Operators/OperatorsCollection.cs:56 | the number of names present |
| Operators.OperatorCollection.Add | src/FuManchu/Operators/OperatorsCollection.cs:62-73 | a null operator throws; the first operator of a name is kept and a later one ignored |
| Operators.OperatorCollection.AddAll | src/FuManchu/Operators/OperatorsCollection.cs:79-95 | null and empty arrays throw; otherwise each operator is added in turn until a null one throws |
| Operators.OperatorCollection.Remove | src/FuManchu/Operators/OperatorsCollection.cs:199-207 | true iff the name was present, and only that name is removed |
| Operators.OperatorCollection.Clear | src/FuManchu/Operators/OperatorsCollection.cs:130-133 | the collection is empty |
| Operators.AddEachKeepsFirst | src/FuManchu/Operators/OperatorsCollection.cs:62-95 | adding a run keeps every operator already present, and every new name comes from the run |
| Operators.AddEachCovers | src/FuManchu/Operators/OperatorsCollection.cs:62-95 | adding non-null operators never throws, keeps every operator under its own name and makes every name present |
| Operators.StandardOperatorsAllKept | src/FuManchu/Operators/StandardOperatorProvider.cs:11-23 | the standard equality, negation and "in" operators have distinct names, so all six are kept |
| Tags.NewTagDescriptor | src/FuManchu/Tags/TagDescriptor.cs:21-55 | the constructor's checks in order (blank name, null renderer, negative counts) and, when they pass, the fields as given with no maximum meaning Int32.MaxValue |
| Tags.StandardTagsAreConstructed | src/FuManchu/Tags/StandardTagProvider.cs:11-17 | each standard tag is what the constructor builds from its arguments |
| Tags.FirstNamed | src/FuManchu/Tags/TagProvidersCollection.cs:97-100 | the first tag whose name matches ignoring case, or nothing iff none does |
| Tags.CreateImplicitTagDescriptor | src/FuManchu/Tags/TagProvidersCollection.cs:103-106 | a descriptor with no arguments, no maps, child content and marked implicit; a blank name throws |
| Tags.IndexOfType | src/FuManchu/Tags/TagProvidersCollection.cs:83 | the first provider of the given type, or nothing iff there is none |
| Tags.TagProvidersCollection.constructor | src/FuManchu/Tags/TagProvidersCollection.cs:15-29 | a new collection copies the default, which holds the standard provider |
| Tags.TagProvidersCollection.FromProviders | src/FuManchu/Tags/TagProvidersCollection.cs:35-41 | the collection holds the given providers, and none for null |
| Tags.TagProvidersCollection.Contains | src/FuManchu/Tags/TagProvidersCollection.cs:75-84 | null throws; otherwise whether a provider of the same type is present |
| Tags.TagProvidersCollection.Add | src/FuManchu/Tags/TagProvidersCollection.cs:50-61 | null throws; a provider is appended only if none of its type is present |
| Tags.TagProvidersCollection.Clear | src/FuManchu/Tags/TagProvidersCollection.cs:69-72 | the collection is empty |
| Tags.TagProvidersCollection.RemoveType | src/FuManchu/Tags/TagProvidersCollection.cs:123-132 | the first provider of the type is removed, and false iff there is none |
| Tags.TagProvidersCollection.GetDescriptor | src/FuManchu/Tags/TagProvidersCollection.cs:97-100 | the first tag across the providers whose name matches ignoring case, otherwise an implicit descriptor |
| Tags.AddMakesPresent | src/FuManchu/Tags/TagProvidersCollection.cs:50-61 | after an Add a provider of that type is present, so adding it again changes nothing |
| Tags.StandardLookups | src/FuManchu/Tags/TagProvidersCollection.cs:97-106 | "IF" finds the if tag and "foo" finds no standard tag |
| Renderers.TruthyIff | src/FuManchu/Renderer/SyntaxTreeNodeRenderer.cs:24-83 | an integer throws (it is unboxed as a byte); every other value has a truth value, false exactly for null, false, the empty string and empty collections |
| Renderers.Output | src/FuManchu/Renderer/SyntaxTreeNodeRenderer.cs:146-161 | nothing for null, an encoded string as it is, otherwise ToString, HTML-encoded unless the context escapes encoding |
| Renderers.EncoderOnlyForPlainValues | src/FuManchu/Renderer/SyntaxTreeNodeRenderer.cs:153-161 | the encoder makes no difference to null or encoded strings |
| Renderers.Write | src/FuManchu/Renderer/SyntaxTreeNodeRenderer.cs:134-164 | a null context or writer throws and writes nothing; otherwise the value's output is appended to the writer |
| Renderers.Gather | src/FuManchu/Renderer/SyntaxTreeNodeRenderer.cs:94-126 | one argument per parameter span, the earlier arguments kept in order, and one map key per key a map span names |
| Renderers.GatherAppend | src/FuManchu/Renderer/SyntaxTreeNodeRenderer.cs:99-123 | gathering from two runs of children is gathering from the first, then the second |
| Renderers.LastMapWins | src/FuManchu/Renderer/SyntaxTreeNodeRenderer.cs:114-121 | a later map span with the same key replaces the earlier value |
| Renderers.NoArgumentSpans | src/FuManchu/Renderer/SyntaxTreeNodeRenderer.cs:99 | children that are not parameter or map spans add nothing |
| Renderers.GetArgumentsAndMappedParameters | src/FuManchu/Renderer/SyntaxTreeNodeRenderer.cs:94-126 | the loop computes exactly Gather over the block's children |
| Renderers.ValidateTag | src/FuManchu/Renderer/BlockRenderer.cs:80-103 | passes iff there is no descriptor, it is implicit, or the argument count is within its bounds and maps are present exactly when allowed; failures are InvalidOperation |
| Renderers.StandardTagsPass | src/FuManchu/Renderer/BlockRenderer.cs:80-103 | {{#each}} with one argument and {{#is}} with one to three pass |
| Renderers.EachTagNeedsArgument | src/FuManchu/Renderer/BlockRenderer.cs:88-91 | {{#each}} without an argument fails with "The tag each requires at least 1 argument(s)" |
| Renderers.IsTagAtMostThree | src/FuManchu/Renderer/BlockRenderer.cs:93-96 | {{#is}} with four arguments fails with "The tag is requires at most 3 argument(s)" |
| Renderers.EachTagRejectsMaps | src/FuManchu/Renderer/BlockRenderer.cs:98-102 | {{#each}} with a mapped parameter fails with "Unexpected parameters to tag each" |
| Renderers.Partition | src/FuManchu/Renderer/ConditionalBlockRenderer.cs:48-88 | removing the closing child throws iff there are no children |
| Renderers.PartitionKeepsOrder | src/FuManchu/Renderer/ConditionalBlockRenderer.cs:58-85 | once a branch is open, the branches read in order give back every child |
| Renderers.PartitionSkipsToFirstMarker | src/FuManchu/Renderer/ConditionalBlockRenderer.cs:58-80 | the nodes before the first marker are carried into the first branch |
| Renderers.NoMarkersNoBranches | src/FuManchu/Renderer/ConditionalBlockRenderer.cs:82-87 | without a marker there are no branches |
| Renderers.PartitionRestores | src/FuManchu/Renderer/ConditionalBlockRenderer.cs:48-88 | a body that starts with a marker is cut into branches that give back the body without its closing child |
| Renderers.PartitionWellFormed | src/FuManchu/Renderer/ConditionalBlockRenderer.cs:58-85 | every branch opens with a marker and holds none |
| Renderers.ParseConditionalBlocks | src/FuManchu/Renderer/IsBlockRenderer.cs:48-88 | the loop computes Partition, and its branches are well formed |
| Renderers.IsTrue | src/FuManchu/Renderer/IsBlockRenderer.cs:96-127 | one parameter is a truth test; two compare with "=="; three apply the operator named by the middle one; no parameter, a null operator name or an unknown operator throws |
| Renderers.IsInList | src/FuManchu/Renderer/IsBlockRenderer.cs:113-126 | {{#is "hello" "in" " hello, world"}} is true |
| Renderers.Verdict | src/FuManchu/Renderer/ConditionalBlockRenderer.cs:23-36 | a branch that is not guarded is taken once its arguments are gathered |
| Renderers.Verdicts | src/FuManchu/Renderer/ConditionalBlockRenderer.cs:21-36 | one verdict per branch looked at, each that branch's Verdict, in branch order |
| Renderers.ChooseFrom | src/FuManchu/Renderer/ConditionalBlockRenderer.cs:21-37 | the branch chosen is one of those looked at |
| Renderers.ChosenIsFirstTaken | src/FuManchu/Renderer/ConditionalBlockRenderer.cs:21-37 | the branch chosen is taken, and every branch before it tested false |
| Renderers.FirstTakenIsChosen | src/FuManchu/Renderer/ConditionalBlockRenderer.cs:21-37 | the first branch taken is the one chosen |
| Renderers.NoneChosen | src/FuManchu/Renderer/ConditionalBlockRenderer.cs:21-37 | no branch is rendered iff every branch tested false |
| Renderers.SkippedAreGuarded | src/FuManchu/Renderer/ConditionalBlockRenderer.cs:21-37 | every branch passed over before the chosen one was guarded ({{else}} is never skipped) and tested false |
| Renderers.ElseIfAfterFalseIf | src/FuManchu.Tests/Renderer/ConditionalBlockRendererFacts.cs:26-33 | with a false {{#if}} and a true {{#elseif}}, the {{#elseif}} branch is rendered |
| Renderers.BranchPlan | src/FuManchu/Renderer/ConditionalBlockRenderer.cs:15-38 | a block without children throws before any branch is tried |
| Renderers.ItemsOf | FuManchu/Renderer/EnumerableBlockRenderer.cs:18-22 | a dictionary's values with their keys in order, a string's characters, a collection's elements, and any other value as the only item |
| Renderers.FirstElse | FuManchu/Renderer/EnumerableBlockRenderer.cs:31-34 | the position of the first {{else}}, or nothing iff there is none |
| Renderers.PlanEach | FuManchu/Renderer/EnumerableBlockRenderer.cs:16-40 | no argument throws; fewer than two children throws; otherwise the items of the first argument |
| Renderers.ElseSplits | FuManchu/Renderer/EnumerableBlockRenderer.cs:31-37 | the body and the alternate are the children before and after the first {{else}}, which is dropped |
| Renderers.NoElseNoAlternate | FuManchu/Renderer/EnumerableBlockRenderer.cs:31-37 | without {{else}} the body is all the inner children and there is no alternate |
| Renderers.ScopeVariables | FuManchu/Renderer/EnumerableBlockRenderer.cs:64-69 | in an item's scope @first, @last, @index and @key give its position and key, and a null item keeps the parent's model |
| Renderers.ParametersBlock | src/FuManchu/Renderer/BlockRenderer.cs:18-24 | a tag takes its arguments from its first child, which must exist and be a block |
| Renderers.BlockArguments | src/FuManchu/Renderer/BlockRenderer.cs:16-32 | arguments handed on always pass ValidateTag |
| Renderers.BlockPlan | src/FuManchu/Renderer/BlockRenderer.cs:16-32 | an argument error stops the render; otherwise the enumeration the arguments give |
| Renderers.Renderer.constructor | src/FuManchu/Renderer/BlockRenderer.cs:13 | nothing rendered yet |
| Renderers.Renderer.RenderChild | src/FuManchu/Renderer/BlockRenderer.cs:45-58 | a null node or context throws and renders nothing; otherwise the node is rendered in the context |
| Renderers.Renderer.RenderChildren | src/FuManchu/Renderer/BlockRenderer.cs:65-71 | the children are rendered in order in the context |
| Renderers.Renderer.RenderBranches | src/FuManchu/Renderer/ConditionalBlockRenderer.cs:15-38 | renders exactly the nodes of the branch BranchPlan chooses, or nothing and the error |
| Renderers.Renderer.RenderConditional | src/FuManchu/Renderer/ConditionalBlockRenderer.cs:15-38 | the same with the if, elseif and else markers and the truth test |
| Renderers.Renderer.RenderIs | src/FuManchu/Renderer/IsBlockRenderer.cs:15-38 | the same with the is, elseis, else and ^ markers and IsTrue |
| Renderers.Renderer.RenderEnumerable | FuManchu/Renderer/EnumerableBlockRenderer.cs:49-107 | one fresh scope per item holding its variables, the body rendered in each in turn, and the alternate in the context when there are no items |
| Renderers.Renderer.BeginItemScope | FuManchu/Renderer/EnumerableBlockRenderer.cs:64-69 | a fresh child context of the item holding first, last, index and, for a dictionary, key |
| Renderers.Renderer.RenderEach | FuManchu/Renderer/EnumerableBlockRenderer.cs:16-40 | a plan error throws and renders nothing; otherwise the enumeration as RenderEnumerable states |
| Renderers.Renderer.RenderBlock | src/FuManchu/Renderer/BlockRenderer.cs:16-32 | an argument or validation error throws and renders nothing; otherwise the {{#each}} enumeration |

## Left out

- Parsers.HandlebarsParser.AtTag: states that the parser advances, keeps the text of every symbol it reads and keeps the block stack rooted. It does not state the exact tree of spans and blocks built for each tag form.
- Parsers.HandlebarsParser.AtBlockTag: weaker in the same way as AtTag (progress, text kept, stack rooted).
- Parsers.HandlebarsParser.ParseBlock: weaker in the same way as AtTag.
- Parsers.HandlebarsParser.AtExpressionTag: weaker in the same way as AtTag.
- Parsers.HandlebarsParser.AtPartialTag: weaker in the same way as AtTag.
- Parsers.HandlebarsParser.AtSubExpression: states the one block it adds and its type, but not the spans and blocks inside it.
- Parsers.HandlebarsParser.TextRun: weaker in the same way as AtTag.
- Parsers.HandlebarsParser.LeadingWhiteSpace: weaker in the same way as AtTag.
- Parsers.HandlebarsParser.TextUntilTag: weaker in the same way as AtTag.
- Renderers.TruthyIff: only the Int32 unboxing of `IsTruthy` is modelled. The other numeric types (long, float, double, decimal, byte and the rest) are not values of this model.
- Renderers.IsTrue: the operator table is a parameter. The `OperatorBase` check that an operator's name is well formed is not modelled.
- Chars: `Char.IsLetter`, `Char.IsDigit` and the case mappings are approximated by their ASCII members. .NET's tables are not reproduced. White space is modelled in full: the Zs category, tab, vertical tab, form feed and the newline characters.
- Operators: `NumericOperator` (the `<`, `<=`, `>` and `>=` operators) and `DelegateOperator` are not modelled. The standard operator list therefore holds six of the ten standard operators.
- Operators.OperatorCollection.constructor: the parameterless constructor's copy of the shared `Default` collection and the provider-based `Add` overloads are not modelled. A provider is a callback into code outside the core.
- Tags.TagProvidersCollection: `Remove(ITagProvider)` removes a provider by reference. Providers are values here, so only removal by type is modelled.
- Tags.TagProvidersCollection.GetDescriptor: the boolean argument that picks implicit descriptors is not modelled. Implicit descriptors are created by `CreateImplicitTagDescriptor`.
- Parsers: `PushSpanConfig` and the span-configuration callbacks are not modelled. Every span gets the default configuration.
- Parsers: the parser reads a symbol sequence fixed in advance, not a tokenizer that runs lazily beside it. The tokenizer's output is the same either way.
- TextReaders: `BufferingTextReader` is not modelled. `SeekableTextReader` reads a line buffer that already holds the whole template.
- `using` blocks and `Dispose`: closing a block and popping a render-context scope are explicit steps.
- Collapsing: the structural `Equals` of spans and blocks is not modelled. The collapser reaches nodes by index in an arena.
- Collapsing: the `Previous`/`Next` links between spans are explicit optional indices on each span item. The parser never sets them, so they are absent in every parsed tree.
- SourceLocations: offsets, lines and columns are unbounded integers. The C# `int` fields of `SourceLocation` and of the tracker's counters wrap at 2^31, which the model does not reproduce.
- Parsers.HandlebarsParser.Required: the `errorBase` formatter argument is taken as the identity. The reported message is "Expected: " and the type name, unformatted.
- Values.ChangeType: an Int in 0xD800-0xDFFF converts to no Char, while `Convert.ToChar` accepts it. Dafny's `char` has no surrogate code points.
- Values.Equal: the same SafeString or TemplateData compared with itself is unequal. `object.Equals` first checks reference identity, and those two cases carry no identity in the model.
- Tags.TagProvidersCollection.RemoveType: matches the provider's exact type. `Remove<T>` and `Contains<T>` test `p is T`, which also matches subtypes. A provider type is a name here, with no subtype relation between names.
- HandlebarsService: the template cache, partial registry and helper registry are not modelled.
- Renderers: HTML encoding is a function parameter, not `WebUtility.HtmlEncode`.
- Evaluation: `ModelMetadata` and `ExpressionMetadataProvider` are replaced by `TemplateDataEvaluator` over the model's values. `TryGetValueProvider` is modelled only for dictionaries.
- Values: objects with properties are never enumerable. A user type that implements `IEnumerable` is not represented.
- Values.ChangeType: converts as the invariant culture does. Culture-specific number and boolean formats are not modelled.
- Values.ParseInt: NUL characters after the number, which the .NET number parser skips, make the parse fail. Likewise the Bool conversion does not skip the NUL characters `Boolean.Parse` trims.
- Null renderer, visitor, writer and context arguments (`ArgumentNullException` on those parameters) are not modelled. The model's references are never null.
- Renderers: `HandlebarsService`, the parser visitor and `ModelMetadataProvider` are not fields of the renderer. The model reads what it needs from its parameters.
- RenderContexts: the expression resolver is a pure function parameter.
- Renderers: the render visitor is replaced by a log of `Rendered(node, context)` entries, so nested rendering is a record and not a recursive call.
- Renderers: the `(object[])` cast on an array argument is taken as succeeding for every array.
- Renderers: the block renderers compute their arguments with `Gather` and `BlockArguments` directly. They do not go through the shared helpers of `SyntaxTreeNodeRenderer`.
- Renderers: the `unless`, `with`/scope, implicit, helper and partial block renderers and the span renderers are not modelled.

## Findings

| source | as written | input that shows it | evidently intended | confidence | as-written member | corrected member |
|---|---|---|---|---|---|---|
| src/FuManchu/Tokenizer/HandlebarsTokenizer.cs:181-193 | an explicit comment with no closing `--` takes nothing more at the end of the text and returns `Stay()` | `{{!--abc` | the comment ends at the end of the text, as the unterminated literal does | not executed | Tokenizers.HandlebarsTokenizer.ContinueCommentAsWritten, Tokenizers.UnterminatedExplicitComment | Tokenizers.HandlebarsTokenizer.ContinueComment |
| src/FuManchu/Tokenizer/HandlebarsTokenizer.cs:196-197 | an empty implicit comment announces a Comment symbol with no text | `{{!}}` | an empty comment gives no symbol, and the tag closes | not executed | Tokenizers.HandlebarsTokenizer.ContinueCommentAsWritten, Tokenizers.EmptyImplicitComment | Tokenizers.HandlebarsTokenizer.ContinueComment |
| src/FuManchu/Tokenizer/HandlebarsTokenizer.cs:485-495 | after an escape the state returns `Stay()` with nothing, so the tag-content state reads the rest of the literal as if it were outside the quotes | `{{"a\"b"}}` | the escape is passed over and the literal ends at its closing quote, as one StringLiteral | not executed | Tokenizers.HandlebarsTokenizer.QuotedLiteralAsWritten, Tokenizers.EscapedQuoteInLiteral | Tokenizers.HandlebarsTokenizer.QuotedLiteral |
| src/FuManchu/Parser/HandlebarsParser.cs:123-127 | the message names the current block, which is the closing element whose name is not set yet | `{{#if x}}{{/each}}` | the message names the open tag, `if`, and the tag found, `each` | not executed | Parsers.UnbalancedAsWritten, Parsers.UnbalancedAsWrittenNamesNothing | Parsers.Unbalanced, Parsers.UnbalancedNamesBoth |
