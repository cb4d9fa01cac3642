// LineTrackingStringBuffer (src/FuManchu/Text/LineTrackingStringBuffer.cs):
// the text of a template kept as a list of contiguous lines, with a cached
// "current line" for fast character lookup.
module LineBuffers {
  import opened Wrappers
  import opened SourceLocations
  import Chars
  import LocationTracking

  /** TextLine: the offset of its first character, its index in the list, and
      its characters (a line keeps its terminator). */
  datatype TextLine = TextLine(start: int, index: int, content: string) {
    function End(): int { start + |content| }
    predicate Contains(i: int) { start <= i < End() }
  }

  /** LineTrackingStringBuffer.CharacterReference. */
  datatype CharacterReference = CharacterReference(character: char, location: SourceLocation)

  predicate NoLineBreak(s: string) {
    forall k :: 0 <= k < |s| ==> !Chars.IsNewLine(s[k])
  }

  /** A finished line: characters without terminators, then one terminator,
      which is a single newline character or the pair "\r\n". */
  predicate Terminated(s: string) {
    |s| >= 1 && Chars.IsNewLine(s[|s| - 1])
    && (NoLineBreak(s[..|s| - 1])
        || (|s| >= 2 && s[|s| - 2] == '\r' && s[|s| - 1] == '\n' && NoLineBreak(s[..|s| - 2])))
  }

  /** Lines start at offset 0, are indexed by position and each begins where
      the previous one ends. */
  predicate Contiguous(lines: seq<TextLine>) {
    |lines| >= 1 && lines[0].start == 0
    && (forall i :: 0 <= i < |lines| ==> lines[i].index == i)
    && (forall i :: 0 <= i < |lines| - 1 ==> lines[i + 1].start == lines[i].End())
  }

  /** Every line of the list is terminated. */
  predicate AllTerminated(lines: seq<TextLine>) {
    lines == [] || (AllTerminated(lines[..|lines| - 1]) && Terminated(lines[|lines| - 1].content))
  }

  lemma {:induction false} AllTerminatedAt(lines: seq<TextLine>, i: nat)
    requires AllTerminated(lines) && i < |lines|
    ensures Terminated(lines[i].content)
    decreases |lines|
  {
    if i < |lines| - 1 {
      AllTerminatedAt(lines[..|lines| - 1], i);
    }
  }

  /** Every line but the last is terminated; the last has no terminator. */
  predicate WellShaped(lines: seq<TextLine>) {
    |lines| >= 1 && AllTerminated(lines[..|lines| - 1]) && NoLineBreak(lines[|lines| - 1].content)
  }

  /** The concatenated text of a list of lines. */
  function Concat(lines: seq<TextLine>): string {
    if lines == [] then [] else Concat(lines[..|lines| - 1]) + lines[|lines| - 1].content
  }

  /** The circular scan of ScanLines: lines start, start + 1, ... (mod the
      count), from the k-th step on. */
  function Scan(lines: seq<TextLine>, absolute: int, start: nat, k: nat): (r: Option<nat>)
    requires start < |lines|
    ensures r.Some? ==> r.value < |lines|
    decreases |lines| - k
  {
    if k >= |lines| then None
    else if lines[Slot(|lines|, start, k)].Contains(absolute) then Some(Slot(|lines|, start, k))
    else Scan(lines, absolute, start, k + 1)
  }

  /** The line visited at step k of a scan starting at line start. */
  function Slot(n: nat, start: nat, k: nat): (r: nat)
    requires start < n
    ensures r < n
  {
    (k + start) % n
  }

  lemma ModOnce(x: nat, n: nat)
    requires 0 < n <= x < 2 * n
    ensures x % n == x - n
  {
  }

  lemma SlotReaches(n: nat, start: nat, i: nat) returns (m: nat)
    requires start < n && i < n
    ensures m < n && Slot(n, start, m) == i
  {
    if i >= start {
      m := i - start;
      assert m + start == i;
    } else {
      m := i + n - start;
      ModOnce(m + start, n);
    }
  }

  /** The pending "\r" of a line that may still be completed by "\n". */
  predicate OpenCarriageReturn(s: string) {
    |s| >= 1 && s[|s| - 1] == '\r' && NoLineBreak(s[..|s| - 1])
  }

  /** Shape while Append is under way: the last line may end with a '\r'
      whose '\n' is the next character to append. */
  predicate PartialShape(lines: seq<TextLine>, pending: bool) {
    |lines| >= 1 && AllTerminated(lines[..|lines| - 1])
    && (NoLineBreak(lines[|lines| - 1].content) || (pending && OpenCarriageReturn(lines[|lines| - 1].content)))
  }

  /** AppendCore as a value: one character at the end of the last line. */
  function AppendChar(lines: seq<TextLine>, c: char): seq<TextLine>
    requires |lines| >= 1
  {
    lines[..|lines| - 1] + [lines[|lines| - 1].(content := lines[|lines| - 1].content + [c])]
  }

  /** PushNewLine as a value. */
  function PushLine(lines: seq<TextLine>): seq<TextLine>
    requires |lines| >= 1
  {
    lines + [TextLine(lines[|lines| - 1].End(), lines[|lines| - 1].index + 1, [])]
  }

  /** One iteration of Append, as a value. */
  function AppendStep(lines: seq<TextLine>, content: string, i: nat): seq<TextLine>
    requires |lines| >= 1 && i < |content|
  {
    if LocationTracking.BreaksAt(content, i) then PushLine(AppendChar(lines, content[i]))
    else AppendChar(lines, content[i])
  }

  /** While Append runs, a '\r' may stay open only until its '\n' arrives. */
  predicate PendingAt(content: string, i: nat) {
    i < |content| && content[i] == '\n' && i > 0 && content[i - 1] == '\r'
  }

  lemma AppendStepKeeps(lines: seq<TextLine>, content: string, i: nat, n0: nat)
    requires Contiguous(lines) && i < |content| && 1 <= n0 <= |lines|
    requires PartialShape(lines, PendingAt(content, i))
    requires |lines| == n0 + LocationTracking.BreakCount(content, i)
    ensures Contiguous(AppendStep(lines, content, i))
    ensures PartialShape(AppendStep(lines, content, i), PendingAt(content, i + 1))
    ensures Concat(AppendStep(lines, content, i)) == Concat(lines) + [content[i]]
    ensures |AppendStep(lines, content, i)| == n0 + LocationTracking.BreakCount(content, i + 1)
    ensures AppendStep(lines, content, i)[..n0 - 1] == lines[..n0 - 1]
  {
    var c := content[i];
    var a := AppendChar(lines, c);
    AppendCharFacts(lines, c);
    var crBeforeLf := c == '\r' && i + 1 < |content| && content[i + 1] == '\n';
    var breaks := LocationTracking.BreaksAt(content, i);
    AppendStepShape(lines, PendingAt(content, i), c, breaks, crBeforeLf);
    if breaks {
      PushLineFacts(a);
      assert PushLine(a)[..n0 - 1] == a[..n0 - 1];
    }
    assert a[..n0 - 1] == lines[..n0 - 1];
  }

  lemma AppendCharFacts(lines: seq<TextLine>, c: char)
    requires Contiguous(lines)
    ensures Contiguous(AppendChar(lines, c)) && |AppendChar(lines, c)| == |lines|
    ensures AppendChar(lines, c)[..|lines| - 1] == lines[..|lines| - 1]
    ensures Concat(AppendChar(lines, c)) == Concat(lines) + [c]
  {
    var r := AppendChar(lines, c);
    assert r[..|r| - 1] == lines[..|lines| - 1];
  }

  lemma PushLineFacts(lines: seq<TextLine>)
    requires Contiguous(lines)
    ensures Contiguous(PushLine(lines))
    ensures Concat(PushLine(lines)) == Concat(lines)
  {
    var r := PushLine(lines);
    assert r[..|r| - 1] == lines;
  }

  /** One step of Append keeps the line shape: a terminator (or the second
      half of "\r\n") closes the line, and only a '\r' followed by '\n'
      stays open. */
  lemma AppendStepShape(lines: seq<TextLine>, pending: bool, c: char, breaks: bool, crBeforeLf: bool)
    requires PartialShape(lines, pending)
    requires pending ==> c == '\n'
    requires breaks == (Chars.IsNewLine(c) && !(c == '\r' && crBeforeLf))
    ensures breaks ==> PartialShape(PushLine(AppendChar(lines, c)), false)
    ensures !breaks ==> PartialShape(AppendChar(lines, c), c == '\r')
  {
    var last := lines[|lines| - 1].content;
    var nl := last + [c];
    assert nl[..|nl| - 1] == last;
    if pending && !NoLineBreak(last) {
      assert nl[..|nl| - 2] == last[..|last| - 1];
      assert Terminated(nl);
    }
    var a := AppendChar(lines, c);
    assert a[|a| - 1].content == nl;
    assert a[..|a| - 1] == lines[..|lines| - 1];
    if breaks {
      var b := PushLine(a);
      assert b[|b| - 1].content == [];
      assert b[..|b| - 1] == a;
    }
  }

  lemma {:induction false} ConcatLength(lines: seq<TextLine>)
    requires Contiguous(lines)
    ensures |Concat(lines)| == lines[|lines| - 1].End()
    decreases |lines|
  {
    if |lines| > 1 {
      var p := lines[..|lines| - 1];
      assert Contiguous(p);
      ConcatLength(p);
    }
  }

  /** A character of the text is the character at the same offset of the
      line that contains it. */
  lemma {:induction false} ConcatAt(lines: seq<TextLine>, i: nat, abs: int)
    requires Contiguous(lines) && i < |lines| && lines[i].Contains(abs)
    ensures 0 <= abs < |Concat(lines)|
    ensures Concat(lines)[abs] == lines[i].content[abs - lines[i].start]
    decreases |lines|
  {
    var p := lines[..|lines| - 1];
    ConcatLength(lines);
    if |lines| > 1 {
      assert Contiguous(p);
      ConcatLength(p);
      if i < |lines| - 1 {
        ConcatAt(p, i, abs);
      }
    }
  }

  /** Contiguous lines have disjoint ranges, so at most one contains an offset. */
  lemma ContainingLineUnique(lines: seq<TextLine>, i: nat, j: nat, abs: int)
    requires Contiguous(lines) && i < |lines| && j < |lines|
    requires lines[i].Contains(abs) && lines[j].Contains(abs)
    ensures i == j
  {
    if i < j { StartsGrow(lines, i + 1, j); }
    if j < i { StartsGrow(lines, j + 1, i); }
  }

  lemma {:induction false} StartsGrow(lines: seq<TextLine>, i: nat, j: nat)
    requires Contiguous(lines) && 0 < i <= j < |lines|
    ensures lines[j].start >= lines[i - 1].End()
    decreases j - i
  {
    if i < j {
      StartsGrow(lines, i + 1, j);
    }
  }

  /** Every offset of the text lies in some line. */
  lemma {:induction false} SomeLineContains(lines: seq<TextLine>, abs: int)
    requires Contiguous(lines) && 0 <= abs < lines[|lines| - 1].End()
    ensures exists i :: 0 <= i < |lines| && lines[i].Contains(abs)
    decreases |lines|
  {
    var n := |lines|;
    if !lines[n - 1].Contains(abs) {
      var p := lines[..n - 1];
      assert Contiguous(p);
      SomeLineContains(p, abs);
      var i :| 0 <= i < |p| && p[i].Contains(abs);
      assert lines[i].Contains(abs);
    }
  }

  lemma {:induction false} ScanSound(lines: seq<TextLine>, absolute: int, start: nat, k: nat)
    requires start < |lines|
    ensures Scan(lines, absolute, start, k).Some? ==>
      Scan(lines, absolute, start, k).value < |lines| && lines[Scan(lines, absolute, start, k).value].Contains(absolute)
    ensures Scan(lines, absolute, start, k).None? ==>
      forall m :: k <= m < |lines| ==> !lines[Slot(|lines|, start, m)].Contains(absolute)
    decreases |lines| - k
  {
    if k < |lines| && !lines[Slot(|lines|, start, k)].Contains(absolute) {
      ScanSound(lines, absolute, start, k + 1);
    }
  }

  /** From any starting line the circular scan finds the one line that
      contains the offset, or nothing if no line does. */
  lemma ScanFindsContainingLine(lines: seq<TextLine>, absolute: int, start: nat)
    requires Contiguous(lines) && start < |lines|
    ensures Scan(lines, absolute, start, 0).Some? <==> (exists i :: 0 <= i < |lines| && lines[i].Contains(absolute))
    ensures forall i :: 0 <= i < |lines| && lines[i].Contains(absolute) ==> Scan(lines, absolute, start, 0) == Some(i)
  {
    ScanSound(lines, absolute, start, 0);
    var n := |lines|;
    forall i | 0 <= i < n && lines[i].Contains(absolute)
      ensures Scan(lines, absolute, start, 0) == Some(i)
    {
      var m := SlotReaches(n, start, i);
      if Scan(lines, absolute, start, 0).Some? {
        ContainingLineUnique(lines, Scan(lines, absolute, start, 0).value, i, absolute);
      }
    }
  }

  /** FindLine gives the same answer whatever line is cached. */
  lemma ScanStartIrrelevant(lines: seq<TextLine>, absolute: int, start: nat)
    requires Contiguous(lines) && start < |lines|
    ensures Scan(lines, absolute, start, 0) == Scan(lines, absolute, 0, 0)
  {
    ScanFindsContainingLine(lines, absolute, start);
    ScanFindsContainingLine(lines, absolute, 0);
  }

  /** The first line from k on that contains an offset. */
  function LineFrom(lines: seq<TextLine>, pos: int, k: nat): (r: Option<nat>)
    requires k <= |lines|
    ensures r.Some? ==> k <= r.value < |lines| && lines[r.value].Contains(pos)
    decreases |lines| - k
  {
    if k == |lines| then None
    else if lines[k].Contains(pos) then Some(k)
    else LineFrom(lines, pos, k + 1)
  }

  /** Over contiguous lines, the search finds the one line that contains the offset. */
  lemma {:induction false} LineFromFinds(lines: seq<TextLine>, pos: int, k: nat, i: nat)
    requires Contiguous(lines) && k <= i < |lines| && lines[i].Contains(pos)
    ensures LineFrom(lines, pos, k) == Some(i)
    decreases i - k
  {
    if lines[k].Contains(pos) {
      ContainingLineUnique(lines, k, i, pos);
    } else {
      LineFromFinds(lines, pos, k + 1, i);
    }
  }

  /** The location a reader publishes for an offset of the text: that of the
      character there (the line that contains it, as the scan of FindLine
      finds it from any starting line, and the column within it), or past
      the end of the text, which is Zero for an empty text. */
  function LocationIn(lines: seq<TextLine>, pos: int): (loc: SourceLocation)
    requires Contiguous(lines)
  {
    var last := lines[|lines| - 1];
    if 0 <= pos < last.End() then
      match LineFrom(lines, pos, 0)
      case Some(k) => SourceLocation(pos, k, pos - lines[k].start)
      case None => Undefined
    else if last.End() == 0 then Zero
    else SourceLocation(last.End(), |lines| - 1, |last.content|)
  }

  /** Within the text and just past it, the offset of the published location
      is the position itself. */
  lemma LocationInAbsolute(lines: seq<TextLine>, pos: int)
    requires Contiguous(lines) && 0 <= pos <= |Concat(lines)|
    ensures LocationIn(lines, pos).absolute == pos
  {
    ConcatLength(lines);
    if pos < |Concat(lines)| {
      SomeLineContains(lines, pos);
      var i :| 0 <= i < |lines| && lines[i].Contains(pos);
      LineFromFinds(lines, pos, 0, i);
    }
  }

  /** The published location of an offset inside line k is k and the
      column within it. */
  lemma LocationInLine(lines: seq<TextLine>, pos: int, k: nat)
    requires Contiguous(lines) && k < |lines| && lines[k].Contains(pos)
    ensures LocationIn(lines, pos) == SourceLocation(pos, k, pos - lines[k].start)
  {
    ConcatAt(lines, k, pos);
    ConcatLength(lines);
    LineFromFinds(lines, pos, 0, k);
  }

  class LineTrackingStringBuffer {
    /** _lines; the last entry is _endLine. */
    var lines: seq<TextLine>
    /** _currentLine, as an index into lines (lines are never removed). */
    var currentLine: Option<nat>

    ghost predicate Valid()
      reads this
    {
      Contiguous(lines) && WellShaped(lines)
      && (currentLine.Some? ==> currentLine.value < |lines|)
    }

    /** The whole text held by the buffer. */
    ghost function Text(): string
      reads this`lines
    {
      Concat(lines)
    }

    constructor ()
      ensures Valid() && Text() == [] && lines == [TextLine(0, 0, [])] && currentLine == None
    {
      lines := [TextLine(0, 0, [])];
      currentLine := None;
    }

    /** Length: the end of the last line, which is the length of the text. */
    function Length(): (n: int)
      reads this
      requires Valid()
      ensures n == |Text()|
    {
      ConcatLength(lines);
      lines[|lines| - 1].End()
    }

    /** EndLocation: the offset past the text, the index of the last line and
        the column past its last character. */
    function EndLocation(): (loc: SourceLocation)
      reads this
      requires Valid()
      ensures loc.absolute == |Text()| && loc.line == |lines| - 1
      ensures loc.character == |Text()| - lines[|lines| - 1].start
    {
      SourceLocation(Length(), |lines| - 1, |lines[|lines| - 1].content|)
    }

    /** Append: the characters go to the end of the last line; a new line is
        opened after every line terminator, where "\r\n" counts once. */
    method Append(content: string)
      requires Valid()
      modifies this
      ensures Valid() && currentLine == old(currentLine)
      ensures Text() == old(Text()) + content
      ensures |lines| == old(|lines|) + LocationTracking.BreakCount(content, |content|)
      ensures lines[..old(|lines|) - 1] == old(lines[..|lines| - 1])
    {
      ghost var n0 := |lines|;
      var i := 0;
      while i < |content|
        invariant 0 <= i <= |content|
        invariant Contiguous(lines) && currentLine == old(currentLine)
        invariant currentLine.Some? ==> currentLine.value < |lines|
        invariant PartialShape(lines, PendingAt(content, i))
        invariant Concat(lines) == old(Concat(lines)) + content[..i]
        invariant |lines| == n0 + LocationTracking.BreakCount(content, i)
        invariant lines[..n0 - 1] == old(lines[..|lines| - 1])
      {
        ghost var text := Concat(lines);
        AppendAt(content, i, n0);
        assert Concat(lines) == text + [content[i]];
        assert content[..i + 1] == content[..i] + [content[i]];
        i := i + 1;
      }
      assert content[..i] == content;
      assert !PendingAt(content, i);
    }

    /** The body of Append's loop: character i, then a new line if it ends one. */
    method AppendAt(content: string, i: nat, ghost n0: nat)
      requires Contiguous(lines) && i < |content| && 1 <= n0 <= |lines|
      requires PartialShape(lines, PendingAt(content, i))
      requires |lines| == n0 + LocationTracking.BreakCount(content, i)
      modifies this`lines
      ensures lines == AppendStep(old(lines), content, i)
      ensures Contiguous(lines) && PartialShape(lines, PendingAt(content, i + 1))
      ensures Concat(lines) == old(Concat(lines)) + [content[i]]
      ensures |lines| == n0 + LocationTracking.BreakCount(content, i + 1)
      ensures lines[..n0 - 1] == old(lines[..n0 - 1])
    {
      AppendStepKeeps(lines, content, i, n0);
      AppendCore(content[i]);
      if (content[i] == '\r' && (i + 1 == |content| || content[i + 1] != '\n'))
         || (content[i] != '\r' && Chars.IsNewLine(content[i])) {
        PushNewLine();
      }
    }

    /** AppendCore: one character at the end of the last line. */
    method AppendCore(c: char)
      requires Contiguous(lines)
      modifies this`lines
      ensures lines == AppendChar(old(lines), c)
      ensures Contiguous(lines) && |lines| == old(|lines|)
      ensures lines[..|lines| - 1] == old(lines[..|lines| - 1])
      ensures Concat(lines) == old(Concat(lines)) + [c]
    {
      AppendCharFacts(lines, c);
      var last := lines[|lines| - 1];
      lines := lines[..|lines| - 1] + [last.(content := last.content + [c])];
    }

    /** PushNewLine: an empty line starting where the last one ends, with the
        next index. */
    method PushNewLine()
      requires Contiguous(lines)
      modifies this`lines
      ensures lines == PushLine(old(lines))
      ensures Contiguous(lines) && Concat(lines) == old(Concat(lines))
    {
      PushLineFacts(lines);
      var last := lines[|lines| - 1];
      lines := lines + [TextLine(last.End(), last.index + 1, [])];
    }

    /** ScanLines: the circular scan from line start. */
    method ScanLines(absolute: int, start: nat) returns (r: Option<nat>)
      requires Valid() && start < |lines|
      ensures r == Scan(lines, absolute, start, 0)
    {
      var i := 0;
      while i < |lines|
        invariant 0 <= i <= |lines|
        invariant Scan(lines, absolute, start, 0) == Scan(lines, absolute, start, i)
      {
        var idx := (i + start) % |lines|;
        if lines[idx].Contains(absolute) {
          return Some(idx);
        }
        i := i + 1;
      }
      return None;
    }

    /** FindLine: the cached line if it contains the offset, else a scan from
        the cached line (when the offset exceeds its index), else a scan from
        the first line; the answer is cached. */
    method FindLine(absolute: int) returns (r: Option<nat>)
      requires Valid()
      modifies this`currentLine
      ensures Valid() && currentLine == r
      ensures r == Scan(lines, absolute, 0, 0)
      ensures r.Some? <==> 0 <= absolute < |Text()|
      ensures r.Some? ==> r.value < |lines| && lines[r.value].Contains(absolute)
    {
      var selected := SelectLine(absolute);
      currentLine := selected;
      r := selected;
      ScanFindsContainingLine(lines, absolute, 0);
      ConcatLength(lines);
      if 0 <= absolute < |Text()| {
        SomeLineContains(lines, absolute);
      }
      ScanSound(lines, absolute, 0, 0);
      if r.Some? {
        ConcatAt(lines, r.value, absolute);
      }
    }

    /** The line FindLine selects: the cached one, or a scan from it or from
        the first line; whichever way, the line a scan from the first finds. */
    method SelectLine(absolute: int) returns (selected: Option<nat>)
      requires Valid()
      ensures selected == Scan(lines, absolute, 0, 0)
    {
      ScanFindsContainingLine(lines, absolute, 0);
      selected := None;
      if currentLine.Some? {
        var cur := lines[currentLine.value];
        if cur.Contains(absolute) {
          selected := currentLine;
        } else if absolute > cur.index && cur.index + 1 < |lines| {
          selected := ScanLines(absolute, cur.index);
          ScanStartIrrelevant(lines, absolute, cur.index);
        }
      }
      if selected.None? {
        selected := ScanLines(absolute, 0);
      }
    }

    /** CharAt: the character at an offset and its location (offset, line
        index, column within the line); an offset outside the text throws. */
    method CharAt(absolute: int) returns (r: Result<CharacterReference>)
      requires Valid()
      modifies this`currentLine
      ensures Valid()
      ensures r.Err? <==> !(0 <= absolute < |Text()|)
      ensures r.Err? ==> r.fault == ArgumentOutOfRange("absolute")
      ensures r.Ok? ==> r.value.character == Text()[absolute]
      ensures r.Ok? ==> r.value.location.absolute == absolute
      ensures r.Ok? ==> (0 <= r.value.location.line < |lines|
                          && lines[r.value.location.line].Contains(absolute)
                          && r.value.location.character == absolute - lines[r.value.location.line].start)
    {
      var line := FindLine(absolute);
      if line.None? {
        return Err(ArgumentOutOfRange("absolute"));
      }
      var l := lines[line.value];
      var idx := absolute - l.start;
      ConcatAt(lines, line.value, absolute);
      r := Ok(CharacterReference(l.content[idx], SourceLocation(absolute, l.index, idx)));
    }
  }
}
