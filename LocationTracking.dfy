// SourceLocationTracker (src/FuManchu/Text/SourceLocationTracker.cs): keeps a
// running location while text is consumed one character at a time.
module LocationTracking {
  import opened SourceLocations
  import Chars

  /** The effect of reading one character, given the character after it:
      a line terminator starts a new line, except a '\r' directly followed by
      '\n' (the pair counts once, at the '\n'). */
  function StepLocation(loc: SourceLocation, read: char, next: char): SourceLocation {
    if Chars.IsNewLine(read) && (read != '\r' || next != '\n') then
      SourceLocation(loc.absolute + 1, loc.line + 1, 0)
    else
      SourceLocation(loc.absolute + 1, loc.line, loc.character + 1)
  }

  /** The character UpdateLocation(string) pairs with position i: the following
      character, or '\0' after the last one. */
  function NextChar(content: string, i: nat): char
    requires i < |content|
  {
    if i + 1 < |content| then content[i + 1] else '\0'
  }

  /** The location after the first n characters of content are read from loc. */
  function AdvancePrefix(loc: SourceLocation, content: string, n: nat): SourceLocation
    requires n <= |content|
  {
    if n == 0 then loc else StepLocation(AdvancePrefix(loc, content, n - 1), content[n - 1], NextChar(content, n - 1))
  }

  /** The location after all of content is read from loc. */
  function Advance(loc: SourceLocation, content: string): SourceLocation {
    AdvancePrefix(loc, content, |content|)
  }

  /** Whether position i of content ends a line in the tracker's reckoning. */
  predicate BreaksAt(content: string, i: nat)
    requires i < |content|
  {
    Chars.IsNewLine(content[i]) && (content[i] != '\r' || NextChar(content, i) != '\n')
  }

  /** Number of line ends among the first n characters. */
  function BreakCount(content: string, n: nat): nat
    requires n <= |content|
  {
    if n == 0 then 0 else BreakCount(content, n - 1) + (if BreaksAt(content, n - 1) then 1 else 0)
  }

  /** The step as an addition of a unit location. */
  function UnitStep(read: char, next: char): SourceLocation {
    if Chars.IsNewLine(read) && (read != '\r' || next != '\n') then SourceLocation(1, 1, 0) else SourceLocation(1, 0, 1)
  }

  lemma StepIsAdd(loc: SourceLocation, read: char, next: char)
    ensures StepLocation(loc, read, next) == Add(loc, UnitStep(read, next))
  {
  }

  /** Every character read advances the offset by one; lines advance by the
      number of line ends and never go backwards. */
  lemma {:induction false} AdvancePrefixCounts(loc: SourceLocation, content: string, n: nat)
    requires n <= |content|
    ensures AdvancePrefix(loc, content, n).absolute == loc.absolute + n
    ensures AdvancePrefix(loc, content, n).line == loc.line + BreakCount(content, n)
  {
    if n > 0 {
      AdvancePrefixCounts(loc, content, n - 1);
    }
  }

  /** Reading content from any location is the same as adding the location
      reached by reading it from Zero: Add is the concatenation of moves. */
  lemma {:induction false} AdvancePrefixIsAdd(loc: SourceLocation, content: string, n: nat)
    requires n <= |content|
    ensures AdvancePrefix(loc, content, n) == Add(loc, AdvancePrefix(Zero, content, n))
    ensures AdvancePrefix(Zero, content, n).line >= 0
  {
    if n == 0 {
      AddZero(loc);
    } else {
      var r, nx := content[n - 1], NextChar(content, n - 1);
      var d := AdvancePrefix(Zero, content, n - 1);
      AdvancePrefixIsAdd(loc, content, n - 1);
      StepIsAdd(AdvancePrefix(loc, content, n - 1), r, nx);
      StepIsAdd(d, r, nx);
      AddAssociative(loc, d, UnitStep(r, nx));
    }
  }

  lemma AdvanceIsAdd(loc: SourceLocation, content: string)
    ensures Advance(loc, content) == Add(loc, Advance(Zero, content))
  {
    AdvancePrefixIsAdd(loc, content, |content|);
  }

  /** The worked example of SourceLocationTrackerFacts: "\n", a lone "\r" and
      "\r\n" each end one line. */
  lemma MultilineExample()
    ensures Advance(SourceLocation(10, 42, 45), "foo\nbar\rbaz\r\nbox") == SourceLocation(26, 45, 3)
  {
    MultilineFirstLines();
    MultilineLastLines();
  }

  /** The first two lines of the worked example: "foo\n" and "bar\r". */
  lemma MultilineFirstLines()
    ensures AdvancePrefix(SourceLocation(10, 42, 45), "foo\nbar\rbaz\r\nbox", 8) == SourceLocation(18, 44, 0)
  {
    var s := "foo\nbar\rbaz\r\nbox";
    var l := SourceLocation(10, 42, 45);
    assert AdvancePrefix(l, s, 1) == SourceLocation(11, 42, 46);
    assert AdvancePrefix(l, s, 2) == SourceLocation(12, 42, 47);
    assert AdvancePrefix(l, s, 3) == SourceLocation(13, 42, 48);
    assert AdvancePrefix(l, s, 4) == SourceLocation(14, 43, 0);
    assert AdvancePrefix(l, s, 5) == SourceLocation(15, 43, 1);
    assert AdvancePrefix(l, s, 6) == SourceLocation(16, 43, 2);
    assert AdvancePrefix(l, s, 7) == SourceLocation(17, 43, 3);
  }

  /** The rest of the worked example: "baz\r\n", where the pair ends one
      line, and "box". */
  lemma MultilineLastLines()
    requires AdvancePrefix(SourceLocation(10, 42, 45), "foo\nbar\rbaz\r\nbox", 8) == SourceLocation(18, 44, 0)
    ensures AdvancePrefix(SourceLocation(10, 42, 45), "foo\nbar\rbaz\r\nbox", 16) == SourceLocation(26, 45, 3)
  {
    var s := "foo\nbar\rbaz\r\nbox";
    var l := SourceLocation(10, 42, 45);
    assert AdvancePrefix(l, s, 9) == SourceLocation(19, 44, 1);
    assert AdvancePrefix(l, s, 10) == SourceLocation(20, 44, 2);
    assert AdvancePrefix(l, s, 11) == SourceLocation(21, 44, 3);
    assert AdvancePrefix(l, s, 12) == SourceLocation(22, 44, 4);
    assert AdvancePrefix(l, s, 13) == SourceLocation(23, 45, 0);
    assert AdvancePrefix(l, s, 14) == SourceLocation(24, 45, 1);
    assert AdvancePrefix(l, s, 15) == SourceLocation(25, 45, 2);
  }

  class SourceLocationTracker {
    var absolute: int
    var line: int
    var character: int
    var currentLocation: SourceLocation

    /** The counters always mirror the published location between calls. */
    ghost predicate Valid()
      reads this
    {
      currentLocation == SourceLocation(absolute, line, character)
    }

    constructor (start: SourceLocation)
      ensures Valid() && currentLocation == start
    {
      currentLocation := start;
      new;
      UpdateInternalState();
    }

    /** The CurrentLocation setter: a new value resynchronises the counters;
        setting the current value changes nothing. */
    method SetCurrentLocation(value: SourceLocation)
      requires Valid()
      modifies this
      ensures Valid() && currentLocation == value
      ensures value == old(currentLocation) ==> unchanged(this)
    {
      if currentLocation != value {
        currentLocation := value;
        UpdateInternalState();
      }
    }

    /** UpdateLocation(char, char). */
    method UpdateLocationChar(read: char, next: char)
      requires Valid()
      modifies this
      ensures Valid() && currentLocation == StepLocation(old(currentLocation), read, next)
    {
      UpdateCharacterCore(read, next);
      RecalculateSourceLocation();
    }

    /** UpdateLocation(string): the characters are stepped one at a time, each
        paired with its successor ('\0' after the last); the location is
        published once, at the end. */
    method UpdateLocation(content: string)
      requires Valid()
      modifies this
      ensures Valid() && currentLocation == Advance(old(currentLocation), content)
    {
      var i := 0;
      while i < |content|
        invariant 0 <= i <= |content|
        invariant currentLocation == old(currentLocation)
        invariant SourceLocation(absolute, line, character) == AdvancePrefix(old(currentLocation), content, i)
      {
        var next := '\0';
        if i < |content| - 1 {
          next := content[i + 1];
        }
        UpdateCharacterCore(content[i], next);
        i := i + 1;
      }
      RecalculateSourceLocation();
    }

    method UpdateCharacterCore(read: char, next: char)
      modifies this`absolute, this`line, this`character
      ensures SourceLocation(absolute, line, character)
              == StepLocation(old(SourceLocation(absolute, line, character)), read, next)
    {
      absolute := absolute + 1;
      if Chars.IsNewLine(read) && (read != '\r' || next != '\n') {
        line := line + 1;
        character := 0;
      } else {
        character := character + 1;
      }
    }

    method UpdateInternalState()
      modifies this`absolute, this`line, this`character
      ensures Valid()
    {
      absolute := currentLocation.absolute;
      line := currentLocation.line;
      character := currentLocation.character;
    }

    method RecalculateSourceLocation()
      modifies this`currentLocation
      ensures Valid()
    {
      currentLocation := SourceLocation(absolute, line, character);
    }
  }

  /** CalculateNewLocation: a fresh tracker started at lastPosition reads content. */
  method CalculateNewLocation(lastPosition: SourceLocation, content: string) returns (r: SourceLocation)
    ensures r == Advance(lastPosition, content)
    ensures r.absolute == lastPosition.absolute + |content|
  {
    var tracker := new SourceLocationTracker(lastPosition);
    tracker.UpdateLocation(content);
    r := tracker.currentLocation;
    AdvancePrefixCounts(lastPosition, content, |content|);
  }
}
