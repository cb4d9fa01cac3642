// SeekableTextReader (src/FuManchu/Text/SeekableTextReader.cs): a reader
// over a line buffer whose position can be moved back and forth.
module TextReaders {
  import opened Wrappers
  import opened SourceLocations
  import opened LineBuffers

  class SeekableTextReader {
    var position: int
    const buffer: LineTrackingStringBuffer
    var location: SourceLocation
    var current: Option<char>
    /** The text of the buffer; the reader never appends to it after construction. */
    ghost const text: string

    ghost predicate Valid()
      reads this, buffer
    {
      buffer.Valid() && buffer.Text() == text && 0 <= position
      && current == (if position < |text| then Some(text[position]) else None)
      && location == LocationIn(buffer.lines, position)
    }

    constructor (content: string)
      ensures Valid() && fresh(buffer) && text == content && position == 0
    {
      buffer := new LineTrackingStringBuffer();
      text := content;
      position := 0;
      location := Zero;
      current := None;
      new;
      buffer.Append(content);
      var _ := UpdateState();
    }

    function Length(): (n: int)
      reads this, buffer
      requires Valid()
      ensures n == |text|
    {
      buffer.Length()
    }

    /** Peek: the character at the position, or -1 past the end. */
    function Peek(): (c: int)
      reads this, buffer
      requires Valid()
      ensures c == -1 <==> position >= |text|
      ensures c != -1 ==> c == text[position] as int
    {
      if current.None? then -1 else current.value as int
    }

    /** Read: Peek, and one step forward unless at the end. */
    method Read() returns (c: int)
      requires Valid()
      modifies this, buffer`currentLine
      ensures Valid() && buffer.lines == old(buffer.lines)
      ensures c == old(Peek())
      ensures position == if old(position) < |text| then old(position) + 1 else old(position)
    {
      if current.None? {
        return -1;
      }
      c := current.value as int;
      position := position + 1;
      var _ := UpdateState();
    }

    /** The Position setter: a new value refreshes the current character and
        location; the current value changes nothing. A negative position
        makes the buffer throw, after the position was stored. */
    method SetPosition(value: int) returns (o: Outcome)
      requires Valid()
      modifies this, buffer`currentLine
      ensures buffer.lines == old(buffer.lines) && position == value
      ensures value == old(position) ==> o.Pass? && unchanged(this)
      ensures o.Fail? <==> value < 0
      ensures o.Fail? ==> o.fault == ArgumentOutOfRange("absolute")
      ensures o.Pass? ==> Valid()
    {
      if position != value {
        position := value;
        o := UpdateState();
      } else {
        o := Pass;
      }
    }

    /** UpdateState: refresh the current character and location from the buffer. */
    method UpdateState() returns (o: Outcome)
      requires buffer.Valid() && buffer.Text() == text
      modifies this`current, this`location, buffer`currentLine
      ensures buffer.Valid() && buffer.lines == old(buffer.lines)
      ensures o.Fail? <==> position < 0
      ensures o.Fail? ==> o.fault == ArgumentOutOfRange("absolute")
      ensures o.Pass? ==> Valid()
    {
      if position < buffer.Length() {
        var reference := buffer.CharAt(position);
        if reference.Err? {
          return Fail(reference.fault);
        }
        LocationInLine(buffer.lines, position, reference.value.location.line);
        current := Some(reference.value.character);
        location := reference.value.location;
      } else if buffer.Length() == 0 {
        current := None;
        location := Zero;
      } else {
        current := None;
        location := buffer.EndLocation();
      }
      o := Pass;
    }
  }
}
