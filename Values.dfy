// The values a template is rendered against: the .NET objects the renderer,
// the data evaluator and the operators inspect, reduced to the cases they
// distinguish (null, booleans, 32-bit integers, characters, strings, encoded
// strings, arrays, other collections, string-keyed dictionaries, objects
// with public properties, and the TemplateData wrapper), with object.ToString,
// object.Equals and Convert.ChangeType on them.
module Values {
  import opened Wrappers
  import Chars

  /** A template value. Reference types carry an identity: object.Equals on
      them is reference equality. A dictionary lists its entries in the order
      its keys enumerate; an object lists its public properties. */
  datatype Value =
    | Null
    | Bool(b: bool)
    | Int(i: int)
    | Char(c: char)
    | Str(s: string)
    | Safe(text: string)
    | Array(id: nat, items: seq<Value>)
    | List(id: nat, items: seq<Value>)
    | Dict(id: nat, entries: seq<(string, Value)>)
    | Object(id: nat, typeName: string, properties: seq<(string, Value)>)
    | Data(model: Value)

  /** TemplateData: the model a render context resolves paths against. */
  datatype TemplateData = TemplateData(model: Value)

  const Int32Min := -0x8000_0000
  const Int32Max := 0x7fff_ffff

  /** A reference type (an object that is not a boxed value or a string). */
  predicate IsReference(v: Value)
  {
    v.Safe? || v.Array? || v.List? || v.Dict? || v.Object? || v.Data?
  }

  /** The value of the first entry named key, looked up ordinally. */
  function Lookup(entries: seq<(string, Value)>, key: string): (r: Option<Value>)
    ensures r.None? <==> forall i :: 0 <= i < |entries| ==> entries[i].0 != key
    ensures r.Some? ==> (key, r.value) in entries
  {
    if entries == [] then None
    else if entries[0].0 == key then Some(entries[0].1)
    else
      assert forall i :: 1 <= i < |entries| ==> entries[i] == entries[1..][i - 1];
      Lookup(entries[1..], key)
  }

  /** The decimal digits of n. */
  function Digits(n: nat): (r: string)
    ensures |r| >= 1
    ensures forall i :: 0 <= i < |r| ==> '0' <= r[i] <= '9'
    decreases n
  {
    if n < 10 then [(('0' as int) + n) as char]
    else Digits(n / 10) + [(('0' as int) + n % 10) as char]
  }

  /** Int32.ToString: an optional minus sign, then the decimal digits. */
  function IntText(i: int): string
  {
    if i < 0 then "-" + Digits(-i) else Digits(i)
  }

  /** object.ToString for a non-null value: strings and boxed values print
      their value, everything else its runtime type name (a SafeString does
      not override ToString). */
  function ToText(v: Value): string
  {
    match v
    case Null => ""
    case Bool(b) => if b then "True" else "False"
    case Int(i) => IntText(i)
    case Char(c) => [c]
    case Str(s) => s
    case Safe(_) => "FuManchu.SafeString"
    case Array(_, _) => "System.Object[]"
    case List(_, _) => "System.Collections.Generic.List`1[System.Object]"
    case Dict(_, _) => "System.Collections.Generic.Dictionary`2[System.String,System.Object]"
    case Object(_, t, _) => t
    case Data(_) => "FuManchu.Binding.TemplateData"
  }

  /** object.Equals(x, y): two nulls are equal; boxed values are equal when
      of the same type and value, strings ordinally, and other objects only
      when they are the same object. */
  predicate Equal(x: Value, y: Value)
  {
    match (x, y)
    case (Null, Null) => true
    case (Bool(a), Bool(b)) => a == b
    case (Int(a), Int(b)) => a == b
    case (Char(a), Char(b)) => a == b
    case (Str(a), Str(b)) => a == b
    case (Safe(_), _) => false
    case (Array(a, _), Array(b, _)) => a == b
    case (List(a, _), List(b, _)) => a == b
    case (Dict(a, _), Dict(b, _)) => a == b
    case (Object(a, _, _), Object(b, _, _)) => a == b
    case _ => false
  }

  /** Two values of the same runtime type (GetType() == GetType()). */
  predicate SameType(x: Value, y: Value)
  {
    match (x, y)
    case (Bool(_), Bool(_)) => true
    case (Int(_), Int(_)) => true
    case (Char(_), Char(_)) => true
    case (Str(_), Str(_)) => true
    case (Safe(_), Safe(_)) => true
    case (Array(_, _), Array(_, _)) => true
    case (List(_, _), List(_, _)) => true
    case (Dict(_, _), Dict(_, _)) => true
    case (Object(_, a, _), Object(_, b, _)) => a == b
    case (Data(_), Data(_)) => true
    case _ => false
  }

  /** Char.IsWhiteSpace: what String.Trim removes. */
  predicate IsSpace(c: char)
  {
    Chars.IsWhiteSpace(c) || Chars.IsNewLine(c)
  }

  /** String.Trim. */
  function Trim(s: string): (r: string)
    ensures |r| <= |s|
    ensures r != [] ==> !IsSpace(r[0]) && !IsSpace(r[|r| - 1])
    decreases |s|
  {
    if s == [] then s
    else if IsSpace(s[0]) then Trim(s[1..])
    else if IsSpace(s[|s| - 1]) then Trim(s[..|s| - 1])
    else s
  }

  /** The number of white-space characters s starts with. */
  function LeadingSpaces(s: string): (n: nat)
    ensures n <= |s|
    decreases |s|
  {
    if s == [] || !IsSpace(s[0]) then 0 else 1 + LeadingSpaces(s[1..])
  }

  /** String.Trim removes white space from both ends and nothing else: the
      result is the infix of s that starts after its leading white space,
      and only white space precedes and follows it. With Trim's own ensures
      (no white space at either end of the result) this pins the result
      down. */
  lemma {:induction false} TrimIsInfix(s: string)
    ensures LeadingSpaces(s) + |Trim(s)| <= |s|
    ensures Trim(s) == s[LeadingSpaces(s)..LeadingSpaces(s) + |Trim(s)|]
    ensures forall i :: 0 <= i < LeadingSpaces(s) ==> IsSpace(s[i])
    ensures forall i :: LeadingSpaces(s) + |Trim(s)| <= i < |s| ==> IsSpace(s[i])
    decreases |s|, 1
  {
    if s == [] {
    } else if IsSpace(s[0]) {
      TrimFrontInfix(s);
    } else if IsSpace(s[|s| - 1]) {
      TrimBackInfix(s);
    } else {
      assert LeadingSpaces(s) == 0 && Trim(s) == s;
    }
  }

  /** TrimIsInfix for a text that starts with white space. */
  lemma {:induction false} TrimFrontInfix(s: string)
    requires s != [] && IsSpace(s[0])
    ensures LeadingSpaces(s) + |Trim(s)| <= |s|
    ensures Trim(s) == s[LeadingSpaces(s)..LeadingSpaces(s) + |Trim(s)|]
    ensures forall i :: 0 <= i < LeadingSpaces(s) ==> IsSpace(s[i])
    ensures forall i :: LeadingSpaces(s) + |Trim(s)| <= i < |s| ==> IsSpace(s[i])
    decreases |s|, 0
  {
    var t := s[1..];
    TrimIsInfix(t);
    var a, m := LeadingSpaces(t), |Trim(t)|;
    assert LeadingSpaces(s) == a + 1 && Trim(s) == Trim(t);
    DropFirstSlice(s, a, m);
    forall i | 0 <= i < |s| && !(1 <= i < a + 1 + m)
      ensures IsSpace(s[i])
    {
      if i > 0 {
        assert s[i] == t[i - 1];
      }
    }
  }

  /** TrimIsInfix for a text that ends, but does not start, with white
      space. */
  lemma {:induction false} TrimBackInfix(s: string)
    requires s != [] && !IsSpace(s[0]) && IsSpace(s[|s| - 1])
    ensures LeadingSpaces(s) == 0 && |Trim(s)| <= |s|
    ensures Trim(s) == s[..|Trim(s)|]
    ensures forall i :: |Trim(s)| <= i < |s| ==> IsSpace(s[i])
    decreases |s|, 0
  {
    var t := s[..|s| - 1];
    TrimIsInfix(t);
    assert |s| >= 2 && t[0] == s[0];
    assert LeadingSpaces(s) == 0 && LeadingSpaces(t) == 0 && Trim(s) == Trim(t);
    var m := |Trim(t)|;
    DropLastSlice(s, m);
    forall i | m <= i < |s|
      ensures IsSpace(s[i])
    {
      if i < |s| - 1 {
        assert s[i] == t[i];
      }
    }
  }

  /** A slice of s[1..] is the slice of s one place further on. */
  lemma DropFirstSlice(s: string, a: nat, m: nat)
    requires 1 + a + m <= |s|
    ensures s[1..][a..a + m] == s[a + 1..a + 1 + m]
  {
  }

  /** A prefix of s[..|s| - 1] is the same prefix of s. */
  lemma DropLastSlice(s: string, m: nat)
    requires m < |s|
    ensures s[..|s| - 1][0..m] == s[0..m]
  {
  }

  predicate AllDigits(s: string)
  {
    forall i :: 0 <= i < |s| ==> '0' <= s[i] <= '9'
  }

  /** The value of a run of decimal digits. */
  function DigitsValue(s: string): nat
    requires AllDigits(s)
    decreases |s|
  {
    if s == [] then 0 else 10 * DigitsValue(s[..|s| - 1]) + (s[|s| - 1] as int - '0' as int)
  }

  /** The white space NumberStyles.Integer allows around a number: the
      characters U+0009 to U+000D and the space, a narrower set than IsSpace. */
  predicate IsNumberSpace(c: char)
  {
    '\t' <= c <= '\r' || c == ' '
  }

  /** The white space Int32.Parse skips before and after the number. */
  function TrimNumber(s: string): (r: string)
    ensures |r| <= |s|
    ensures r != [] ==> !IsNumberSpace(r[0]) && !IsNumberSpace(r[|r| - 1])
    decreases |s|
  {
    if s == [] then s
    else if IsNumberSpace(s[0]) then TrimNumber(s[1..])
    else if IsNumberSpace(s[|s| - 1]) then TrimNumber(s[..|s| - 1])
    else s
  }

  /** Int32.Parse in the invariant culture with NumberStyles.Integer: leading
      and trailing number white space, an optional sign, at least one digit,
      and within the 32-bit range. */
  function ParseInt(s: string): Option<int>
  {
    var t := TrimNumber(s);
    var negative := t != [] && t[0] == '-';
    var body := if t != [] && (t[0] == '-' || t[0] == '+') then t[1..] else t;
    if body == [] || !AllDigits(body) then None
    else
      var m: int := DigitsValue(body);
      var n := if negative then 0 - m else m;
      if Int32Min <= n <= Int32Max then Some(n) else None
  }

  /** Int32.Parse skips tabs and spaces around the sign and digits, but not
      the no-break space U+00A0, which String.Trim does remove. */
  lemma ParseIntSpaces()
    ensures ParseInt("\t-12 ") == Some(-12)
    ensures ParseInt("\U{A0}1") == None && Trim("\U{A0}1") == "1"
  {
    assert TrimNumber("\t-12 ") == "-12" by {
      assert "\t-12 "[1..] == "-12 ";
      assert "-12 "[..3] == "-12";
    }
    assert DigitsValue("12") == 12 by {
      assert "12"[..1] == "1";
      assert "1"[..0] == "";
    }
    assert "-12"[1..] == "12" && AllDigits("12");
    assert TrimNumber("\U{A0}1") == "\U{A0}1";
    assert !('0' <= "\U{A0}1"[0] <= '9');
    assert "\U{A0}1"[1..] == "1";
    assert IsSpace("\U{A0}1"[0]) && !IsSpace("1"[0]);
  }

  predicate SameIgnoringCase(a: string, b: string)
  {
    |a| == |b| && forall i :: 0 <= i < |a| ==> Chars.ToUpper(a[i]) == Chars.ToUpper(b[i])
  }

  /** Convert.ChangeType(y, x.GetType()) for non-null x and y, or None where
      it throws. A value of the target type is returned as it is; strings,
      booleans, integers and characters convert between each other as the
      IConvertible implementations do; any other conversion throws. */
  function ChangeType(y: Value, x: Value): (r: Option<Value>)
    requires !x.Null? && !y.Null?
    ensures SameType(x, y) ==> r == Some(y)
    ensures r.Some? ==> SameType(r.value, x) || (x.Object? && r.value == y)
  {
    if SameType(x, y) then Some(y)
    else
      match x
      case Str(_) =>
        if y.Bool? || y.Int? || y.Char? then Some(Str(ToText(y))) else None
      case Bool(_) =>
        if y.Str? then
          (if SameIgnoringCase(Trim(y.s), "True") then Some(Bool(true))
           else if SameIgnoringCase(Trim(y.s), "False") then Some(Bool(false))
           else None)
        else if y.Int? then Some(Bool(y.i != 0))
        else None
      case Int(_) =>
        if y.Str? then (var n := ParseInt(y.s); if n.Some? then Some(Int(n.value)) else None)
        else if y.Bool? then Some(Int(if y.b then 1 else 0))
        else if y.Char? then Some(Int(y.c as int))
        else None
      case Char(_) =>
        if y.Str? && |y.s| == 1 then Some(Char(y.s[0]))
        else if y.Int? && 0 <= y.i < 0x1_0000 && !(0xD800 <= y.i < 0xE000) then Some(Char(y.i as char))
        else None
      case _ => None
  }

  /** The value is IEnumerable: a string, an array, a collection or a
      dictionary. */
  predicate IsEnumerable(v: Value)
  {
    v.Str? || v.Array? || v.List? || v.Dict?
  }

  /** The items a foreach over a string, array or collection enumerates: the
      characters of a string, the elements of the others. A dictionary
      enumerates key/value pairs, which its callers handle apart. */
  function Elements(v: Value): (r: seq<Value>)
    requires v.Str? || v.Array? || v.List?
    ensures v.Str? ==> |r| == |v.s| && forall i :: 0 <= i < |r| ==> r[i] == Char(v.s[i])
    ensures !v.Str? ==> r == v.items
  {
    match v
    case Str(s) => seq(|s|, i requires 0 <= i < |s| => Char(s[i]))
    case Array(_, items) => items
    case List(_, items) => items
  }
}
