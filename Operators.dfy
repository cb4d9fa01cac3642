// The operators the "is" block applies to its arguments
// (src/FuManchu/Operators): loose and strict equality, their negations, and
// "in", with the name-keyed collection that holds them
// (src/FuManchu/Operators/OperatorsCollection.cs).
module Operators {
  import opened Wrappers
  import opened Values

  /** An operator: EqualityOperator, NegatedEqualityOperator (with the name it
      was registered under) or InOperator. */
  datatype Operator = Equality(strict: bool) | NegatedEquality(name: string, strict: bool) | In

  /** IOperator.Name. */
  function Name(op: Operator): string
  {
    match op
    case Equality(strict) => if strict then "===" else "=="
    case NegatedEquality(name, _) => name
    case In => "in"
  }

  /** new NegatedEqualityOperator(strict): named "!==" or "!=". */
  function Negated(strict: bool): Operator
  {
    NegatedEquality(if strict then "!==" else "!=", strict)
  }

  /** The operators of the standard provider this model covers, in the order
      the provider yields them. */
  const StandardOperators: seq<Operator> :=
    [Equality(false), Equality(true), Negated(false), NegatedEquality("not", false), Negated(true), In]

  /** IOperator.Result. */
  function Result(op: Operator, x: Value, y: Value): bool
  {
    match op
    case Equality(strict) => if strict then TestStrictEquality(x, y) else TestEquality(x, y)
    case NegatedEquality(_, strict) => !(if strict then TestStrictEquality(x, y) else TestEquality(x, y))
    case In => InResult(x, y)
  }

  /** EqualityOperator.TestEquality: y is converted to the type of x and the
      two compared with object.Equals; a conversion that throws gives false. */
  function TestEquality(x: Value, y: Value): bool
  {
    if x.Null? && y.Null? then true
    else if x.Null? || y.Null? then false
    else
      match ChangeType(y, x)
      case None => false
      case Some(converted) => Equal(x, converted)
  }

  /** EqualityOperator.TestStrictEquality: values of different runtime types
      are never equal; otherwise object.Equals decides. */
  function TestStrictEquality(x: Value, y: Value): bool
  {
    if x.Null? && y.Null? then true
    else if x.Null? || y.Null? then false
    else if !SameType(x, y) then false
    else Equal(x, y)
  }

  /** Two nulls are equal and a null is equal to nothing else, loosely and
      strictly. */
  lemma NullEquality(x: Value, y: Value, strict: bool)
    requires x.Null? || y.Null?
    ensures Result(Equality(strict), x, y) <==> x.Null? && y.Null?
  {
  }

  /** Strictly equal values are loosely equal: a value of x's own type needs
      no conversion. */
  lemma StrictImpliesLoose(x: Value, y: Value)
    ensures TestStrictEquality(x, y) ==> TestEquality(x, y)
  {
    if !x.Null? && !y.Null? && SameType(x, y) {
      assert ChangeType(y, x) == Some(y);
    }
  }

  /** Strict equality does not depend on the order of the operands. */
  lemma StrictSymmetric(x: Value, y: Value)
    ensures TestStrictEquality(x, y) == TestStrictEquality(y, x)
  {
  }

  /** Loose equality depends on the order of the operands: "01" converts to
      the integer 1, but 1 converts to the string "1", which is not "01". */
  lemma LooseAsymmetric()
    ensures TestEquality(Int(1), Str("01"))
    ensures !TestEquality(Str("01"), Int(1))
  {
    assert TrimNumber("01") == "01";
    assert DigitsValue("01") == 1 by {
      assert "01"[..1] == "0";
      assert "0"[..0] == "";
    }
    assert ParseInt("01") == Some(1);
    assert ToText(Int(1)) == "1" by {
      assert IntText(1) == Digits(1);
    }
  }

  /** A negated operator answers exactly the opposite of the equality
      operator of the same strictness. */
  lemma NegationIsExact(name: string, strict: bool, x: Value, y: Value)
    ensures Result(NegatedEquality(name, strict), x, y) == !Result(Equality(strict), x, y)
  {
  }

  /** The fields of s separated by ',', with cur the start of the first
      field: String.Split(',') without any option. */
  function Fields(s: string, cur: string): (r: seq<string>)
    ensures |r| >= 1
    decreases |s|
  {
    if s == [] then [cur]
    else if s[0] == ',' then [cur] + Fields(s[1..], "")
    else Fields(s[1..], cur + [s[0]])
  }

  /** No field holds a ','. */
  lemma {:induction false} FieldsHaveNoComma(s: string, cur: string)
    requires ',' !in cur
    ensures forall i :: 0 <= i < |Fields(s, cur)| ==> ',' !in Fields(s, cur)[i]
    decreases |s|
  {
    if s != [] {
      if s[0] == ',' {
        FieldsHaveNoComma(s[1..], "");
      } else {
        FieldsHaveNoComma(s[1..], cur + [s[0]]);
      }
    }
  }

  /** Text without a ',' is a single field. */
  lemma {:induction false} FieldsOfPlainText(s: string, cur: string)
    requires ',' !in s
    ensures Fields(s, cur) == [cur + s]
    decreases |s|
  {
    if s != [] {
      assert s[0] != ',' by { assert s[0] in s; }
      assert Fields(s, cur) == Fields(s[1..], cur + [s[0]]);
      assert ',' !in s[1..] by {
        assert forall c :: c in s[1..] ==> c in s;
      }
      FieldsOfPlainText(s[1..], cur + [s[0]]);
      assert cur + [s[0]] + s[1..] == cur + s;
    } else {
      assert cur + s == cur;
    }
  }

  /** StringSplitOptions.RemoveEmptyEntries: the non-empty fields, in order. */
  function NonEmpty(fields: seq<string>): (r: seq<string>)
    ensures forall i :: 0 <= i < |r| ==> r[i] != [] && r[i] in fields
  {
    if fields == [] then []
    else if fields[0] == [] then NonEmpty(fields[1..])
    else [fields[0]] + NonEmpty(fields[1..])
  }

  /** The items of a comma-separated list, as InOperator reads them: the text
      trimmed, split at ',', empty entries removed and each entry trimmed. */
  function ListItems(s: string): seq<string>
  {
    var parts := NonEmpty(Fields(Trim(s), ""));
    seq(|parts|, i requires 0 <= i < |parts| => Trim(parts[i]))
  }

  /** InOperator.Result: with a string on the right, whether the text of x is
      one of its comma-separated items; with another enumerable, whether one
      of its elements equals x; false otherwise and for nulls. A dictionary
      enumerates key/value pairs, which no modelled value equals. */
  function InResult(x: Value, y: Value): bool
  {
    if x.Null? || y.Null? then false
    else if y.Str? then exists v :: v in ListItems(y.s) && v == ToText(x)
    else if y.Array? || y.List? then exists i :: 0 <= i < |y.items| && Equal(x, y.items[i])
    else false
  }

  /** A value whose text holds a ',' is never found in a comma-separated
      list, and neither is a text with surrounding white space. */
  lemma InListItemShape(x: Value, s: string)
    requires InResult(x, Str(s))
    ensures ',' !in ToText(x)
    ensures ToText(x) != [] ==> !IsSpace(ToText(x)[0]) && !IsSpace(ToText(x)[|ToText(x)| - 1])
  {
    ListItemShape(s, ToText(x));
  }

  /** Every item of a comma-separated list is free of commas and of
      surrounding white space. */
  lemma ListItemShape(s: string, t: string)
    requires t in ListItems(s)
    ensures ',' !in t
    ensures t != [] ==> !IsSpace(t[0]) && !IsSpace(t[|t| - 1])
  {
    var fields := Fields(Trim(s), "");
    FieldsHaveNoComma(Trim(s), "");
    var parts := NonEmpty(fields);
    var i :| 0 <= i < |parts| && Trim(parts[i]) == t;
    assert parts[i] in fields;
    TrimKeepsOut(parts[i], ',');
  }

  /** Trimming does not add characters. */
  lemma {:induction false} TrimKeepsOut(s: string, c: char)
    requires c !in s
    ensures c !in Trim(s)
    decreases |s|
  {
    if s != [] {
      if IsSpace(s[0]) {
        assert c !in s[1..] by { assert forall d :: d in s[1..] ==> d in s; }
        TrimKeepsOut(s[1..], c);
      } else if IsSpace(s[|s| - 1]) {
        assert c !in s[..|s| - 1] by { assert forall d :: d in s[..|s| - 1] ==> d in s; }
        TrimKeepsOut(s[..|s| - 1], c);
      }
    }
  }

  /** A non-empty string without commas or surrounding white space is in
      itself. */
  lemma InItself(t: string)
    requires t != [] && ',' !in t && Trim(t) == t
    ensures InResult(Str(t), Str(t))
  {
    FieldsOfPlainText(t, "");
    assert "" + t == t;
    assert NonEmpty([t]) == [t];
    assert ListItems(t) == [t];
  }

  /** A string is found in an array holding an equal string. */
  lemma InArray(id: nat, items: seq<Value>, x: Value, i: nat)
    requires !x.Null? && i < |items| && Equal(x, items[i])
    ensures InResult(x, Array(id, items))
  {
  }

  /** The collection of operators, keyed by name. */
  class OperatorCollection {
    var operators: map<string, Operator>

    /** new OperatorCollection(null): an empty collection. */
    constructor ()
      ensures operators == map[]
    {
      operators := map[];
    }

    /** Contains(name). */
    function Contains(name: string): (r: bool)
      reads this
      ensures r <==> name in operators
    {
      name in operators
    }

    /** Contains(operator): null is refused; otherwise whether its name is
        taken. */
    function ContainsOperator(op: Option<Operator>): (r: Result<bool>)
      reads this
      ensures op.None? ==> r == Err(ArgumentNull("operator"))
      ensures op.Some? ==> r == Ok(Name(op.value) in operators)
    {
      if op.None? then Err(ArgumentNull("operator")) else Ok(Contains(Name(op.value)))
    }

    /** GetOperator: the operator with that name, or null. */
    function GetOperator(name: string): (r: Option<Operator>)
      reads this
      ensures r.Some? <==> name in operators
      ensures r.Some? ==> r.value == operators[name]
      ensures r.Some? && Keyed(operators) ==> Name(r.value) == name
    {
      if Contains(name) then Some(operators[name]) else None
    }

    /** Count. */
    function Count(): (r: nat)
      reads this
      ensures r == |operators.Keys|
    {
      |operators|
    }

    /** Add(operator): null is refused; an operator whose name is taken is
        ignored. */
    method Add(op: Option<Operator>) returns (o: Outcome)
      modifies this
      ensures op.None? ==> o == Fail(ArgumentNull("operator")) && operators == old(operators)
      ensures op.Some? ==> o == Pass
      ensures op.Some? && Name(op.value) in old(operators) ==> operators == old(operators)
      ensures op.Some? && Name(op.value) !in old(operators) ==> operators == old(operators)[Name(op.value) := op.value]
      ensures Keyed(old(operators)) ==> Keyed(operators)
    {
      if op.None? {
        return Fail(ArgumentNull("operator"));
      }
      if !Contains(Name(op.value)) {
        operators := operators[Name(op.value) := op.value];
      }
      return Pass;
    }

    /** Add(params operators): null and empty arrays are refused; otherwise
        each operator is added in turn, and a null entry stops the adding
        with the operators before it already added. */
    method AddAll(ops: Option<seq<Option<Operator>>>) returns (o: Outcome)
      modifies this
      ensures ops.None? ==> o == Fail(ArgumentNull("operators")) && operators == old(operators)
      ensures ops.Some? && ops.value == [] ==>
                o == Fail(Argument("At least 1 operator must be provided.")) && operators == old(operators)
      ensures ops.Some? && ops.value != [] ==> (operators, o) == AddEach(old(operators), ops.value)
    {
      if ops.None? {
        return Fail(ArgumentNull("operators"));
      }
      var all := ops.value;
      if |all| == 0 {
        return Fail(Argument("At least 1 operator must be provided."));
      }
      var i := 0;
      while i < |all|
        invariant 0 <= i <= |all|
        invariant AddEach(old(operators), all) == AddEach(operators, all[i..])
      {
        assert all[i..] == [all[i]] + all[i + 1..];
        o := Add(all[i]);
        if o.Fail? {
          return;
        }
        i := i + 1;
      }
      assert all[i..] == [];
      return Pass;
    }

    /** Remove(name): true, and the operator removed, iff the name is present;
        nothing else changes. */
    method Remove(name: string) returns (removed: bool)
      modifies this
      ensures removed <==> name in old(operators)
      ensures operators == old(operators) - {name}
      ensures Keyed(old(operators)) ==> Keyed(operators)
    {
      if Contains(name) {
        operators := operators - {name};
        return true;
      }
      return false;
    }

    /** Clear. */
    method Clear()
      modifies this
      ensures operators == map[]
    {
      operators := map[];
    }
  }

  /** Every operator is stored under its own name. */
  predicate Keyed(operators: map<string, Operator>)
  {
    forall n :: n in operators ==> Name(operators[n]) == n
  }

  /** What adding a run of operators leaves, and whether a null stopped it. */
  function AddEach(operators: map<string, Operator>, ops: seq<Option<Operator>>): (map<string, Operator>, Outcome)
    decreases |ops|
  {
    if ops == [] then (operators, Pass)
    else if ops[0].None? then (operators, Fail(ArgumentNull("operator")))
    else
      var op := ops[0].value;
      AddEach(if Name(op) in operators then operators else operators[Name(op) := op], ops[1..])
  }

  /** Adding a run of operators keeps the first operator of each name: a
      name already present keeps its operator, and every name added comes
      from the run. */
  lemma {:induction false} AddEachKeepsFirst(operators: map<string, Operator>, ops: seq<Option<Operator>>)
    ensures var r := AddEach(operators, ops).0;
      (forall n :: n in operators ==> n in r && r[n] == operators[n]) &&
      (forall n :: n in r && n !in operators ==> exists i :: 0 <= i < |ops| && ops[i] == Some(r[n]))
    decreases |ops|
  {
    if ops != [] && ops[0].Some? {
      var op := ops[0].value;
      var next := if Name(op) in operators then operators else operators[Name(op) := op];
      AddEachKeepsFirst(next, ops[1..]);
      var r := AddEach(operators, ops).0;
      forall n | n in r && n !in operators
        ensures exists i :: 0 <= i < |ops| && ops[i] == Some(r[n])
      {
        if n in next {
          assert ops[0] == Some(r[n]);
        } else {
          var i :| 0 <= i < |ops[1..]| && ops[1..][i] == Some(r[n]);
          assert ops[i + 1] == Some(r[n]);
        }
      }
    }
  }

  /** Adding a run of non-null operators to a keyed table keeps it keyed and
      makes every name of the run present. */
  lemma {:induction false} AddEachCovers(operators: map<string, Operator>, ops: seq<Option<Operator>>)
    requires Keyed(operators)
    requires forall i :: 0 <= i < |ops| ==> ops[i].Some?
    ensures AddEach(operators, ops).1 == Pass
    ensures Keyed(AddEach(operators, ops).0)
    ensures forall i :: 0 <= i < |ops| ==> Name(ops[i].value) in AddEach(operators, ops).0
    decreases |ops|
  {
    if ops != [] {
      var op := ops[0].value;
      var next := if Name(op) in operators then operators else operators[Name(op) := op];
      AddEachCovers(next, ops[1..]);
      AddEachKeepsFirst(next, ops[1..]);
      forall i | 0 <= i < |ops|
        ensures Name(ops[i].value) in AddEach(operators, ops).0
      {
        if i > 0 {
          assert ops[i] == ops[1..][i - 1];
        }
      }
    }
  }

  /** The standard operators have distinct names, so adding them all keeps
      each of them. */
  lemma StandardOperatorsAllKept()
    ensures var r := AddEach(map[], seq(|StandardOperators|, i requires 0 <= i < |StandardOperators| => Some(StandardOperators[i])));
      r.1 == Pass && |r.0| == 6 && "not" in r.0 && r.0["not"] == NegatedEquality("not", false)
  {
    var ops := seq(|StandardOperators|, i requires 0 <= i < |StandardOperators| => Some(StandardOperators[i]));
    var m0: map<string, Operator> := map[];
    var m1 := m0["==" := Equality(false)];
    var m2 := m1["===" := Equality(true)];
    var m3 := m2["!=" := Negated(false)];
    var m4 := m3["not" := NegatedEquality("not", false)];
    var m5 := m4["!==" := Negated(true)];
    var m6 := m5["in" := In];
    assert AddEach(m0, ops) == AddEach(m1, ops[1..]);
    assert AddEach(m1, ops[1..]) == AddEach(m2, ops[2..]);
    assert AddEach(m2, ops[2..]) == AddEach(m3, ops[3..]);
    assert AddEach(m3, ops[3..]) == AddEach(m4, ops[4..]);
    assert AddEach(m4, ops[4..]) == AddEach(m5, ops[5..]);
    assert AddEach(m5, ops[5..]) == AddEach(m6, ops[6..]);
    assert m6.Keys == {"==", "===", "!=", "not", "!==", "in"};
  }

  /** "hello" is in " hello, world". */
  lemma HelloInList()
    ensures InResult(Str("hello"), Str(" hello, world"))
  {
    var s := " hello, world";
    HelloListTrimmed();
    HelloListFields();
    var parts := NonEmpty(Fields(Trim(s), ""));
    assert parts == ["hello", " world"] by {
      assert NonEmpty(["hello", " world"]) == ["hello", " world"];
    }
    HelloTrimmed();
    var items := ListItems(s);
    assert |items| == 2 && items[0] == Trim(parts[0]);
    assert items[0] == "hello";
    assert "hello" in items;
    assert ToText(Str("hello")) == "hello";
  }

  lemma HelloListTrimmed()
    ensures Trim(" hello, world") == "hello, world"
  {
    var t := "hello, world";
    assert t[0] == 'h' && t[11] == 'd';
    TrimOneSpace(" hello, world", t);
  }

  lemma HelloTrimmed()
    ensures Trim("hello") == "hello"
  {
    var t := "hello";
    assert t[0] == 'h' && t[4] == 'o';
    TrimKeepsPlain(t);
  }

  /** A space before a text with no white space at either end is trimmed off. */
  lemma TrimOneSpace(s: string, t: string)
    requires s == [' '] + t && t != [] && !IsSpace(t[0]) && !IsSpace(t[|t| - 1])
    ensures Trim(s) == t
  {
    assert s[1..] == t;
    TrimKeepsPlain(t);
  }

  /** A text with no white space at either end is its own trimming. */
  lemma TrimKeepsPlain(t: string)
    requires t != [] && !IsSpace(t[0]) && !IsSpace(t[|t| - 1])
    ensures Trim(t) == t
  {
  }

  lemma HelloListFields()
    ensures Fields("hello, world", "") == ["hello", " world"]
  {
    var t := "hello, world";
    assert ',' !in " world";
    FieldsOfPlainText(" world", "");
    assert ',' !in t[..5];
    FieldsStep(t, "", 5);
    assert "" + t[..5] == "hello";
    assert t[6..] == " world";
    assert "" + " world" == " world";
  }

  /** The first field runs up to the first ','. */
  lemma {:induction false} FieldsStep(s: string, cur: string, k: nat)
    requires k < |s| && s[k] == ',' && ',' !in s[..k]
    ensures Fields(s, cur) == [cur + s[..k]] + Fields(s[k + 1..], "")
    decreases k
  {
    if k == 0 {
      assert cur + s[..0] == cur;
    } else {
      assert s[0] != ',' by { assert s[0] == s[..k][0]; }
      assert s[1..][..k - 1] == s[1..k];
      assert ',' !in s[1..][..k - 1] by { assert forall c :: c in s[1..k] ==> c in s[..k]; }
      FieldsStep(s[1..], cur + [s[0]], k - 1);
      assert cur + [s[0]] + s[1..][..k - 1] == cur + s[..k];
      assert s[1..][k..] == s[k + 1..];
    }
  }
}
