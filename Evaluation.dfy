// The data evaluator (FuManchu/Binding/TemplateDataEvaluator.cs): resolves a
// dotted path against a value by trying the whole path first, then shorter
// prefixes split at each '.' from the right, recursing into the rest.
// Dictionary keys are tried before properties; reflection over properties
// is reduced to the properties a value lists (and the Length or Count of
// strings and collections).
module Evaluation {
  import opened Wrappers
  import opened Values
  import Tags
  import Chars

  /** TemplateDataInfo: the container a value was found in, and the value. */
  datatype DataInfo = DataInfo(container: Value, value: Value)

  /** The splits at the dots of e[..n], rightmost first: the text before
      each dot and everything of e after it. Stepping from one dot to the
      last dot of the text before it, as GetRightToLeftExpressions does with
      LastIndexOf, visits exactly the dots of e, from the right. */
  function DotSplits(e: string, n: nat): seq<(string, string)>
    requires n <= |e|
    decreases n
  {
    if n == 0 then []
    else if e[n - 1] == '.' then [(e[..n - 1], e[n..])] + DotSplits(e, n - 1)
    else DotSplits(e, n - 1)
  }

  /** s splits e at a dot: the text before the dot and the text after it. */
  predicate IsSplit(e: string, s: (string, string))
  {
    var p := |s.0|;
    p < |e| && e[p] == '.' && s.0 == e[..p] && s.1 == e[p + 1..]
  }

  /** Each split of e[..n] is a split of e at a dot before position n. */
  lemma {:induction false} DotSplitsJoin(e: string, n: nat)
    requires n <= |e|
    ensures forall i :: 0 <= i < |DotSplits(e, n)| ==> |DotSplits(e, n)[i].0| < n
    ensures forall i :: 0 <= i < |DotSplits(e, n)| ==> IsSplit(e, DotSplits(e, n)[i])
    decreases n
  {
    if n > 0 {
      DotSplitsJoin(e, n - 1);
      var r, rest := DotSplits(e, n), DotSplits(e, n - 1);
      if e[n - 1] == '.' {
        forall i | 0 <= i < |r|
          ensures |r[i].0| < n && IsSplit(e, r[i])
        {
          if i > 0 {
            assert r[i] == rest[i - 1];
          }
        }
      }
    }
  }

  /** The prefixes of the splits shrink from one split to the next. */
  lemma {:induction false} DotSplitsShrink(e: string, n: nat)
    requires n <= |e|
    ensures forall i, j :: 0 <= i < j < |DotSplits(e, n)| ==> |DotSplits(e, n)[j].0| < |DotSplits(e, n)[i].0|
    decreases n
  {
    if n > 0 {
      DotSplitsShrink(e, n - 1);
      DotSplitsJoin(e, n - 1);
      var r, rest := DotSplits(e, n), DotSplits(e, n - 1);
      if e[n - 1] == '.' {
        forall i, j | 0 <= i < j < |r|
          ensures |r[j].0| < |r[i].0|
        {
          assert r[j] == rest[j - 1];
          if i > 0 {
            assert r[i] == rest[i - 1];
          }
        }
      }
    }
  }

  /** Some split of r is at position p. */
  predicate HasSplitAt(r: seq<(string, string)>, p: nat)
  {
    exists i :: 0 <= i < |r| && |r[i].0| == p
  }

  /** Every dot of e[..n] gives a split. */
  lemma {:induction false} DotSplitsCover(e: string, n: nat)
    requires n <= |e|
    ensures forall p :: 0 <= p < n && e[p] == '.' ==> HasSplitAt(DotSplits(e, n), p)
    decreases n
  {
    if n > 0 {
      DotSplitsCover(e, n - 1);
      var r, rest := DotSplits(e, n), DotSplits(e, n - 1);
      forall p | 0 <= p < n && e[p] == '.'
        ensures HasSplitAt(r, p)
      {
        if p == n - 1 {
          assert |r[0].0| == p;
        } else {
          var i :| 0 <= i < |rest| && |rest[i].0| == p;
          if e[n - 1] == '.' {
            assert r[i + 1] == rest[i];
            assert 0 <= i + 1 < |r| && |r[i + 1].0| == p;
          } else {
            assert r == rest;
            assert 0 <= i < |r| && |r[i].0| == p;
          }
        }
      }
    }
  }

  /** Positions m to n hold no dot: they give no split. */
  lemma {:induction false} DotSplitsSkip(e: string, m: nat, n: nat)
    requires m <= n <= |e|
    requires forall i :: m <= i < n ==> e[i] != '.'
    ensures DotSplits(e, n) == DotSplits(e, m)
    decreases n
  {
    if n > m {
      DotSplitsSkip(e, m, n - 1);
    }
  }

  /** GetRightToLeftExpressions: the whole path with an empty rest, then the
      split at every dot, from the rightmost dot to the leftmost. */
  function RightToLeft(e: string): (r: seq<(string, string)>)
    ensures |r| >= 1 && r[0] == (e, "")
    ensures forall i :: 1 <= i < |r| ==> IsSplit(e, r[i])
    ensures forall i, j :: 1 <= i < j < |r| ==> |r[j].0| < |r[i].0|
    ensures forall p :: 0 <= p < |e| && e[p] == '.' ==> exists i :: 1 <= i < |r| && |r[i].0| == p
  {
    var ds := DotSplits(e, |e|);
    DotSplitsJoin(e, |e|);
    DotSplitsShrink(e, |e|);
    DotSplitsCover(e, |e|);
    assert forall i :: 1 <= i < |ds| + 1 ==> ([(e, "")] + ds)[i] == ds[i - 1];
    forall p | 0 <= p < |e| && e[p] == '.'
      ensures exists i :: 1 <= i < |ds| + 1 && |([(e, "")] + ds)[i].0| == p
    {
      assert HasSplitAt(ds, p);
      var i :| 0 <= i < |ds| && |ds[i].0| == p;
      assert ([(e, "")] + ds)[i + 1] == ds[i];
    }
    [(e, "")] + ds
  }

  /** GetIndexPropertyValue: a dictionary's value for key, if it has one;
      nothing for any other container. */
  function IndexValue(container: Value, key: string): (r: Option<DataInfo>)
    ensures r.Some? <==> container.Dict? && Lookup(container.entries, key).Some?
    ensures r.Some? ==> r.value == DataInfo(container, Lookup(container.entries, key).value)
  {
    if container.Dict? then
      var v := Lookup(container.entries, key);
      if v.Some? then Some(DataInfo(container, v.value)) else None
    else None
  }

  /** GetRuntimeProperty(name).GetValue: the public properties a value has. */
  function PropertyOf(v: Value, name: string): Option<Value>
  {
    match v
    case Str(s) => if name == "Length" then Some(Int(|s|)) else None
    case Array(_, items) => if name == "Length" then Some(Int(|items|)) else None
    case List(_, items) => if name == "Count" then Some(Int(|items|)) else None
    case Dict(_, entries) => if name == "Count" then Some(Int(|entries|)) else None
    case Object(_, _, properties) => Lookup(properties, name)
    case Data(model) => if name == "Model" then Some(model) else None
    case _ => None
  }

  /** GetPropertyValue: a dictionary key first; otherwise a property of the
      container, or of the model when the container is a TemplateData. */
  function PropertyValue(container: Value, name: string): (r: Option<DataInfo>)
    ensures IndexValue(container, name).Some? ==> r == IndexValue(container, name)
    ensures r.Some? && IndexValue(container, name).None? ==>
      var c := if container.Data? then container.model else container;
      !c.Null? && PropertyOf(c, name).Some? && r.value == DataInfo(c, PropertyOf(c, name).value)
  {
    var index := IndexValue(container, name);
    if index.Some? then index
    else
      var c := if container.Data? then container.model else container;
      if c.Null? then None
      else
        var p := PropertyOf(c, name);
        if p.Some? then Some(DataInfo(c, p.value)) else None
  }

  /** EvalComplexExpression: the first split whose prefix resolves and whose
      rest is blank, or resolves in turn against the prefix's non-null value. */
  function EvalComplex(obj: Value, e: string): Option<DataInfo>
    decreases |e|, 1
  {
    FirstResolving(obj, e, RightToLeft(e), 0)
  }

  /** The loop of EvalComplexExpression from split k on. */
  function FirstResolving(obj: Value, e: string, ps: seq<(string, string)>, k: nat): Option<DataInfo>
    requires forall i :: 0 <= i < |ps| ==> ps[i].1 == "" || |ps[i].1| < |e|
    decreases |e|, 0, |ps| - k
  {
    if k >= |ps| then None
    else
      var (sub, post) := ps[k];
      var info := PropertyValue(obj, sub);
      if info.None? then FirstResolving(obj, e, ps, k + 1)
      else if Tags.IsBlank(post) then info
      else if info.value.value.Null? then FirstResolving(obj, e, ps, k + 1)
      else
        var potential := EvalComplex(info.value.value, post);
        if potential.Some? then potential else FirstResolving(obj, e, ps, k + 1)
  }

  /** Eval(object, expression): nothing for a null object. */
  function Eval(obj: Value, e: string): (r: Option<DataInfo>)
    ensures obj.Null? ==> r.None?
  {
    if obj.Null? then None else EvalComplex(obj, e)
  }

  /** Eval(TemplateData, expression): the evaluation starts at the wrapper. */
  function EvalData(data: TemplateData, e: string): Option<DataInfo>
  {
    EvalComplex(Data(data.model), e)
  }

  /** A whole path that resolves is taken as it is. */
  lemma WholePathFirst(obj: Value, e: string)
    requires PropertyValue(obj, e).Some?
    ensures EvalComplex(obj, e) == PropertyValue(obj, e)
  {
    assert RightToLeft(e)[0] == (e, "");
  }

  /** The first split whose prefix resolves with a blank rest wins when no
      earlier prefix resolves. */
  lemma {:induction false} FirstSplitWins(obj: Value, e: string, ps: seq<(string, string)>, k: nat, i: nat)
    requires forall j :: 0 <= j < |ps| ==> ps[j].1 == "" || |ps[j].1| < |e|
    requires k <= i < |ps|
    requires forall j :: k <= j < i ==> PropertyValue(obj, ps[j].0).None?
    requires PropertyValue(obj, ps[i].0).Some? && Tags.IsBlank(ps[i].1)
    ensures FirstResolving(obj, e, ps, k) == PropertyValue(obj, ps[i].0)
    decreases i - k
  {
    if k < i {
      FirstSplitWins(obj, e, ps, k + 1, i);
    }
  }

  /** Whatever the evaluator finds, some split's prefix resolved against the
      object. */
  lemma {:induction false} FoundThroughSomeSplit(obj: Value, e: string, ps: seq<(string, string)>, k: nat)
    requires forall j :: 0 <= j < |ps| ==> ps[j].1 == "" || |ps[j].1| < |e|
    requires FirstResolving(obj, e, ps, k).Some?
    ensures exists j :: k <= j < |ps| && PropertyValue(obj, ps[j].0).Some?
    decreases |ps| - k
  {
    if PropertyValue(obj, ps[k].0).None? {
      FoundThroughSomeSplit(obj, e, ps, k + 1);
    } else if !Tags.IsBlank(ps[k].1) && !PropertyValue(obj, ps[k].0).value.value.Null?
      && EvalComplex(PropertyValue(obj, ps[k].0).value.value, ps[k].1).None?
    {
      FoundThroughSomeSplit(obj, e, ps, k + 1);
    } else if !Tags.IsBlank(ps[k].1) && PropertyValue(obj, ps[k].0).value.value.Null? {
      FoundThroughSomeSplit(obj, e, ps, k + 1);
    }
  }

  /** A path none of whose prefixes resolves finds nothing. */
  lemma NothingWithoutAPrefix(obj: Value, e: string)
    requires forall j :: 0 <= j < |RightToLeft(e)| ==> PropertyValue(obj, RightToLeft(e)[j].0).None?
    ensures EvalComplex(obj, e).None?
  {
    if EvalComplex(obj, e).Some? {
      FoundThroughSomeSplit(obj, e, RightToLeft(e), 0);
    }
  }

  /** A key of a dictionary is found before its Count property. */
  lemma DictionaryKeyBeforeProperty(id: nat, v: Value)
    ensures PropertyValue(Dict(id, [("Count", v)]), "Count") == Some(DataInfo(Dict(id, [("Count", v)]), v))
  {
  }

  /** The splits of a path with one dot. */
  lemma OneDotSplits()
    ensures RightToLeft("person.name") == [("person.name", ""), ("person", "name")]
  {
    var e := "person.name";
    assert e[7] != '.' && e[8] != '.' && e[9] != '.' && e[10] != '.';
    DotSplitsSkip(e, 7, 11);
    assert e[0] != '.' && e[1] != '.' && e[2] != '.' && e[3] != '.' && e[4] != '.' && e[5] != '.';
    DotSplitsSkip(e, 0, 6);
    assert e[..6] == "person" && e[7..] == "name";
  }

  /** The splits of a path without a dot. */
  lemma NoDotSplits(e: string)
    requires forall i :: 0 <= i < |e| ==> e[i] != '.'
    ensures RightToLeft(e) == [(e, "")]
  {
    DotSplitsSkip(e, 0, |e|);
  }

  /** A nested path: "person.name" over an object whose person property is a
      dictionary holding the name. */
  lemma NestedPath()
    ensures var person := Dict(1, [("name", Str("Bob"))]);
      EvalComplex(Object(2, "Model", [("person", person)]), "person.name") == Some(DataInfo(person, Str("Bob")))
  {
    var person := Dict(1, [("name", Str("Bob"))]);
    var obj := Object(2, "Model", [("person", person)]);
    OneDotSplits();
    NoDotSplits("name");
    assert PropertyValue(obj, "person.name").None?;
    assert PropertyValue(obj, "person") == Some(DataInfo(obj, person));
    assert EvalComplex(person, "name") == Some(DataInfo(person, Str("Bob")));
    assert !Tags.IsBlank("name") by {
      assert !Chars.IsWhiteSpace('n') && !Chars.IsNewLine('n');
    }
  }

  /** The evaluator starts at the TemplateData wrapper, so a key of a
      dictionary model is not found (only the wrapper is asked for keys). */
  lemma DictionaryModelKeyNotFound()
    ensures EvalData(TemplateData(Dict(1, [("name", Str("Bob"))])), "name").None?
  {
    var data := Data(Dict(1, [("name", Str("Bob"))]));
    NoDotSplits("name");
    assert PropertyValue(data, "name").None?;
  }
}
