// Tag descriptors (src/FuManchu/Tags/TagDescriptor.cs), the standard tags
// (src/FuManchu/Tags/StandardTagProvider.cs) and the registry of tag
// providers the parser asks for the descriptor of a block tag
// (src/FuManchu/Tags/TagProvidersCollection.cs).
module Tags {
  import opened Wrappers
  import Chars

  /** The renderer a descriptor names; the renderers themselves are modelled
      by their decisions in the Renderers module. */
  datatype RendererKind =
    | ConditionalRenderer | UnlessRenderer | EnumerableRenderer | ScopeRenderer
    | IsRenderer | ImplicitBlockRenderer | HelperRenderer

  datatype TagDescriptor = TagDescriptor(name: string, renderer: RendererKind,
                                         requiredArguments: int, maxArguments: int,
                                         allowMappedParameters: bool, hasChildContent: bool,
                                         isImplicit: bool)

  const IntMaxValue := 0x7fff_ffff

  /** String.IsNullOrWhiteSpace for a non-null string: every character is
      white space in the sense of Char.IsWhiteSpace. */
  predicate IsBlank(s: string) {
    forall i :: 0 <= i < |s| ==> Chars.IsWhiteSpace(s[i]) || Chars.IsNewLine(s[i])
  }

  /** The TagDescriptor constructor: its argument checks, in order, and the
      defaults (no maximum means Int32.MaxValue). A descriptor made this way
      is never implicit. */
  function NewTagDescriptor(name: string, renderer: Option<RendererKind>, requiredArguments: int,
                            maxArguments: Option<int>, allowMappedParameters: bool,
                            hasChildContent: bool): (r: Result<TagDescriptor>)
    ensures IsBlank(name) ==> r == Err(Argument("The tag name is expected"))
    ensures !IsBlank(name) && renderer.None? ==> r == Err(ArgumentNull("renderer"))
    ensures !IsBlank(name) && renderer.Some? && requiredArguments < 0 ==>
              r == Err(ArgumentOutOfRange("requiredArguments"))
    ensures !IsBlank(name) && renderer.Some? && requiredArguments >= 0
            && maxArguments.Some? && maxArguments.value < 0 ==>
              r == Err(ArgumentOutOfRange("maxArguments"))
    ensures r.Ok? ==>
              r.value.name == name && Some(r.value.renderer) == renderer
              && r.value.requiredArguments == requiredArguments >= 0
              && r.value.maxArguments == (if maxArguments.Some? then maxArguments.value else IntMaxValue)
              && r.value.maxArguments >= 0
              && r.value.allowMappedParameters == allowMappedParameters
              && r.value.hasChildContent == hasChildContent && !r.value.isImplicit
  {
    if IsBlank(name) then Err(Argument("The tag name is expected"))
    else if renderer.None? then Err(ArgumentNull("renderer"))
    else if requiredArguments < 0 then Err(ArgumentOutOfRange("requiredArguments"))
    else if maxArguments.Some? && maxArguments.value < 0 then Err(ArgumentOutOfRange("maxArguments"))
    else
      var max := if maxArguments.Some? then maxArguments.value else IntMaxValue;
      Ok(TagDescriptor(name, renderer.value, requiredArguments, max, allowMappedParameters, hasChildContent, false))
  }

  // The tags of StandardTagProvider, in the order GetTags yields them.
  const IfTag := TagDescriptor("if", ConditionalRenderer, 1, 1, false, true, false)
  const ElseIfTag := TagDescriptor("elseif", ConditionalRenderer, 1, 1, false, true, false)
  const ElseTag := TagDescriptor("else", ConditionalRenderer, 0, 0, false, true, false)
  const UnlessTag := TagDescriptor("unless", UnlessRenderer, 1, 1, false, true, false)
  const EachTag := TagDescriptor("each", EnumerableRenderer, 1, 1, false, true, false)
  const WithTag := TagDescriptor("with", ScopeRenderer, 1, 1, false, true, false)
  const IsTag := TagDescriptor("is", IsRenderer, 1, 3, false, true, false)

  /** A provider, identified by its runtime type, and the tags it yields. */
  datatype TagProvider = TagProvider(providerType: string, tags: seq<TagDescriptor>)

  const StandardTagProvider :=
    TagProvider("StandardTagProvider", [IfTag, ElseIfTag, ElseTag, UnlessTag, EachTag, WithTag, IsTag])

  /** Each standard tag is what the TagDescriptor constructor builds from the
      arguments StandardTagProvider passes. */
  lemma StandardTagsAreConstructed()
    ensures NewTagDescriptor("if", Some(ConditionalRenderer), 1, Some(1), false, true) == Ok(IfTag)
    ensures NewTagDescriptor("elseif", Some(ConditionalRenderer), 1, Some(1), false, true) == Ok(ElseIfTag)
    ensures NewTagDescriptor("else", Some(ConditionalRenderer), 0, Some(0), false, true) == Ok(ElseTag)
    ensures NewTagDescriptor("unless", Some(UnlessRenderer), 1, Some(1), false, true) == Ok(UnlessTag)
    ensures NewTagDescriptor("each", Some(EnumerableRenderer), 1, Some(1), false, true) == Ok(EachTag)
    ensures NewTagDescriptor("with", Some(ScopeRenderer), 1, Some(1), false, true) == Ok(WithTag)
    ensures NewTagDescriptor("is", Some(IsRenderer), 1, Some(3), false, true) == Ok(IsTag)
  {
    assert !IsBlank("if") by { assert !Chars.IsWhiteSpace("if"[0]); }
    assert !IsBlank("elseif") by { assert !Chars.IsWhiteSpace("elseif"[0]); }
    assert !IsBlank("else") by { assert !Chars.IsWhiteSpace("else"[0]); }
    assert !IsBlank("unless") by { assert !Chars.IsWhiteSpace("unless"[0]); }
    assert !IsBlank("each") by { assert !Chars.IsWhiteSpace("each"[0]); }
    assert !IsBlank("with") by { assert !Chars.IsWhiteSpace("with"[0]); }
    assert !IsBlank("is") by { assert !Chars.IsWhiteSpace("is"[0]); }
  }

  /** SelectMany(p => p.GetTags()): the providers' tags, provider by provider. */
  function AllTags(providers: seq<TagProvider>): seq<TagDescriptor> {
    if providers == [] then [] else providers[0].tags + AllTags(providers[1..])
  }

  /** FirstOrDefault with a case-insensitive name comparison. */
  function FirstNamed(tags: seq<TagDescriptor>, name: string): (r: Option<TagDescriptor>)
    ensures r.None? <==> forall k :: 0 <= k < |tags| ==> !Chars.EqualsIgnoreCase(tags[k].name, name)
    ensures r.Some? ==>
              exists k :: 0 <= k < |tags| && r.value == tags[k] && Chars.EqualsIgnoreCase(tags[k].name, name)
                          && forall j :: 0 <= j < k ==> !Chars.EqualsIgnoreCase(tags[j].name, name)
  {
    if tags == [] then None
    else if Chars.EqualsIgnoreCase(tags[0].name, name) then Some(tags[0])
    else
      var r := FirstNamed(tags[1..], name);
      assert r.Some? ==> exists k :: 1 <= k < |tags| && r.value == tags[k] && Chars.EqualsIgnoreCase(tags[k].name, name)
                          && forall j :: 0 <= j < k ==> !Chars.EqualsIgnoreCase(tags[j].name, name) by {
        if r.Some? {
          var k :| 0 <= k < |tags[1..]| && r.value == tags[1..][k] && Chars.EqualsIgnoreCase(tags[1..][k].name, name)
                   && forall j :: 0 <= j < k ==> !Chars.EqualsIgnoreCase(tags[1..][j].name, name);
          assert forall j :: 1 <= j < k + 1 ==> !Chars.EqualsIgnoreCase(tags[j].name, name) by {
            forall j | 1 <= j < k + 1 ensures !Chars.EqualsIgnoreCase(tags[j].name, name) {
              assert tags[j] == tags[1..][j - 1];
            }
          }
        }
      }
      r
  }

  /** CreateImplictTagDescriptor: a descriptor for a name no provider knows:
      no arguments, no maps, child content, marked implicit. A blank name is
      refused by the descriptor constructor. */
  function CreateImplicitTagDescriptor(tagName: string): (r: Result<TagDescriptor>)
    ensures IsBlank(tagName) ==> r == Err(Argument("The tag name is expected"))
    ensures !IsBlank(tagName) ==> r == Ok(TagDescriptor(tagName, ImplicitBlockRenderer, 0, 0, false, true, true))
  {
    match NewTagDescriptor(tagName, Some(ImplicitBlockRenderer), 0, Some(0), false, true)
    case Ok(d) => Ok(d.(isImplicit := true))
    case Err(f) => Err(f)
  }

  /** The position of the first provider of the given runtime type. */
  function IndexOfType(providers: seq<TagProvider>, providerType: string): (r: Option<nat>)
    ensures r.None? <==> forall i :: 0 <= i < |providers| ==> providers[i].providerType != providerType
    ensures r.Some? ==> r.value < |providers| && providers[r.value].providerType == providerType
                        && forall i :: 0 <= i < r.value ==> providers[i].providerType != providerType
  {
    if providers == [] then None
    else if providers[0].providerType == providerType then Some(0)
    else
      var r := IndexOfType(providers[1..], providerType);
      if r.None? then None else Some(r.value + 1)
  }

  class TagProvidersCollection {
    var providers: seq<TagProvider>

    /** The parameterless constructor copies the default collection, which
        holds the standard provider. (The default collection itself is built
        while the static field is still null, so it starts empty and only the
        static constructor's Add puts the standard provider in it.) */
    constructor ()
      ensures providers == [StandardTagProvider]
    {
      providers := [StandardTagProvider];
    }

    /** The constructor from a sequence of providers; null gives an empty collection. */
    constructor FromProviders(initial: Option<seq<TagProvider>>)
      ensures providers == if initial.Some? then initial.value else []
    {
      providers := if initial.Some? then initial.value else [];
    }

    /** Contains: whether a provider of the same runtime type is present. */
    function Contains(item: Option<TagProvider>): (r: Result<bool>)
      reads this
      ensures item.None? ==> r == Err(ArgumentNull("item"))
      ensures item.Some? ==> r.Ok? && (r.value <==> exists i :: 0 <= i < |providers| && providers[i].providerType == item.value.providerType)
    {
      if item.None? then Err(ArgumentNull("item"))
      else Ok(IndexOfType(providers, item.value.providerType).Some?)
    }

    /** Add: null is refused; a provider whose type is already present is ignored. */
    method Add(item: Option<TagProvider>) returns (o: Outcome)
      modifies this
      ensures item.None? ==> o == Fail(ArgumentNull("item")) && providers == old(providers)
      ensures item.Some? ==> o.Pass?
      ensures item.Some? && old(Contains(item)) == Ok(true) ==> providers == old(providers)
      ensures item.Some? && old(Contains(item)) == Ok(false) ==> providers == old(providers) + [item.value]
    {
      var present := Contains(item);
      if present.Err? {
        return Fail(present.fault);
      }
      if !present.value {
        providers := providers + [item.value];
      }
      return Pass;
    }

    method Clear()
      modifies this
      ensures providers == []
    {
      providers := [];
    }

    /** Remove<T>: the first provider of type T is removed; false when there is none. */
    method RemoveType(providerType: string) returns (removed: bool)
      modifies this
      ensures removed <==> IndexOfType(old(providers), providerType).Some?
      ensures !removed ==> providers == old(providers)
      ensures removed ==> var j := IndexOfType(old(providers), providerType).value;
                          providers == old(providers)[..j] + old(providers)[j + 1..]
    {
      var j := IndexOfType(providers, providerType);
      if j.None? {
        return false;
      }
      providers := providers[..j.value] + providers[j.value + 1..];
      return true;
    }

    /** GetDescriptor: the first tag, across the providers in order, whose name
        matches ignoring case; otherwise an implicit descriptor for the name. */
    function GetDescriptor(tagName: string): (r: Result<TagDescriptor>)
      reads this
      ensures FirstNamed(AllTags(providers), tagName).Some? ==> r == Ok(FirstNamed(AllTags(providers), tagName).value)
      ensures FirstNamed(AllTags(providers), tagName).None? ==> r == CreateImplicitTagDescriptor(tagName)
    {
      match FirstNamed(AllTags(providers), tagName)
      case Some(d) => Ok(d)
      case None => CreateImplicitTagDescriptor(tagName)
    }
  }

  /** After a provider has been added, a provider of its type is present, so a
      second Add of it changes nothing. */
  lemma AddMakesPresent(providers: seq<TagProvider>, item: TagProvider)
    ensures IndexOfType(providers + [item], item.providerType).Some?
  {
    assert (providers + [item])[|providers|] == item;
  }

  /** With the standard provider, "IF" finds the if tag and an unknown name
      gets an implicit descriptor. */
  lemma StandardLookups()
    ensures FirstNamed(AllTags([StandardTagProvider]), "IF") == Some(IfTag)
    ensures FirstNamed(AllTags([StandardTagProvider]), "foo").None?
  {
    IfIsStandard();
    FooIsNotStandard();
  }

  lemma IfIsStandard()
    ensures FirstNamed(AllTags([StandardTagProvider]), "IF") == Some(IfTag)
  {
    StandardTags();
    assert Chars.UpperString("IF") == "IF";
    assert Chars.UpperString("if") == "IF";
  }

  lemma FooIsNotStandard()
    ensures FirstNamed(AllTags([StandardTagProvider]), "foo").None?
  {
    StandardTags();
    NoStandardFoo();
  }

  /** No standard tag is named "foo", in any case. */
  lemma NoStandardFoo()
    ensures forall k :: 0 <= k < |StandardTagProvider.tags| ==> !Chars.EqualsIgnoreCase(StandardTagProvider.tags[k].name, "foo")
  {
    var tags := StandardTagProvider.tags;
    forall k | 0 <= k < |tags|
      ensures !Chars.EqualsIgnoreCase(tags[k].name, "foo")
    {
      assert tags[k].name[0] in "ieeuewi" by {
        assert tags[k] in [IfTag, ElseIfTag, ElseTag, UnlessTag, EachTag, WithTag, IsTag];
      }
      UpperFirstDiffers(tags[k].name, "foo");
    }
  }

  /** The standard provider alone yields exactly its own tags. */
  lemma StandardTags()
    ensures AllTags([StandardTagProvider]) == StandardTagProvider.tags
  {
    assert [StandardTagProvider][1..] == [];
  }

  /** Names whose first letters differ after folding differ ignoring case. */
  lemma UpperFirstDiffers(a: string, b: string)
    requires a != [] && b != [] && Chars.ToUpper(a[0]) != Chars.ToUpper(b[0])
    ensures !Chars.EqualsIgnoreCase(a, b)
  {
    assert Chars.UpperString(a)[0] != Chars.UpperString(b)[0];
  }
}
