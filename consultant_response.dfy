/** The structured reply of the sales-consultant variant: the strict DTOs, the
    lenient ("raw") DTOs whose `pros`/`cons` are arbitrary JSON trees, the
    flattening of such a tree into a list of strings, and the conversion from
    the lenient DTO to the strict one. */
module ConsultantDto {
  import opened Wrappers
  import opened Json

  /** One selectable recommendation: `pros` and `cons` are plain string lists. */
  datatype ConsultantOption = ConsultantOption(title: string, pros: seq<string>, cons: seq<string>)

  /** The strict reply shape `{message, options?}`. */
  datatype ConsultantResponse =
    ConsultantResponse(message: string, options: Option<seq<ConsultantOption>> := None)

  /** The lenient option shape: `pros`/`cons` are any JSON tree, or absent. */
  datatype ConsultantOptionRaw =
    ConsultantOptionRaw(title: string, pros: Option<JsonElement> := None, cons: Option<JsonElement> := None)

  /** The lenient reply shape. */
  datatype ConsultantResponseRaw =
    ConsultantResponseRaw(message: string, options: Option<seq<ConsultantOptionRaw>> := None)

  // ---------------------------------------------------------------------
  // Flattening a JSON tree (`toStringList` / `extractStrings`)
  // ---------------------------------------------------------------------

  /** Number of primitive leaves reachable through arrays only (a primitive
      counts as one, an object as none). */
  function LeafCount(e: JsonElement): nat
  {
    match e
    case Arr(xs) => LeafCountAll(xs)
    case Obj(_) => 0
    case _ => 1
  }

  function LeafCountAll(xs: seq<JsonElement>): nat
  {
    if xs == [] then 0 else LeafCount(xs[0]) + LeafCountAll(xs[1..])
  }

  /** The strings `extractStrings` appends for `e`, in order: a primitive adds
      its content unless blank, an array adds what its elements add, depth
      first and left to right, an object adds nothing. */
  function Flatten(e: JsonElement): (r: seq<string>)
    ensures forall s :: s in r ==> !IsBlank(s)
    ensures |r| <= LeafCount(e)
  {
    match e
    case Arr(xs) => FlattenAll(xs)
    case Obj(_) => []
    case _ => if IsBlank(Content(e)) then [] else [Content(e)]
  }

  function FlattenAll(xs: seq<JsonElement>): (r: seq<string>)
    ensures forall s :: s in r ==> !IsBlank(s)
    ensures |r| <= LeafCountAll(xs)
  {
    if xs == [] then [] else Flatten(xs[0]) + FlattenAll(xs[1..])
  }

  /** `toStringList` on a nullable element: `null` gives the empty list. */
  function StringList(e: Option<JsonElement>): seq<string>
  {
    match e
    case None => []
    case Some(x) => Flatten(x)
  }

  /** The local `extractStrings`: appends to the list `result` the strings of
      `element`, looping over array elements with a recursive call each. */
  method ExtractStrings(element: JsonElement, result: seq<string>) returns (result': seq<string>)
    ensures result' == result + Flatten(element)
    decreases element
  {
    match element {
      case Arr(xs) =>
        result' := result;
        var i := 0;
        while i < |xs|
          invariant 0 <= i <= |xs|
          invariant result' == result + FlattenAll(xs[..i])
        {
          result' := ExtractStrings(xs[i], result');
          FlattenAllAppend(xs[..i], [xs[i]]);
          assert xs[..i + 1] == xs[..i] + [xs[i]];
          i := i + 1;
        }
        assert xs[..|xs|] == xs;
      case Obj(_) =>
        result' := result;
      case _ =>
        var content := Content(element);
        result' := if !IsBlank(content) then result + [content] else result;
    }
  }

  /** `JsonElement?.toStringList()`. */
  method ToStringList(element: Option<JsonElement>) returns (result: seq<string>)
    ensures result == StringList(element)
  {
    if element.None? {
      return [];
    }
    result := ExtractStrings(element.value, []);
  }

  // ---------------------------------------------------------------------
  // Properties of the flattening
  // ---------------------------------------------------------------------

  /** Flattening an array is the concatenation of flattening its parts. */
  lemma {:induction false} FlattenAllAppend(xs: seq<JsonElement>, ys: seq<JsonElement>)
    ensures FlattenAll(xs + ys) == FlattenAll(xs) + FlattenAll(ys)
  {
    if xs == [] {
      assert xs + ys == ys;
    } else {
      assert (xs + ys)[1..] == xs[1..] + ys;
      FlattenAllAppend(xs[1..], ys);
    }
  }

  /** Nested arrays are visited in order: `[["a"],["b","c"]]` gives `["a","b","c"]`. */
  lemma NestedArraysFlattenInOrder()
    ensures Flatten(Arr([Arr([Str("a")]), Arr([Str("b"), Str("c")])])) == ["a", "b", "c"]
  {
    assert !IsWhitespace("a"[0]) && !IsWhitespace("b"[0]) && !IsWhitespace("c"[0]);
    var inner2 := [Str("b"), Str("c")];
    assert FlattenAll(inner2) == ["b", "c"] by {
      assert inner2[1..] == [Str("c")];
    }
    var outer := [Arr([Str("a")]), Arr(inner2)];
    assert outer[1..] == [Arr(inner2)];
  }

  /** The primitive branch tests `JsonPrimitive`, not strings: numbers,
      booleans and `JsonNull` inside a tree are kept as their text, while
      blank strings are dropped and an absent tree gives nothing. */
  lemma PrimitivesKeptAsText()
    ensures Flatten(Num("42")) == ["42"]
    ensures Flatten(Bool(true)) == ["true"] && Flatten(Bool(false)) == ["false"]
    ensures Flatten(Null) == ["null"]
    ensures Flatten(Str("")) == [] && Flatten(Str(" \t\n")) == []
    ensures StringList(None) == []
  {
    assert !IsWhitespace("42"[0]);
    assert !IsWhitespace("true"[0]) && !IsWhitespace("false"[0]) && !IsWhitespace("null"[0]);
  }

  /** `s` is the text of a primitive leaf of `e` reached through arrays only. */
  ghost predicate HasLeafText(e: JsonElement, s: string)
  {
    match e
    case Arr(xs) => exists i :: 0 <= i < |xs| && HasLeafText(xs[i], s)
    case Obj(_) => false
    case _ => Content(e) == s
  }

  /** A string is produced exactly when it is the non-blank text of some
      primitive leaf not inside an object. */
  lemma {:induction false} FlattenMembership(e: JsonElement, s: string)
    ensures s in Flatten(e) <==> HasLeafText(e, s) && !IsBlank(s)
    decreases e, 1
  {
    match e
    case Arr(xs) => FlattenAllMembership(xs, s);
    case Obj(_) =>
    case _ =>
  }

  lemma {:induction false} FlattenAllMembership(xs: seq<JsonElement>, s: string)
    ensures s in FlattenAll(xs) <==>
              (exists i :: 0 <= i < |xs| && HasLeafText(xs[i], s)) && !IsBlank(s)
    decreases xs, 0
  {
    if xs != [] {
      FlattenMembership(xs[0], s);
      FlattenAllMembership(xs[1..], s);
      if exists i :: 0 <= i < |xs| && HasLeafText(xs[i], s) {
        var i :| 0 <= i < |xs| && HasLeafText(xs[i], s);
        if i > 0 {
          assert xs[1..][i - 1] == xs[i];
        }
      }
      if exists j :: 0 <= j < |xs[1..]| && HasLeafText(xs[1..][j], s) {
        var j :| 0 <= j < |xs[1..]| && HasLeafText(xs[1..][j], s);
        assert xs[j + 1] == xs[1..][j];
      }
    }
  }

  /** No object anywhere in the tree. */
  ghost predicate ObjectFree(e: JsonElement)
  {
    match e
    case Arr(xs) => forall i :: 0 <= i < |xs| ==> ObjectFree(xs[i])
    case Obj(_) => false
    case _ => true
  }

  /** The tree with every object removed, at any depth (a top-level object
      becomes the empty array). */
  function StripObjects(e: JsonElement): JsonElement
  {
    match e
    case Arr(xs) => Arr(StripObjectsAll(xs))
    case Obj(_) => Arr([])
    case _ => e
  }

  function StripObjectsAll(xs: seq<JsonElement>): seq<JsonElement>
  {
    if xs == [] then []
    else if xs[0].Obj? then StripObjectsAll(xs[1..])
    else [StripObjects(xs[0])] + StripObjectsAll(xs[1..])
  }

  /** Objects, at any depth, contribute nothing to the flattening. */
  lemma {:induction false} ObjectsContributeNothing(e: JsonElement)
    ensures ObjectFree(StripObjects(e))
    ensures Flatten(StripObjects(e)) == Flatten(e)
    decreases e, 1
  {
    match e
    case Arr(xs) => ObjectsContributeNothingAll(xs);
    case Obj(_) =>
    case _ =>
  }

  lemma {:induction false} ObjectsContributeNothingAll(xs: seq<JsonElement>)
    ensures forall i :: 0 <= i < |StripObjectsAll(xs)| ==> ObjectFree(StripObjectsAll(xs)[i])
    ensures FlattenAll(StripObjectsAll(xs)) == FlattenAll(xs)
    decreases xs, 0
  {
    if xs != [] {
      ObjectsContributeNothingAll(xs[1..]);
      if !xs[0].Obj? {
        ObjectsContributeNothing(xs[0]);
        var rest := StripObjectsAll(xs[1..]);
        assert ([StripObjects(xs[0])] + rest)[1..] == rest;
        forall i | 0 <= i < |[StripObjects(xs[0])] + rest|
          ensures ObjectFree(([StripObjects(xs[0])] + rest)[i])
        {
          if i > 0 {
            assert ([StripObjects(xs[0])] + rest)[i] == rest[i - 1];
          }
        }
      }
    }
  }

  // ---------------------------------------------------------------------
  // From the lenient reply to the strict one (`toConsultantResponse`)
  // ---------------------------------------------------------------------

  function ToConsultantOption(raw: ConsultantOptionRaw): ConsultantOption
  {
    ConsultantOption(title := raw.title, pros := StringList(raw.pros), cons := StringList(raw.cons))
  }

  /** `ConsultantResponseRaw.toConsultantResponse()`. */
  function ToConsultantResponse(raw: ConsultantResponseRaw): (r: ConsultantResponse)
    ensures r.message == raw.message
    ensures r.options.None? <==> raw.options.None?
    ensures raw.options.Some? ==>
              && |r.options.value| == |raw.options.value|
              && forall i :: 0 <= i < |raw.options.value| ==>
                   && r.options.value[i].title == raw.options.value[i].title
                   && r.options.value[i].pros == StringList(raw.options.value[i].pros)
                   && r.options.value[i].cons == StringList(raw.options.value[i].cons)
  {
    ConsultantResponse(
      message := raw.message,
      options :=
        match raw.options
        case None => None
        case Some(raws) =>
          Some(seq(|raws|, i requires 0 <= i < |raws| => ToConsultantOption(raws[i]))))
  }

  /** A string list written as a flat JSON array of strings. */
  function Strs(ss: seq<string>): (r: seq<JsonElement>)
    ensures |r| == |ss|
  {
    seq(|ss|, i requires 0 <= i < |ss| => Str(ss[i]))
  }

  /** A strict reply read through the lenient shape: every list becomes a flat
      JSON array of strings. */
  function Relax(r: ConsultantResponse): ConsultantResponseRaw
  {
    ConsultantResponseRaw(
      message := r.message,
      options :=
        match r.options
        case None => None
        case Some(opts) =>
          Some(seq(|opts|, i requires 0 <= i < |opts| =>
            ConsultantOptionRaw(opts[i].title, Some(Arr(Strs(opts[i].pros))), Some(Arr(Strs(opts[i].cons)))))))
  }

  predicate NoBlank(ss: seq<string>) {
    forall i :: 0 <= i < |ss| ==> !IsBlank(ss[i])
  }

  /** A flat array of non-blank strings flattens to those strings. */
  lemma {:induction false} FlattenFlatStrings(ss: seq<string>)
    requires NoBlank(ss)
    ensures FlattenAll(Strs(ss)) == ss
  {
    if ss != [] {
      assert Strs(ss)[1..] == Strs(ss[1..]);
      FlattenFlatStrings(ss[1..]);
    }
  }

  /** On a strict reply without blank list entries, the lenient path gives back
      the same reply: the two decoding tiers agree wherever both apply. */
  lemma LenientAgreesWithStrict(r: ConsultantResponse)
    requires r.options.Some? ==>
               forall i :: 0 <= i < |r.options.value| ==>
                 NoBlank(r.options.value[i].pros) && NoBlank(r.options.value[i].cons)
    ensures ToConsultantResponse(Relax(r)) == r
  {
    if r.options.Some? {
      var opts := r.options.value;
      var back := ToConsultantResponse(Relax(r)).options.value;
      forall i | 0 <= i < |opts| ensures back[i] == opts[i] {
        FlattenFlatStrings(opts[i].pros);
        FlattenFlatStrings(opts[i].cons);
      }
      assert back == opts;
    }
  }
}
