/** Helpers over the settings: the colour of a layer read from its paint
    style, and the combinations of setup options a layer's setup model offers. */
module Utils {
  import opened Common

  // ---------------------------------------------------------------------------
  // get_color

  /** The paint keys get_color tries, in priority order. */
  const ColorKeys := ["fill-color", "line-color", "circle-color"]

  /** The value of the first of the keys that the paint dict holds. */
  function FirstColor(paint: map<string, Value>, keys: seq<string>): (r: Option<Value>)
    ensures r.Some? <==> exists i :: 0 <= i < |keys| && keys[i] in paint
    ensures r.Some? ==>
      exists i :: 0 <= i < |keys| && keys[i] in paint && r.value == paint[keys[i]]
        && forall j :: 0 <= j < i ==> keys[j] !in paint
  {
    if keys == [] then None
    else if keys[0] in paint then Some(paint[keys[0]])
    else
      var r := FirstColor(paint, keys[1..]);
      assert r.Some? ==> exists i :: (0 <= i < |keys[1..]| && keys[1..][i] in paint && r.value == paint[keys[1..][i]]
        && forall j :: 0 <= j < i ==> keys[1..][j] !in paint);
      if r.Some? then
        var i :| 0 <= i < |keys[1..]| && keys[1..][i] in paint && r.value == paint[keys[1..][i]]
          && forall j :: 0 <= j < i ==> keys[1..][j] !in paint;
        assert keys[i + 1] in paint && r.value == paint[keys[i + 1]];
        assert forall j :: 0 < j < i + 1 ==> keys[j] == keys[1..][j - 1];
        r
      else
        assert forall i :: 0 < i < |keys| ==> keys[i] == keys[1..][i - 1];
        r
  }

  /** utils.get_color over MAP_ENGINE_LAYER_STYLES: KeyError for an unknown
      layer; a paint entry that is not a dict cannot be indexed (TypeError);
      a missing paint entry or missing colour keys are skipped, giving None. */
  function StyleColor(styles: map<string, map<string, Value>>, layer: string): (r: Result<Option<Value>>)
    ensures r == Failure(KeyError) <==> layer !in styles
    ensures r == Failure(TypeError) <==> layer in styles && "paint" in styles[layer] && !styles[layer]["paint"].Obj?
    ensures r == Success(None) <==>
      layer in styles &&
      ("paint" !in styles[layer] ||
       (styles[layer]["paint"].Obj? && forall k :: k in ColorKeys ==> k !in styles[layer]["paint"].fields))
    ensures r.Success? && r.value.Some? ==>
      exists i :: 0 <= i < |ColorKeys| && ColorKeys[i] in styles[layer]["paint"].fields
        && r.value.value == styles[layer]["paint"].fields[ColorKeys[i]]
        && forall j :: 0 <= j < i ==> ColorKeys[j] !in styles[layer]["paint"].fields
  {
    if layer !in styles then Failure(KeyError)
    else if "paint" !in styles[layer] then Success(None)
    else
      match styles[layer]["paint"]
      case Obj(paint) => Success(FirstColor(paint, ColorKeys))
      case _ => Failure(TypeError)
  }

  /** get_color: tries styles[layer]["paint"][key] for each colour key,
      continuing on KeyError and returning the first value found. */
  method GetColor(styles: map<string, map<string, Value>>, layer: string) returns (r: Result<Option<Value>>)
    ensures r == StyleColor(styles, layer)
  {
    if layer !in styles {
      return Failure(KeyError);
    }
    var style := styles[layer];
    var i := 0;
    while i < |ColorKeys|
      invariant 0 <= i <= |ColorKeys|
      invariant forall j :: 0 <= j < i ==>
        "paint" !in style || (style["paint"].Obj? && ColorKeys[j] !in style["paint"].fields)
    {
      var colorKey := ColorKeys[i];
      i := i + 1;
      if "paint" !in style {
        continue;
      }
      var paint := style["paint"];
      if !paint.Obj? {
        return Failure(TypeError);
      }
      if colorKey !in paint.fields {
        continue;
      }
      return Success(Some(paint.fields[colorKey]));
    }
    if "paint" in style {
      assert ColorKeys[0] == "fill-color";
      assert style["paint"].Obj?;
      assert FirstColor(style["paint"].fields, ColorKeys) == None;
    }
    return Success(None);
  }

  // ---------------------------------------------------------------------------
  // get_layer_setups

  /** The kind of a field of a setup model; an integer field carries the
      rendered first elements of its choices, or None when it has none. */
  datatype FieldKind = IntegerField(choices: Option<seq<string>>) | BooleanField | OtherField

  datatype Field = Field(name: string, kind: FieldKind)

  /** The list of "name=value" options one field contributes, None for a
      field that is skipped ("id" and fields neither integer nor boolean),
      and TypeError for an integer field without choices. */
  function FieldOptions(f: Field): (r: Result<Option<seq<string>>>)
    ensures r.Failure? <==> f.name != "id" && f.kind == IntegerField(None)
    ensures r.Failure? ==> r.error == TypeError
    ensures r == Success(None) <==> f.name == "id" || f.kind.OtherField?
    ensures r.Success? && r.value.Some? ==>
      var options := r.value.value;
      && (f.kind.BooleanField? ==> options == [f.name + "=True", f.name + "=False"])
      && (f.kind.IntegerField? ==>
            |options| == |f.kind.choices.value|
            && forall i :: 0 <= i < |options| ==> options[i] == f.name + "=" + f.kind.choices.value[i])
  {
    if f.name == "id" then Success(None)
    else
      match f.kind
      case IntegerField(choices) =>
        if choices.None? then Failure(TypeError)
        else Success(Some(seq(|choices.value|, i requires 0 <= i < |choices.value| => f.name + "=" + choices.value[i])))
      case BooleanField => Success(Some([f.name + "=True", f.name + "=False"]))
      case OtherField => Success(None)
  }

  /** The option lists of the first fields, in field order. */
  function OptionLists(fields: seq<Field>): Result<seq<seq<string>>> {
    if fields == [] then Success([])
    else
      var init :- OptionLists(fields[..|fields| - 1]);
      var last :- FieldOptions(fields[|fields| - 1]);
      if last.Some? then Success(init + [last.value]) else Success(init)
  }

  /** The lists prefixed with each element of xs in turn. */
  function PrependAll(xs: seq<string>, ps: seq<seq<string>>): seq<seq<string>> {
    if xs == [] then []
    else seq(|ps|, j requires 0 <= j < |ps| => [xs[0]] + ps[j]) + PrependAll(xs[1..], ps)
  }

  /** itertools.product of the lists, the last list varying fastest. */
  function Product(lists: seq<seq<string>>): seq<seq<string>> {
    if lists == [] then [[]] else PrependAll(lists[0], Product(lists[1..]))
  }

  /** get_layer_setups over the fields of the setup model. */
  function LayerSetups(fields: seq<Field>): Result<seq<seq<string>>> {
    var lists :- OptionLists(fields);
    Success(Product(lists))
  }

  lemma {:induction false} OptionListsFailureStays(fields: seq<Field>, i: nat)
    requires i <= |fields|
    requires OptionLists(fields[..i]).Failure?
    ensures OptionLists(fields) == OptionLists(fields[..i])
  {
    if i < |fields| {
      assert fields[..|fields| - 1][..i] == fields[..i];
      OptionListsFailureStays(fields[..|fields| - 1], i);
    } else {
      assert fields[..i] == fields;
    }
  }

  /** get_layer_setups: appends the option list of every field it does not
      skip, then takes the product of the lists. */
  method GetLayerSetups(fields: seq<Field>) returns (r: Result<seq<seq<string>>>)
    ensures r == LayerSetups(fields)
  {
    var setups: seq<seq<string>> := [];
    for i := 0 to |fields|
      invariant OptionLists(fields[..i]) == Success(setups)
    {
      assert fields[..i + 1][..i] == fields[..i];
      var setup := fields[i];
      if setup.name == "id" {
        continue;
      }
      match setup.kind {
        case IntegerField(choices) =>
          if choices.None? {
            OptionListsFailureStays(fields, i + 1);
            return Failure(TypeError);
          }
          var options := seq(|choices.value|, k requires 0 <= k < |choices.value| => setup.name + "=" + choices.value[k]);
          setups := setups + [options];
        case BooleanField =>
          setups := setups + [[setup.name + "=True", setup.name + "=False"]];
        case OtherField =>
      }
    }
    assert fields[..|fields|] == fields;
    return Success(Product(setups));
  }

  /** Every option list belongs to a field that is not skipped, and fails only
      on an integer field without choices. */
  lemma {:induction false} OptionListsFromFields(fields: seq<Field>)
    ensures OptionLists(fields).Failure? <==>
      exists k :: 0 <= k < |fields| && fields[k].name != "id" && fields[k].kind == IntegerField(None)
    ensures OptionLists(fields).Success? ==>
      forall l :: l in OptionLists(fields).value ==>
        exists k :: 0 <= k < |fields| && FieldOptions(fields[k]) == Success(Some(l))
  {
    if fields != [] {
      var init := fields[..|fields| - 1];
      OptionListsFromFields(init);
      assert forall k :: 0 <= k < |init| ==> init[k] == fields[k];
      if OptionLists(init).Success? && OptionLists(fields).Failure? {
        assert FieldOptions(fields[|fields| - 1]).Failure?;
      }
    }
  }

  /** The product of the lengths of the lists. */
  function LengthProduct(lists: seq<seq<string>>): nat {
    if lists == [] then 1 else |lists[0]| * LengthProduct(lists[1..])
  }

  lemma {:induction false} PrependAllMembers(xs: seq<string>, ps: seq<seq<string>>, t: seq<string>)
    ensures |PrependAll(xs, ps)| == |xs| * |ps|
    ensures t in PrependAll(xs, ps) <==> |t| > 0 && t[0] in xs && t[1..] in ps
  {
    if xs != [] {
      PrependAllMembers(xs[1..], ps, t);
      var front := seq(|ps|, j requires 0 <= j < |ps| => [xs[0]] + ps[j]);
      if t in front {
        var j :| 0 <= j < |ps| && t == front[j];
        assert t[1..] == ps[j];
      }
      if |t| > 0 && t[0] == xs[0] && t[1..] in ps {
        var j :| 0 <= j < |ps| && t[1..] == ps[j];
        assert t == [xs[0]] + t[1..];
        assert t == front[j];
      }
      assert |xs| * |ps| == |ps| + |xs[1..]| * |ps|;
    }
  }

  /** The product holds exactly the sequences that take their i-th element
      from the i-th list, and there are as many as the product of the lengths. */
  lemma {:induction false} ProductMembers(lists: seq<seq<string>>, t: seq<string>)
    ensures |Product(lists)| == LengthProduct(lists)
    ensures t in Product(lists) <==> |t| == |lists| && forall i :: 0 <= i < |t| ==> t[i] in lists[i]
  {
    if lists == [] {
      assert t in Product(lists) <==> t == [];
    } else {
      var rest := Product(lists[1..]);
      if |t| > 0 {
        ProductMembers(lists[1..], t[1..]);
      } else {
        ProductMembers(lists[1..], t);
      }
      PrependAllMembers(lists[0], rest, t);
      if |t| == |lists| && |t| > 0 {
        if forall i :: 0 <= i < |t| ==> t[i] in lists[i] {
          assert forall i :: 0 <= i < |t[1..]| ==> t[1..][i] == t[i + 1];
        }
        if t[0] in lists[0] && forall i :: 0 <= i < |t[1..]| ==> t[1..][i] in lists[1..][i] {
          forall i | 0 < i < |t|
            ensures t[i] in lists[i]
          {
            assert t[1..][i - 1] == t[i];
          }
        }
      }
    }
  }

  /** The setups are the combinations of one option per kept field. */
  lemma LayerSetupsMembers(fields: seq<Field>, t: seq<string>)
    requires LayerSetups(fields).Success?
    ensures var lists := OptionLists(fields).value;
      && |LayerSetups(fields).value| == LengthProduct(lists)
      && (t in LayerSetups(fields).value <==> |t| == |lists| && forall i :: 0 <= i < |t| ==> t[i] in lists[i])
  {
    ProductMembers(OptionLists(fields).value, t);
  }
}
