/** Legend items: a legend layer names a model layer or a layer id (at least
    one of them) and may carry a colour; its layer id, colour and model are
    resolved with fixed precedence. */
module Legend {
  import opened Common
  import opened Conf
  import Layers
  import Utils

  /** legend.LegendLayer. */
  datatype LegendLayer = LegendLayer(
    name: string,
    description: string,
    layer: Option<Layers.ModelLayer>,
    layerId: Option<string>,
    color: Option<string>)

  /** LegendLayer(...) with its __post_init__ check. */
  function NewLegendLayer(name: string, description: string, layer: Option<Layers.ModelLayer>,
                          layerId: Option<string>, color: Option<string>): (r: Result<LegendLayer>)
    ensures r.Failure? <==> layer.None? && layerId.None?
    ensures r.Failure? ==> r.error == ValueError
    ensures r.Success? ==> r.value == LegendLayer(name, description, layer, layerId, color)
  {
    if layer.None? && layerId.None? then Failure(ValueError)
    else Success(LegendLayer(name, description, layer, layerId, color))
  }

  /** get_layer_id: a truthy layer_id, else the id of the layer (reading an
      attribute of a missing layer is an AttributeError). */
  function GetLayerId(l: LegendLayer): (r: Result<string>)
    ensures TruthyString(l.layerId) ==> r == Success(l.layerId.value)
    ensures !TruthyString(l.layerId) && l.layer.Some? ==> r == Success(l.layer.value.id)
    ensures !TruthyString(l.layerId) && l.layer.None? ==> r == Failure(AttributeError)
  {
    if TruthyString(l.layerId) then Success(l.layerId.value)
    else if l.layer.Some? then Success(l.layer.value.id)
    else Failure(AttributeError)
  }

  /** get_color: a truthy explicit colour, else the colour of the layer's style. */
  function GetColor(s: Settings, l: LegendLayer): (r: Result<Option<Value>>)
    ensures TruthyString(l.color) ==> r == Success(Some(Str(l.color.value)))
    ensures !TruthyString(l.color) && GetLayerId(l).Failure? ==> r == Failure(AttributeError)
    ensures !TruthyString(l.color) && GetLayerId(l).Success? ==>
      && r == Utils.StyleColor(s.layerStyles, GetLayerId(l).value)
      && (r == Failure(KeyError) <==> GetLayerId(l).value !in s.layerStyles)
  {
    if TruthyString(l.color) then Success(Some(Str(l.color.value)))
    else
      var id :- GetLayerId(l);
      Utils.StyleColor(s.layerStyles, id)
  }

  /** model: the model of the layer when there is one, else the model of the
      API that get_layer_by_id finds for the layer id. */
  function Model(s: Settings, l: LegendLayer): Result<ModelRef> {
    if l.layer.Some? then Success(l.layer.value.model)
    else
      var id :- GetLayerId(l);
      var api :- Layers.LayerById(s, id);
      Success(ApiModel(api))
  }

  /** A legend layer that passed construction resolves its layer id, except
      when it was given an empty layer_id and no layer. */
  lemma ConstructedLayerId(name: string, description: string, layer: Option<Layers.ModelLayer>,
                           layerId: Option<string>, color: Option<string>)
    requires NewLegendLayer(name, description, layer, layerId, color).Success?
    ensures var l := NewLegendLayer(name, description, layer, layerId, color).value;
      GetLayerId(l).Failure? <==> layer.None? && layerId == Some("")
  {
  }

  /** The layer's own model wins over any layer id; without a layer, the
      model is that of the first API (clusters first) whose layer id is the
      resolved one, and a KeyError when none has it. */
  lemma ModelPrecedence(s: Settings, l: LegendLayer)
    ensures l.layer.Some? ==> Model(s, l) == Success(l.layer.value.model)
    ensures l.layer.None? && Model(s, l).Success? ==>
      exists api: ModelApi :: api.layerId == GetLayerId(l).value && Model(s, l).value == ApiModel(api)
        && Layers.LayerById(s, GetLayerId(l).value) == Success(api)
    ensures l.layer.None? && GetLayerId(l).Success? ==>
      (Model(s, l).Failure? <==> Layers.LayerById(s, GetLayerId(l).value).Failure?)
  {
    if l.layer.None? && Model(s, l).Success? {
      var id := GetLayerId(l).value;
      Layers.LayerByIdPrecedence(s, id);
      var api := Layers.LayerById(s, id).value;
      assert api.layerId == id && Model(s, l).value == ApiModel(api);
    }
  }
}
