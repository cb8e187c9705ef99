/**
 * The Button component schema (`ButtonActionSchema` and `ButtonSchema`): an acceptance
 * predicate over JSON, a decoder into the inferred `Button` type, and that type's JSON form.
 */
module ButtonSchema {
  import opened Wrappers
  import opened Json
  import opened Zod

  /** `z.enum(['Link', 'Button', 'Submit'])` */
  datatype ActionType = LinkAction | ButtonAction | SubmitAction

  const ActionTypeNames: set<string> := {"Link", "Button", "Submit"}

  function ActionTypeName(t: ActionType): (name: string)
    ensures name in ActionTypeNames
  {
    match t
    case LinkAction => "Link"
    case ButtonAction => "Button"
    case SubmitAction => "Submit"
  }

  function ParseActionType(f: Option<Json>): (r: Option<ActionType>)
    ensures r.Some? <==> IsEnum(f, ActionTypeNames)
    ensures r.Some? ==> f == Some(Str(ActionTypeName(r.value)))
  {
    match f
    case Some(Str("Link")) => Some(LinkAction)
    case Some(Str("Button")) => Some(ButtonAction)
    case Some(Str("Submit")) => Some(SubmitAction)
    case _ => None
  }

  datatype Action = Action(kind: ActionType, variant: string, deepLink: string)

  datatype Properties = Properties(text: string, icon: Option<string>, action: Action)

  /** `width` and `height` are `None` when the document holds `null`. */
  datatype Button = Button(
    id: string,
    variant: string,
    width: Option<real>,
    height: Option<real>,
    properties: Properties)

  /** `ButtonActionSchema`: `deep_link` is required whatever the action's type. */
  predicate ActionAccepts(v: Json)
    ensures ActionAccepts(v) ==> HasKeys(v, {"type", "variant", "deep_link"})
  {
    && v.Object?
    && IsEnum(Field(v, "type"), ActionTypeNames)
    && IsString(Field(v, "variant"))
    && IsString(Field(v, "deep_link"))
  }

  function ParseAction(v: Json): (r: Option<Action>)
    ensures r.Some? <==> ActionAccepts(v)
    ensures r.Some? ==>
      && Field(v, "type") == Some(Str(ActionTypeName(r.value.kind)))
      && Field(v, "variant") == Some(Str(r.value.variant))
      && Field(v, "deep_link") == Some(Str(r.value.deepLink))
  {
    if !v.Object? then None
    else
      var kind :- ParseActionType(Field(v, "type"));
      var variant :- AsString(Field(v, "variant"));
      var deepLink :- AsString(Field(v, "deep_link"));
      Some(Action(kind, variant, deepLink))
  }

  function ActionToJson(a: Action): Json {
    Object(map[
      "type" := Str(ActionTypeName(a.kind)),
      "variant" := Str(a.variant),
      "deep_link" := Str(a.deepLink)])
  }

  predicate PropertiesAccepts(v: Json)
    ensures PropertiesAccepts(v) ==> HasKeys(v, {"text", "action"})
    ensures PropertiesAccepts(v) ==> Field(v, "icon").None? || Field(v, "icon").value.Str?
  {
    && v.Object?
    && IsString(Field(v, "text"))
    && IsOptionalString(Field(v, "icon"))
    && Field(v, "action").Some?
    && ActionAccepts(Field(v, "action").value)
  }

  function ParseProperties(v: Json): (r: Option<Properties>)
    ensures r.Some? <==> PropertiesAccepts(v)
    ensures r.Some? ==>
      && Field(v, "text") == Some(Str(r.value.text))
      && (r.value.icon.None? <==> Field(v, "icon").None?)
      && (r.value.icon.Some? ==> Field(v, "icon") == Some(Str(r.value.icon.value)))
      && ParseAction(Field(v, "action").value) == Some(r.value.action)
  {
    if !v.Object? then None
    else
      var text :- AsString(Field(v, "text"));
      var icon :- AsOptionalString(Field(v, "icon"));
      var actionJson :- Field(v, "action");
      var action :- ParseAction(actionJson);
      Some(Properties(text, icon, action))
  }

  function PropertiesToJson(p: Properties): Json {
    Object(WithOptional(
      map["text" := Str(p.text), "action" := ActionToJson(p.action)],
      "icon", if p.icon.Some? then Some(Str(p.icon.value)) else None))
  }

  /** `ButtonSchema` */
  predicate Accepts(v: Json)
    ensures Accepts(v) ==> HasKeys(v, {"id", "type", "variant", "width", "height", "properties"})
    ensures Accepts(v) ==> Field(v, "type") == Some(Str("Button"))
  {
    && v.Object?
    && IsString(Field(v, "id"))
    && IsLiteral(Field(v, "type"), "Button")
    && IsString(Field(v, "variant"))
    && IsNullableNumber(Field(v, "width"))
    && IsNullableNumber(Field(v, "height"))
    && Field(v, "properties").Some?
    && PropertiesAccepts(Field(v, "properties").value)
  }

  function Parse(v: Json): (r: Option<Button>)
    ensures r.Some? <==> Accepts(v)
    ensures r.Some? ==>
      && Field(v, "type") == Some(Str("Button"))
      && Field(v, "id") == Some(Str(r.value.id))
      && Field(v, "variant") == Some(Str(r.value.variant))
      && Field(v, "width") == Some(NullableNumberJson(r.value.width))
      && Field(v, "height") == Some(NullableNumberJson(r.value.height))
      && ParseProperties(Field(v, "properties").value) == Some(r.value.properties)
  {
    if !v.Object? || !IsLiteral(Field(v, "type"), "Button") then None
    else
      var id :- AsString(Field(v, "id"));
      var variant :- AsString(Field(v, "variant"));
      var width :- AsNullableNumber(Field(v, "width"));
      var height :- AsNullableNumber(Field(v, "height"));
      var propertiesJson :- Field(v, "properties");
      var properties :- ParseProperties(propertiesJson);
      Some(Button(id, variant, width, height, properties))
  }

  function ToJson(b: Button): Json {
    Object(map[
      "id" := Str(b.id),
      "type" := Str("Button"),
      "variant" := Str(b.variant),
      "width" := NullableNumberJson(b.width),
      "height" := NullableNumberJson(b.height),
      "properties" := PropertiesToJson(b.properties)])
  }

  /** Every Button value, written out as JSON, is accepted and decodes to itself. */
  lemma RoundTrip(b: Button)
    ensures Parse(ToJson(b)) == Some(b)
  {
  }

  /** An action of type `Button` that has no `deep_link` is rejected, and so is the Button holding it. */
  lemma DeepLinkRequired(v: Json, action: Json)
    requires Field(v, "properties").Some? && Field(Field(v, "properties").value, "action") == Some(action)
    requires Field(action, "type") == Some(Str("Button")) && Field(action, "deep_link").None?
    ensures ParseAction(action).None?
    ensures Parse(v).None?
  {
  }
}
