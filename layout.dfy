/**
 * The layout-document schemas: the component union, the image panel, the content panel
 * and the layout itself. Decoding fills in the schema's defaults (`fit` becomes `cover`,
 * `columns` 12, `children` the empty list, `breakpoint` 768); the JSON form of a decoded
 * value writes every field out, defaults included.
 *
 * `z.string().url()` is a URL syntax check of the zod library that is not modelled; it is
 * the parameter `isUrl`, and acceptance holds for whatever predicate is supplied.
 */
module LayoutSchema {
  import opened Wrappers
  import opened Json
  import opened Zod
  import ButtonSchema
  import CardSchema

  // ---------------------------------------------------------------- components

  datatype Component = ButtonComponent(button: ButtonSchema.Button) | CardComponent(card: CardSchema.Card)

  /** What `ComponentSchema = z.union([ButtonSchema, CardSchema])` accepts. */
  predicate ComponentAccepts(v: Json)
    ensures ComponentAccepts(v) ==> HasKeys(v, {"id", "type", "variant", "width", "height", "properties"})
    ensures ComponentAccepts(v) ==> Field(v, "type") == Some(Str("Button")) || Field(v, "type") == Some(Str("Card"))
  {
    ButtonSchema.Accepts(v) || CardSchema.Accepts(v)
  }

  /** `ComponentSchema`: the members of the union are tried in order, Button first. */
  function ParseComponent(v: Json): (r: Option<Component>)
    ensures r.Some? <==> ButtonSchema.Accepts(v) || CardSchema.Accepts(v)
    ensures r.Some? && r.value.ButtonComponent? ==> ButtonSchema.Parse(v) == Some(r.value.button)
    ensures r.Some? && r.value.CardComponent? ==> CardSchema.Parse(v) == Some(r.value.card)
  {
    match ButtonSchema.Parse(v)
    case Some(b) => Some(ButtonComponent(b))
    case None =>
      match CardSchema.Parse(v)
      case Some(c) => Some(CardComponent(c))
      case None => None
  }

  /** The element schema of a content panel's `children`, `z.union([CardSchema, ButtonSchema])`: Card first. */
  function ParseChild(v: Json): (r: Option<Component>)
    ensures r.Some? <==> ComponentAccepts(v)
    ensures r.Some? && r.value.ButtonComponent? ==> ButtonSchema.Parse(v) == Some(r.value.button)
    ensures r.Some? && r.value.CardComponent? ==> CardSchema.Parse(v) == Some(r.value.card)
  {
    match CardSchema.Parse(v)
    case Some(c) => Some(CardComponent(c))
    case None =>
      match ButtonSchema.Parse(v)
      case Some(b) => Some(ButtonComponent(b))
      case None => None
  }

  /** No value is both a Button and a Card: their `type` literals differ. */
  lemma ComponentSchemasDisjoint(v: Json)
    ensures !(ButtonSchema.Accepts(v) && CardSchema.Accepts(v))
  {
  }

  /** Because the two schemas are disjoint, the order of the union's members does not matter. */
  lemma UnionOrderIrrelevant(v: Json)
    ensures ParseChild(v) == ParseComponent(v)
  {
  }

  function ComponentToJson(c: Component): Json {
    match c
    case ButtonComponent(b) => ButtonSchema.ToJson(b)
    case CardComponent(k) => CardSchema.ToJson(k)
  }

  lemma ComponentRoundTrip(c: Component)
    ensures ParseComponent(ComponentToJson(c)) == Some(c)
    ensures ParseChild(ComponentToJson(c)) == Some(c)
  {
    match c
    case ButtonComponent(b) =>
      ButtonSchema.RoundTrip(b);
    case CardComponent(k) =>
      CardSchema.RoundTrip(k);
      ComponentSchemasDisjoint(ComponentToJson(c));
  }

  // ---------------------------------------------------------------- image panel

  /** `z.union([z.number(), z.string()])` */
  datatype Dimension = NumberDimension(n: real) | StringDimension(s: string)

  predicate IsNumberOrString(f: Option<Json>) {
    IsNumber(f) || IsString(f)
  }

  function DimensionJson(d: Dimension): Json {
    match d
    case NumberDimension(n) => Number(n)
    case StringDimension(s) => Str(s)
  }

  function ParseDimension(f: Option<Json>): (r: Option<Dimension>)
    ensures r.Some? <==> IsNumberOrString(f)
    ensures r.Some? ==> f == Some(DimensionJson(r.value))
  {
    match f
    case Some(Number(n)) => Some(NumberDimension(n))
    case Some(Str(s)) => Some(StringDimension(s))
    case _ => None
  }

  datatype Image = Image(url: string, width: Dimension, height: Dimension)

  predicate ImageAccepts(v: Json, isUrl: string -> bool)
    ensures ImageAccepts(v, isUrl) ==> HasKeys(v, {"url", "width", "height"})
    ensures ImageAccepts(v, isUrl) ==> v.fields["url"].Str? && isUrl(v.fields["url"].s)
  {
    && v.Object?
    && IsString(Field(v, "url"))
    && isUrl(Field(v, "url").value.s)
    && IsNumberOrString(Field(v, "width"))
    && IsNumberOrString(Field(v, "height"))
  }

  function ParseImage(v: Json, isUrl: string -> bool): (r: Option<Image>)
    ensures r.Some? <==> ImageAccepts(v, isUrl)
    ensures r.Some? ==>
      && Field(v, "url") == Some(Str(r.value.url))
      && isUrl(r.value.url)
      && Field(v, "width") == Some(DimensionJson(r.value.width))
      && Field(v, "height") == Some(DimensionJson(r.value.height))
  {
    if !v.Object? then None
    else
      var url :- AsString(Field(v, "url"));
      if !isUrl(url) then None
      else
        var width :- ParseDimension(Field(v, "width"));
        var height :- ParseDimension(Field(v, "height"));
        Some(Image(url, width, height))
  }

  function ImageToJson(i: Image): Json {
    Object(map["url" := Str(i.url), "width" := DimensionJson(i.width), "height" := DimensionJson(i.height)])
  }

  datatype Images = Images(desktop: Image, tablet: Image, mobile: Image)

  /** All three breakpoints are required. */
  predicate ImagesAccepts(v: Json, isUrl: string -> bool)
    ensures ImagesAccepts(v, isUrl) ==> HasKeys(v, {"desktop", "tablet", "mobile"})
  {
    && v.Object?
    && Field(v, "desktop").Some? && ImageAccepts(Field(v, "desktop").value, isUrl)
    && Field(v, "tablet").Some? && ImageAccepts(Field(v, "tablet").value, isUrl)
    && Field(v, "mobile").Some? && ImageAccepts(Field(v, "mobile").value, isUrl)
  }

  function ParseImages(v: Json, isUrl: string -> bool): (r: Option<Images>)
    ensures r.Some? <==> ImagesAccepts(v, isUrl)
    ensures r.Some? ==>
      && ParseImage(Field(v, "desktop").value, isUrl) == Some(r.value.desktop)
      && ParseImage(Field(v, "tablet").value, isUrl) == Some(r.value.tablet)
      && ParseImage(Field(v, "mobile").value, isUrl) == Some(r.value.mobile)
  {
    if !v.Object? then None
    else
      var desktopJson :- Field(v, "desktop");
      var desktop :- ParseImage(desktopJson, isUrl);
      var tabletJson :- Field(v, "tablet");
      var tablet :- ParseImage(tabletJson, isUrl);
      var mobileJson :- Field(v, "mobile");
      var mobile :- ParseImage(mobileJson, isUrl);
      Some(Images(desktop, tablet, mobile))
  }

  function ImagesToJson(i: Images): Json {
    Object(map[
      "desktop" := ImageToJson(i.desktop),
      "tablet" := ImageToJson(i.tablet),
      "mobile" := ImageToJson(i.mobile)])
  }

  /** `z.enum(['cover', 'contain', 'fill'])` */
  datatype Fit = Cover | Contain | Fill

  const FitNames: set<string> := {"cover", "contain", "fill"}

  function FitName(f: Fit): (name: string)
    ensures name in FitNames
  {
    match f
    case Cover => "cover"
    case Contain => "contain"
    case Fill => "fill"
  }

  /** `.default('cover')`: an absent `fit` becomes `cover`; a present one must be in the enum and is kept. */
  function ParseFit(f: Option<Json>): (r: Option<Fit>)
    ensures r.Some? <==> f.None? || IsEnum(f, FitNames)
    ensures f.None? ==> r == Some(Cover)
    ensures r.Some? && f.Some? ==> f == Some(Str(FitName(r.value)))
  {
    match f
    case None => Some(Cover)
    case Some(Str("cover")) => Some(Cover)
    case Some(Str("contain")) => Some(Contain)
    case Some(Str("fill")) => Some(Fill)
    case _ => None
  }

  datatype ImageProperties = ImageProperties(images: Images, fit: Fit)

  datatype ImagePanel = ImagePanel(properties: ImageProperties)

  /** `ImagePanelSchema` */
  predicate ImagePanelAccepts(v: Json, isUrl: string -> bool)
    ensures ImagePanelAccepts(v, isUrl) ==> HasKeys(v, {"type", "properties"})
    ensures ImagePanelAccepts(v, isUrl) ==> Field(v, "type") == Some(Str("ImagePanel")) && HasKeys(v.fields["properties"], {"images"})
  {
    && v.Object?
    && IsLiteral(Field(v, "type"), "ImagePanel")
    && IsObject(Field(v, "properties"))
    && var p := Field(v, "properties").value;
       && Field(p, "images").Some?
       && ImagesAccepts(Field(p, "images").value, isUrl)
       && (Field(p, "fit").None? || IsEnum(Field(p, "fit"), FitNames))
  }

  function ParseImagePanel(v: Json, isUrl: string -> bool): (r: Option<ImagePanel>)
    ensures r.Some? <==> ImagePanelAccepts(v, isUrl)
    ensures r.Some? ==>
      var p := Field(v, "properties").value;
      && Field(v, "type") == Some(Str("ImagePanel"))
      && ParseImages(Field(p, "images").value, isUrl) == Some(r.value.properties.images)
      && (Field(p, "fit").None? ==> r.value.properties.fit == Cover)
      && (Field(p, "fit").Some? ==> Field(p, "fit") == Some(Str(FitName(r.value.properties.fit))))
  {
    if !v.Object? || !IsLiteral(Field(v, "type"), "ImagePanel") || !IsObject(Field(v, "properties")) then None
    else
      var p := Field(v, "properties").value;
      var imagesJson :- Field(p, "images");
      var images :- ParseImages(imagesJson, isUrl);
      var fit :- ParseFit(Field(p, "fit"));
      Some(ImagePanel(ImageProperties(images, fit)))
  }

  function ImagePanelToJson(i: ImagePanel): Json {
    Object(map[
      "type" := Str("ImagePanel"),
      "properties" := Object(map[
        "images" := ImagesToJson(i.properties.images),
        "fit" := Str(FitName(i.properties.fit))])])
  }

  /** The URLs of an image panel satisfy the URL check, which decoding enforces. */
  predicate UrlsValid(i: ImagePanel, isUrl: string -> bool) {
    var images := i.properties.images;
    isUrl(images.desktop.url) && isUrl(images.tablet.url) && isUrl(images.mobile.url)
  }

  lemma ImagePanelRoundTrip(i: ImagePanel, isUrl: string -> bool)
    requires UrlsValid(i, isUrl)
    ensures ParseImagePanel(ImagePanelToJson(i), isUrl) == Some(i)
  {
    var images := i.properties.images;
    assert ParseImage(ImageToJson(images.desktop), isUrl) == Some(images.desktop);
    assert ParseImage(ImageToJson(images.tablet), isUrl) == Some(images.tablet);
    assert ParseImage(ImageToJson(images.mobile), isUrl) == Some(images.mobile);
    assert ParseImages(ImagesToJson(images), isUrl) == Some(images);
  }

  // ---------------------------------------------------------------- content panel

  /** The panel's grid; its `display` is always the literal `grid`. */
  datatype GridLayout = GridLayout(columns: real, rows: real, width: real)

  const DefaultColumns: real := 12.0

  predicate GridLayoutAccepts(v: Json)
    ensures GridLayoutAccepts(v) ==> HasKeys(v, {"display", "rows", "width"})
  {
    && v.Object?
    && IsLiteral(Field(v, "display"), "grid")
    && IsOptionalNumber(Field(v, "columns"))
    && IsNumber(Field(v, "rows"))
    && IsNumber(Field(v, "width"))
  }

  function ParseGridLayout(v: Json): (r: Option<GridLayout>)
    ensures r.Some? <==> GridLayoutAccepts(v)
    ensures r.Some? ==>
      && Field(v, "display") == Some(Str("grid"))
      && (Field(v, "columns").None? ==> r.value.columns == DefaultColumns)
      && (Field(v, "columns").Some? ==> Field(v, "columns") == Some(Number(r.value.columns)))
      && Field(v, "rows") == Some(Number(r.value.rows))
      && Field(v, "width") == Some(Number(r.value.width))
  {
    if !v.Object? || !IsLiteral(Field(v, "display"), "grid") then None
    else
      var columns :- NumberOr(Field(v, "columns"), DefaultColumns);
      var rows :- AsNumber(Field(v, "rows"));
      var width :- AsNumber(Field(v, "width"));
      Some(GridLayout(columns, rows, width))
  }

  function GridLayoutToJson(g: GridLayout): Json {
    Object(map[
      "display" := Str("grid"),
      "columns" := Number(g.columns),
      "rows" := Number(g.rows),
      "width" := Number(g.width)])
  }

  /** `z.array(...)` of the child union: every element must decode, and the order is kept. */
  function ParseChildren(items: seq<Json>): (r: Option<seq<Component>>)
    ensures r.Some? <==> forall i :: 0 <= i < |items| ==> ComponentAccepts(items[i])
    ensures r.Some? ==>
      && |r.value| == |items|
      && forall i :: 0 <= i < |items| ==> ParseChild(items[i]) == Some(r.value[i])
  {
    if items == [] then Some([])
    else
      var first :- ParseChild(items[0]);
      var rest :- ParseChildren(items[1..]);
      Some([first] + rest)
  }

  /** `children` with `.default([])`: absent becomes the empty list; present must be an array. */
  predicate ChildrenAccepts(f: Option<Json>)
    ensures ChildrenAccepts(f) && f.Some? ==> f.value.Array?
  {
    f.None? || (f.value.Array? && forall i :: 0 <= i < |f.value.items| ==> ComponentAccepts(f.value.items[i]))
  }

  function ParseChildrenField(f: Option<Json>): (r: Option<seq<Component>>)
    ensures r.Some? <==> ChildrenAccepts(f)
    ensures f.None? ==> r == Some([])
    ensures r.Some? && f.Some? ==> ParseChildren(f.value.items) == r
  {
    match f
    case None => Some([])
    case Some(Array(items)) => ParseChildren(items)
    case _ => None
  }

  datatype ContentPanel = ContentPanel(layout: GridLayout, children: seq<Component>)

  /** `ContentPanelSchema`; its `properties` holds only `layout`. */
  predicate ContentPanelAccepts(v: Json)
    ensures ContentPanelAccepts(v) ==> HasKeys(v, {"type", "properties"})
    ensures ContentPanelAccepts(v) ==> Field(v, "type") == Some(Str("ContentPanel")) && HasKeys(v.fields["properties"], {"layout"})
  {
    && v.Object?
    && IsLiteral(Field(v, "type"), "ContentPanel")
    && IsObject(Field(v, "properties"))
    && Field(Field(v, "properties").value, "layout").Some?
    && GridLayoutAccepts(Field(Field(v, "properties").value, "layout").value)
    && ChildrenAccepts(Field(v, "children"))
  }

  function ParseContentPanel(v: Json): (r: Option<ContentPanel>)
    ensures r.Some? <==> ContentPanelAccepts(v)
    ensures r.Some? ==>
      && Field(v, "type") == Some(Str("ContentPanel"))
      && ParseGridLayout(Field(Field(v, "properties").value, "layout").value) == Some(r.value.layout)
      && ParseChildrenField(Field(v, "children")) == Some(r.value.children)
  {
    if !v.Object? || !IsLiteral(Field(v, "type"), "ContentPanel") || !IsObject(Field(v, "properties")) then None
    else
      var layoutJson :- Field(Field(v, "properties").value, "layout");
      var layout :- ParseGridLayout(layoutJson);
      var children :- ParseChildrenField(Field(v, "children"));
      Some(ContentPanel(layout, children))
  }

  function ChildrenToJson(cs: seq<Component>): (items: seq<Json>)
    ensures |items| == |cs|
  {
    if cs == [] then [] else [ComponentToJson(cs[0])] + ChildrenToJson(cs[1..])
  }

  function ContentPanelToJson(c: ContentPanel): Json {
    Object(map[
      "type" := Str("ContentPanel"),
      "properties" := Object(map["layout" := GridLayoutToJson(c.layout)]),
      "children" := Array(ChildrenToJson(c.children))])
  }

  lemma {:induction false} ChildrenRoundTrip(cs: seq<Component>)
    ensures ParseChildren(ChildrenToJson(cs)) == Some(cs)
  {
    if cs != [] {
      ComponentRoundTrip(cs[0]);
      ChildrenRoundTrip(cs[1..]);
      assert ChildrenToJson(cs)[1..] == ChildrenToJson(cs[1..]);
      assert [cs[0]] + cs[1..] == cs;
    }
  }

  lemma ContentPanelRoundTrip(c: ContentPanel)
    ensures ParseContentPanel(ContentPanelToJson(c)) == Some(c)
  {
    var v := ContentPanelToJson(c);
    var layoutJson := GridLayoutToJson(c.layout);
    assert ParseGridLayout(layoutJson) == Some(c.layout);
    ChildrenRoundTrip(c.children);
    assert Field(v, "children") == Some(Array(ChildrenToJson(c.children)));
    assert ParseChildrenField(Field(v, "children")) == Some(c.children);
    assert Field(Field(v, "properties").value, "layout") == Some(layoutJson);
  }

  /** The two panel schemas are disjoint: their `type` literals differ. */
  lemma PanelSchemasDisjoint(v: Json, isUrl: string -> bool)
    ensures !(ImagePanelAccepts(v, isUrl) && ContentPanelAccepts(v))
  {
  }

  // ---------------------------------------------------------------- layout

  datatype Rgba = Rgba(r: real, g: real, b: real, a: real)

  const DefaultBreakpoint: real := 768.0

  datatype LayoutProperties = LayoutProperties(breakpoint: real, backgroundColor: Option<Rgba>)

  datatype Panels = Panels(left: ImagePanel, right: ContentPanel)

  datatype Layout = Layout(
    id: string,
    variant: string,
    width: Option<real>,
    height: Option<real>,
    properties: LayoutProperties,
    panels: Panels)

  predicate RgbaAccepts(v: Json)
    ensures RgbaAccepts(v) ==> HasKeys(v, {"r", "g", "b", "a"})
  {
    && v.Object?
    && IsNumber(Field(v, "r"))
    && IsNumber(Field(v, "g"))
    && IsNumber(Field(v, "b"))
    && IsNumber(Field(v, "a"))
  }

  function ParseRgba(v: Json): (r: Option<Rgba>)
    ensures r.Some? <==> RgbaAccepts(v)
    ensures r.Some? ==>
      && Field(v, "r") == Some(Number(r.value.r))
      && Field(v, "g") == Some(Number(r.value.g))
      && Field(v, "b") == Some(Number(r.value.b))
      && Field(v, "a") == Some(Number(r.value.a))
  {
    if !v.Object? then None
    else
      var red :- AsNumber(Field(v, "r"));
      var green :- AsNumber(Field(v, "g"));
      var blue :- AsNumber(Field(v, "b"));
      var alpha :- AsNumber(Field(v, "a"));
      Some(Rgba(red, green, blue, alpha))
  }

  function RgbaToJson(c: Rgba): Json {
    Object(map["r" := Number(c.r), "g" := Number(c.g), "b" := Number(c.b), "a" := Number(c.a)])
  }

  /** `responsive` is a required object whose `breakpoint` defaults to 768; `backgroundColor` is optional. */
  predicate LayoutPropertiesAccepts(v: Json)
    ensures LayoutPropertiesAccepts(v) ==> HasKeys(v, {"responsive"})
  {
    && v.Object?
    && IsObject(Field(v, "responsive"))
    && IsOptionalNumber(Field(Field(v, "responsive").value, "breakpoint"))
    && (Field(v, "backgroundColor").None? || RgbaAccepts(Field(v, "backgroundColor").value))
  }

  function ParseLayoutProperties(v: Json): (r: Option<LayoutProperties>)
    ensures r.Some? <==> LayoutPropertiesAccepts(v)
    ensures r.Some? ==>
      var b := Field(Field(v, "responsive").value, "breakpoint");
      && (b.None? ==> r.value.breakpoint == DefaultBreakpoint)
      && (b.Some? ==> b == Some(Number(r.value.breakpoint)))
      && (r.value.backgroundColor.None? <==> Field(v, "backgroundColor").None?)
      && (r.value.backgroundColor.Some? ==>
            ParseRgba(Field(v, "backgroundColor").value) == Some(r.value.backgroundColor.value))
  {
    if !v.Object? || !IsObject(Field(v, "responsive")) then None
    else
      var breakpoint :- NumberOr(Field(Field(v, "responsive").value, "breakpoint"), DefaultBreakpoint);
      match Field(v, "backgroundColor")
      case None => Some(LayoutProperties(breakpoint, None))
      case Some(c) =>
        var color :- ParseRgba(c);
        Some(LayoutProperties(breakpoint, Some(color)))
  }

  function LayoutPropertiesToJson(p: LayoutProperties): Json {
    Object(WithOptional(
      map["responsive" := Object(map["breakpoint" := Number(p.breakpoint)])],
      "backgroundColor", if p.backgroundColor.Some? then Some(RgbaToJson(p.backgroundColor.value)) else None))
  }

  /** `panels.left` must be an image panel and `panels.right` a content panel. */
  predicate PanelsAccepts(v: Json, isUrl: string -> bool)
    ensures PanelsAccepts(v, isUrl) ==> HasKeys(v, {"left", "right"})
    ensures PanelsAccepts(v, isUrl) ==> Field(v.fields["left"], "type") == Some(Str("ImagePanel")) && Field(v.fields["right"], "type") == Some(Str("ContentPanel"))
  {
    && v.Object?
    && Field(v, "left").Some? && ImagePanelAccepts(Field(v, "left").value, isUrl)
    && Field(v, "right").Some? && ContentPanelAccepts(Field(v, "right").value)
  }

  function ParsePanels(v: Json, isUrl: string -> bool): (r: Option<Panels>)
    ensures r.Some? <==> PanelsAccepts(v, isUrl)
    ensures r.Some? ==>
      && ParseImagePanel(Field(v, "left").value, isUrl) == Some(r.value.left)
      && ParseContentPanel(Field(v, "right").value) == Some(r.value.right)
  {
    if !v.Object? then None
    else
      var leftJson :- Field(v, "left");
      var left :- ParseImagePanel(leftJson, isUrl);
      var rightJson :- Field(v, "right");
      var right :- ParseContentPanel(rightJson);
      Some(Panels(left, right))
  }

  /** `LayoutSchema` */
  predicate LayoutAccepts(v: Json, isUrl: string -> bool)
    ensures LayoutAccepts(v, isUrl) ==> HasKeys(v, {"id", "type", "variant", "properties", "panels"})
    ensures LayoutAccepts(v, isUrl) ==> Field(v, "type") == Some(Str("Layout"))
  {
    && v.Object?
    && IsString(Field(v, "id"))
    && IsLiteral(Field(v, "type"), "Layout")
    && IsString(Field(v, "variant"))
    && IsOptionalNumber(Field(v, "width"))
    && IsOptionalNumber(Field(v, "height"))
    && Field(v, "properties").Some? && LayoutPropertiesAccepts(Field(v, "properties").value)
    && Field(v, "panels").Some? && PanelsAccepts(Field(v, "panels").value, isUrl)
  }

  function ParseLayout(v: Json, isUrl: string -> bool): (r: Option<Layout>)
    ensures r.Some? <==> LayoutAccepts(v, isUrl)
    ensures r.Some? ==>
      && Field(v, "type") == Some(Str("Layout"))
      && Field(v, "id") == Some(Str(r.value.id))
      && Field(v, "variant") == Some(Str(r.value.variant))
      && (r.value.width.None? <==> Field(v, "width").None?)
      && (r.value.width.Some? ==> Field(v, "width") == Some(Number(r.value.width.value)))
      && (r.value.height.None? <==> Field(v, "height").None?)
      && (r.value.height.Some? ==> Field(v, "height") == Some(Number(r.value.height.value)))
      && ParseLayoutProperties(Field(v, "properties").value) == Some(r.value.properties)
      && ParsePanels(Field(v, "panels").value, isUrl) == Some(r.value.panels)
  {
    if !v.Object? || !IsLiteral(Field(v, "type"), "Layout") then None
    else
      var id :- AsString(Field(v, "id"));
      var variant :- AsString(Field(v, "variant"));
      var width :- AsOptionalNumber(Field(v, "width"));
      var height :- AsOptionalNumber(Field(v, "height"));
      var propertiesJson :- Field(v, "properties");
      var properties :- ParseLayoutProperties(propertiesJson);
      var panelsJson :- Field(v, "panels");
      var panels :- ParsePanels(panelsJson, isUrl);
      Some(Layout(id, variant, width, height, properties, panels))
  }

  function OptionalNumberField(m: map<string, Json>, key: string, x: Option<real>): map<string, Json> {
    WithOptional(m, key, if x.Some? then Some(Number(x.value)) else None)
  }

  function LayoutToJson(l: Layout): Json {
    Object(OptionalNumberField(OptionalNumberField(
      map[
        "id" := Str(l.id),
        "type" := Str("Layout"),
        "variant" := Str(l.variant),
        "properties" := LayoutPropertiesToJson(l.properties),
        "panels" := PanelsToJson(l.panels)],
      "width", l.width), "height", l.height))
  }

  lemma LayoutPropertiesRoundTrip(p: LayoutProperties)
    ensures ParseLayoutProperties(LayoutPropertiesToJson(p)) == Some(p)
  {
  }

  function PanelsToJson(p: Panels): Json {
    Object(map["left" := ImagePanelToJson(p.left), "right" := ContentPanelToJson(p.right)])
  }

  lemma PanelsRoundTrip(p: Panels, isUrl: string -> bool)
    requires UrlsValid(p.left, isUrl)
    ensures ParsePanels(PanelsToJson(p), isUrl) == Some(p)
  {
    ImagePanelRoundTrip(p.left, isUrl);
    ContentPanelRoundTrip(p.right);
  }

  /** How each declared key of a layout's JSON form reads back. */
  lemma LayoutJsonFields(l: Layout)
    ensures var v := LayoutToJson(l);
      && v.Object?
      && Field(v, "id") == Some(Str(l.id))
      && Field(v, "type") == Some(Str("Layout"))
      && Field(v, "variant") == Some(Str(l.variant))
      && AsOptionalNumber(Field(v, "width")) == Some(l.width)
      && AsOptionalNumber(Field(v, "height")) == Some(l.height)
      && Field(v, "properties") == Some(LayoutPropertiesToJson(l.properties))
      && Field(v, "panels") == Some(PanelsToJson(l.panels))
  {
  }

  /** Every layout whose image URLs pass the URL check, written out as JSON, decodes to itself. */
  lemma LayoutRoundTrip(l: Layout, isUrl: string -> bool)
    requires UrlsValid(l.panels.left, isUrl)
    ensures ParseLayout(LayoutToJson(l), isUrl) == Some(l)
  {
    LayoutPropertiesRoundTrip(l.properties);
    PanelsRoundTrip(l.panels, isUrl);
    LayoutJsonFields(l);
  }

  /** A layout whose panels are swapped (a content panel on the left, an image panel on the right) is rejected. */
  lemma SwappedPanelsRejected(v: Json, isUrl: string -> bool)
    requires Field(v, "panels").Some?
    requires Field(Field(v, "panels").value, "left").Some?
    requires ContentPanelAccepts(Field(Field(v, "panels").value, "left").value)
    ensures ParseLayout(v, isUrl).None?
  {
  }
}
