# Figma layout extraction, layout schemas and tool matching, modelled in Dafny

This project models three pure pieces of a Next.js application that turns Figma design
files into layout documents for a two-panel UI:

- **The Figma route** (`src/app/api/figma/route.ts`). `traverseNode` walks a Figma node tree.
  DOCUMENT and CANVAS nodes pass through to their first child. A COMPONENT becomes a flat
  record listing its direct INSTANCE children. Every other node becomes `null`.
  `traverseLayout` maps that over a node's children and drops the nulls.
  `handleFigmaError` turns a failed fetch into `{error, status}`. The GET handler answers
  with 400 for a missing `fileId`, 200 with the traversal result, or the thrown error's
  status (500 when it has none).
- **The layout-document schemas** (`src/types/components/*.ts`). These are zod schemas
  for Button, Card, Grid, ImagePanel, ContentPanel and Layout. Each schema is modelled
  three ways: an acceptance predicate over a JSON datatype (`Accepts`, `...Accepts`); a
  decoder into the inferred TypeScript type (`Parse`, `Parse...`), which fills in the
  schema's defaults; and that type's JSON form (`ToJson`, `...ToJson`). The decoder
  succeeds exactly when the predicate holds. Round-trip lemmas tie it to the JSON form.
- **The tool registry** (`src/app/lib/toolRegistry.ts`). `mapAndExecuteTool` lower-cases
  the command and picks the first registry key, in declaration order, that the command
  includes. It then runs that key's tool, or returns a fixed error.

Files: `wrappers.dfy` (Option), `json.dfy` (JSON values, property lookup, truthiness),
`zod.dfy` (the zod primitives: string, number, nullable, optional, default, literal,
enum, object), `button.dfy`, `card.dfy`, `grid.dfy`, `layout.dfy`, `figma_route.dfy`,
`tool_registry.dfy`.

Modelling decisions:

- A JSON number is a `real`. JSON has no NaN or infinity, so in the Figma route the only
  falsy number is 0.
- An absent key is `None`, which stands for JavaScript's `undefined`. A present `null` is
  the JSON value `Null`. This keeps zod's optional (may be absent) apart from nullable
  (may be `null`).
- A Figma node is a datatype whose `children` is a sequence. An absent `children` array is
  the empty sequence. Every use in the route treats the two alike: `children?.length` is
  falsy, and `filter`/`find`/`map` over `[]` give nothing.
- `z.string().url()` is the function parameter `isUrl`. The schemas hold for any URL check.
- The registry's tools are the function parameter `run`. It maps a key and the parameters
  to a returned value or a thrown error with an optional `message`.
- The GET handler gets the fetch's outcome as a parameter, `FetchResult`. On a fetch
  failure the response body is the thrown object's `error` field itself (for example, the
  bare string "Failed to fetch Figma data"), not an object wrapping it; the model keeps
  this.

Two facts about the route that the model keeps:

- DOCUMENT and CANVAS pass through to `children[0]` even when that child gives `null`;
  later children are never tried (`FirstChildOnlyExample`).
- A missing instance text is `null`.

The route only extracts COMPONENT records; it does not assemble or validate a layout.

## Model

| member | source | states |
|---|---|---|
| ButtonSchema.ParseActionType | src/types/components/button.ts:4 | the action type decodes exactly when it is one of `Link`, `Button`, `Submit`, and the decoded name is the input string |
| ButtonSchema.ActionAccepts | src/types/components/button.ts:3-7 | an accepted action is an object holding `type`, `variant` and `deep_link` |
| ButtonSchema.ParseAction | src/types/components/button.ts:3-7 | an action decodes exactly when it is an object with an enum `type` and string `variant` and `deep_link`; the decoded fields are the input's |
| ButtonSchema.PropertiesAccepts | src/types/components/button.ts:15-19 | accepted properties hold `text` and `action`; `icon` is absent or a string |
| ButtonSchema.ParseProperties | src/types/components/button.ts:15-19 | properties decode exactly when `text` is a string, `icon` is absent or a string, and `action` is a valid action; `icon` is absent in the output exactly when absent in the input |
| ButtonSchema.Accepts | src/types/components/button.ts:9-20 | an accepted Button holds `id`, `type`, `variant`, `width`, `height` and `properties` (`width`/`height` may be `null` but not absent), and its `type` is `Button` |
| ButtonSchema.Parse | src/types/components/button.ts:9-20 | a Button decodes exactly when `Accepts` holds: `type` is the literal `Button`, `id`/`variant` are strings, `width`/`height` are present and number-or-null, and `properties` is valid; every decoded field is the input's |
| ButtonSchema.RoundTrip | src/types/components/button.ts:9-20 | every Button value's JSON form is accepted and decodes back to the same value |
| ButtonSchema.DeepLinkRequired | src/types/components/button.ts:3-7 | an action of type `Button` without `deep_link` is rejected, and so is the Button that holds it |
| CardSchema.ParseActionType | src/types/components/card.ts:4 | the action type decodes exactly when it is one of `Link`, `Button`, `Submit` |
| CardSchema.ActionAccepts | src/types/components/card.ts:3-7 | an accepted action is an object holding `type`, `variant` and `deep_link` |
| CardSchema.ParseAction | src/types/components/card.ts:3-7 | an action decodes exactly when it has an enum `type` and string `variant` and `deep_link`; the decoded fields are the input's |
| CardSchema.PropertiesAccepts | src/types/components/card.ts:15-19 | accepted properties hold `text` and `action`; `icon` is absent or a string |
| CardSchema.ParseProperties | src/types/components/card.ts:15-19 | properties decode exactly when `text` is a string, `icon` is absent or a string, and `action` is valid |
| CardSchema.Accepts | src/types/components/card.ts:9-20 | an accepted Card holds `id`, `type`, `variant`, `width`, `height` and `properties`, and its `type` is `Card` |
| CardSchema.Parse | src/types/components/card.ts:9-20 | a Card decodes exactly when `type` is the literal `Card` and the other fields are valid, as for Button; every decoded field is the input's |
| CardSchema.RoundTrip | src/types/components/card.ts:9-20 | every Card value's JSON form is accepted and decodes back to the same value |
| CardSchema.ActionFieldsRequired | src/types/components/card.ts:5-6 | an action lacking `variant` or `deep_link` is rejected, and so is the Card that holds it |
| GridSchema.Accepts | src/types/components/grid.ts:3-8 | an accepted grid holds `colStart`, `colSpan` and `rowStart` |
| GridSchema.Parse | src/types/components/grid.ts:3-8 | a grid decodes exactly when `colStart`, `colSpan` and `rowStart` are numbers and `rowSpan` is absent or a number; the decoded fields are the input's |
| GridSchema.RoundTrip | src/types/components/grid.ts:3-8 | every grid value's JSON form decodes back to the same value |
| GridSchema.NoRangeConstraint | src/types/components/grid.ts:3-8 | any three numbers, zero and negative included, form an accepted grid |
| LayoutSchema.ComponentAccepts | src/types/components/layout.ts:6-10 | an accepted component holds every key a Button or Card requires, and its `type` is `Button` or `Card` |
| LayoutSchema.ParseComponent | src/types/components/layout.ts:6-10 | the component union accepts a value exactly when the Button or the Card schema does, and decodes it with the schema that accepts it |
| LayoutSchema.ComponentSchemasDisjoint | src/types/components/layout.ts:6-10 | no value is accepted by both the Button and the Card schema |
| LayoutSchema.ComponentRoundTrip | src/types/components/layout.ts:6-10 | every component's JSON form decodes back to the same component under both unions |
| LayoutSchema.ParseChild | src/types/components/layout.ts:46 | the Card-first child union accepts exactly what the component union accepts |
| LayoutSchema.UnionOrderIrrelevant | src/types/components/layout.ts:46 | the Card-first union and the Button-first union decode every value identically |
| LayoutSchema.ParseDimension | src/types/components/layout.ts:18-19 | an image dimension decodes exactly when it is a number or a string, and keeps that value |
| LayoutSchema.ImageAccepts | src/types/components/layout.ts:16-20 | an accepted image holds `url`, `width` and `height`, and its `url` is a string passing the URL check |
| LayoutSchema.ParseImage | src/types/components/layout.ts:16-20 | an image decodes exactly when `url` is a string passing the URL check and `width`/`height` are number-or-string |
| LayoutSchema.ImagesAccepts | src/types/components/layout.ts:15-31 | accepted images hold all of `desktop`, `tablet` and `mobile` |
| LayoutSchema.ParseImages | src/types/components/layout.ts:15-31 | the images object decodes exactly when all three breakpoints, desktop, tablet and mobile, are present and valid |
| LayoutSchema.ParseFit | src/types/components/layout.ts:32 | `fit` is accepted when absent or one of `cover`/`contain`/`fill`; absent becomes `cover`, a present value is kept |
| LayoutSchema.ImagePanelAccepts | src/types/components/layout.ts:12-34 | an accepted image panel holds `type` and `properties`, its `type` is `ImagePanel`, and its properties hold `images` |
| LayoutSchema.ParseImagePanel | src/types/components/layout.ts:12-34 | an image panel decodes exactly when `type` is `ImagePanel` and its images and fit are valid; absent `fit` decodes to `cover` |
| LayoutSchema.ImagePanelRoundTrip | src/types/components/layout.ts:12-34 | an image panel whose URLs pass the URL check decodes from its JSON form back to itself |
| LayoutSchema.PanelSchemasDisjoint | src/types/components/layout.ts:12-47 | no value is both an image panel and a content panel |
| LayoutSchema.GridLayoutAccepts | src/types/components/layout.ts:39-44 | an accepted panel grid holds `display`, `rows` and `width` |
| LayoutSchema.ParseGridLayout | src/types/components/layout.ts:39-44 | the panel grid decodes exactly when `display` is `grid`, `rows`/`width` are numbers and `columns` is absent or a number; absent `columns` becomes 12 |
| LayoutSchema.ParseChildren | src/types/components/layout.ts:46 | a children array decodes exactly when every element is a Card or a Button, to a list of the same length whose i-th entry decodes the i-th element |
| LayoutSchema.ChildrenAccepts | src/types/components/layout.ts:46 | a present, accepted `children` is an array |
| LayoutSchema.ParseChildrenField | src/types/components/layout.ts:46 | absent `children` becomes the empty list; a present one must be an array and decodes element by element |
| LayoutSchema.ChildrenRoundTrip | src/types/components/layout.ts:46 | every list of components, written as a JSON array, decodes back to the same list in the same order |
| LayoutSchema.ContentPanelAccepts | src/types/components/layout.ts:36-47 | an accepted content panel holds `type` and `properties`, its `type` is `ContentPanel`, and its properties hold `layout` |
| LayoutSchema.ParseContentPanel | src/types/components/layout.ts:36-47 | a content panel decodes exactly when `type` is `ContentPanel`, `properties.layout` is valid and `children` is absent or valid |
| LayoutSchema.ContentPanelRoundTrip | src/types/components/layout.ts:36-47 | every content panel decodes from its JSON form back to itself |
| LayoutSchema.RgbaAccepts | src/types/components/layout.ts:59-64 | an accepted colour holds all of `r`, `g`, `b` and `a` |
| LayoutSchema.ParseRgba | src/types/components/layout.ts:59-64 | a background colour decodes exactly when `r`, `g`, `b` and `a` are all numbers |
| LayoutSchema.LayoutPropertiesAccepts | src/types/components/layout.ts:55-65 | accepted layout properties hold `responsive` |
| LayoutSchema.ParseLayoutProperties | src/types/components/layout.ts:55-65 | `responsive` must be an object; absent `breakpoint` becomes 768 and a present one must be a number and is kept; `backgroundColor` is absent or valid |
| LayoutSchema.LayoutPropertiesRoundTrip | src/types/components/layout.ts:55-65 | layout properties decode from their JSON form back to themselves |
| LayoutSchema.PanelsAccepts | src/types/components/layout.ts:66-69 | accepted panels hold `left` and `right`, typed `ImagePanel` and `ContentPanel` respectively |
| LayoutSchema.ParsePanels | src/types/components/layout.ts:66-69 | panels decode exactly when `left` is an image panel and `right` a content panel |
| LayoutSchema.PanelsRoundTrip | src/types/components/layout.ts:66-69 | panels whose image URLs pass the URL check decode from their JSON form back to themselves |
| LayoutSchema.SwappedPanelsRejected | src/types/components/layout.ts:66-69 | a layout whose left panel is a content panel is rejected |
| LayoutSchema.LayoutAccepts | src/types/components/layout.ts:49-70 | an accepted layout holds `id`, `type`, `variant`, `properties` and `panels`, and its `type` is `Layout` |
| LayoutSchema.ParseLayout | src/types/components/layout.ts:49-70 | a layout decodes exactly when `type` is `Layout`, `id`/`variant` are strings, `width`/`height` are absent or numbers, and properties and panels are valid; decoded fields are the input's |
| LayoutSchema.LayoutRoundTrip | src/types/components/layout.ts:49-70 | every layout whose image URLs pass the URL check decodes from its JSON form back to itself |
| FigmaRoute.Width | src/app/api/figma/route.ts:50 | the width is present exactly when the bounding box is present and its width is non-zero, and then it is that width |
| FigmaRoute.Height | src/app/api/figma/route.ts:51 | the height is present exactly when the bounding box is present and its height is non-zero, and then it is that height |
| FigmaRoute.StripTrailingDot | src/app/api/figma/route.ts:65 | a text ending in `.` loses exactly that one `.`; any other text is unchanged |
| FigmaRoute.FirstText | src/app/api/figma/route.ts:65 | returns the position of a TEXT child with no TEXT child before it, or nothing when no child is TEXT |
| FigmaRoute.InstanceText | src/app/api/figma/route.ts:65 | the text is present exactly when the first TEXT child has `characters` other than `""` and `"."`; it is then non-empty and is the characters with at most one trailing `.` removed |
| FigmaRoute.InstanceTextExamples | src/app/api/figma/route.ts:65 | `"Submit."` gives `"Submit"`, `"Wait.."` gives `"Wait."`, `"."` gives null, a non-TEXT first child is skipped, no children gives null |
| FigmaRoute.ExtractInstance | src/app/api/figma/route.ts:59-66 | an instance record copies `id`, `name` and `type`, takes its sizes from the bounding box, and its text is the instance text, never empty |
| FigmaRoute.Instances | src/app/api/figma/route.ts:57-66 | the instance list is no longer than the children and holds only INSTANCE records |
| FigmaRoute.InstancesAppend | src/app/api/figma/route.ts:57-66 | the instance list of concatenated children is the concatenation of the instance lists, so input order is kept |
| FigmaRoute.InstancesMember | src/app/api/figma/route.ts:57-66 | a record is in the instance list exactly when it is built from some INSTANCE child |
| FigmaRoute.InstancesEmpty | src/app/api/figma/route.ts:56-70 | the instance list is empty exactly when no child is an INSTANCE |
| FigmaRoute.InstancesAllInstances | src/app/api/figma/route.ts:57-66 | when every child is an INSTANCE, the i-th record is built from the i-th child |
| FigmaRoute.ExtractComponent | src/app/api/figma/route.ts:46-71 | a component record copies `id`, `name` and `type`, takes its sizes from the bounding box, has `text` null, and has `children` exactly when some child is an INSTANCE, then the non-empty instance list |
| FigmaRoute.TraverseNode | src/app/api/figma/route.ts:34-77 | a null or undefined node gives null; any other result is a COMPONENT record with null text |
| FigmaRoute.Visit | src/app/api/figma/route.ts:36-77 | a result is always a COMPONENT record with null text; a node that is not DOCUMENT or CANVAS gives a record exactly when it is a COMPONENT; a DOCUMENT or CANVAS without children gives null |
| FigmaRoute.NullNodeIsNull | src/app/api/figma/route.ts:35 | a null or undefined node gives null |
| FigmaRoute.UnrecognizedKindIsNull | src/app/api/figma/route.ts:76 | a node that is not DOCUMENT, CANVAS or COMPONENT gives null whatever its children are |
| FigmaRoute.ContainerUsesFirstChildOnly | src/app/api/figma/route.ts:38-41 | a DOCUMENT or CANVAS gives null without children, otherwise what its first child gives; replacing the later children changes nothing |
| FigmaRoute.FirstChildOnlyExample | src/app/api/figma/route.ts:38-41 | a DOCUMENT whose first child is a rectangle gives null even though its second child is a COMPONENT |
| FigmaRoute.VisitSound | src/app/api/figma/route.ts:34-77 | any non-null result is the record of a COMPONENT node on the first-child path through DOCUMENT/CANVAS nodes |
| FigmaRoute.VisitComplete | src/app/api/figma/route.ts:34-77 | a COMPONENT node on that first-child path is exactly what the traversal returns |
| FigmaRoute.ComponentRecordFields | src/app/api/figma/route.ts:45-73 | a COMPONENT's record copies `id`, `name` and `type`, has `text` null and box-derived sizes; `children` is absent exactly when there is no INSTANCE child, otherwise it is the non-empty instance list |
| FigmaRoute.TraverseLayout | src/app/api/figma/route.ts:80-88 | the layout list is no longer than the children, holds only COMPONENT records with null text, and is empty for a node without children |
| FigmaRoute.VisitAll | src/app/api/figma/route.ts:85-87 | the layout list is no longer than the children and holds only COMPONENT records with null text |
| FigmaRoute.NoChildrenEmptyLayout | src/app/api/figma/route.ts:81-83 | a node without children gives an empty layout list |
| FigmaRoute.VisitAllAppend | src/app/api/figma/route.ts:85-87 | the layout list of concatenated children is the concatenation, so child order is kept |
| FigmaRoute.VisitAllMember | src/app/api/figma/route.ts:85-87 | a record is in the layout list exactly when some child's traversal gives it |
| FigmaRoute.NullChildrenDropped | src/app/api/figma/route.ts:85-87 | children whose traversal is null contribute nothing |
| FigmaRoute.HandleFigmaError | src/app/api/figma/route.ts:22-31 | the result's error is always truthy and its status never 0; a non-zero upstream status passes through, otherwise 500; a truthy upstream body passes through, otherwise the fixed message; a non-axios error gives `Unknown error occurred` with 500 |
| FigmaRoute.CatchResponse | src/app/api/figma/route.ts:116-121 | the answer to a thrown error always has a non-zero status and a truthy body; the error's own status and `error` are used when they are truthy, otherwise 500 and `{error: "An unknown error occurred"}` |
| FigmaRoute.PlainThrowAnswer | src/app/api/figma/route.ts:116-121 | a thrown value with neither `error` nor `status` is answered with 500 and `{error: "An unknown error occurred"}` |
| FigmaRoute.Get | src/app/api/figma/route.ts:94-122 | a missing or empty `fileId` gives 400 with the fixed message; a fetched document gives 200 with the traversal result; a failed fetch gives exactly `handleFigmaError`'s status and error, so the catch-all fallbacks never fire |
| FigmaRoute.GetStatuses | src/app/api/figma/route.ts:98-121 | every status GET answers with is 400, 200, 500 or an upstream status |
| ToolRegistry.FirstIncluded | src/app/lib/toolRegistry.ts:13 | returns the position of an included key with no included key before it, or nothing when no key is included |
| ToolRegistry.SelectTool | src/app/lib/toolRegistry.ts:13 | the selected key is a registry key included in the lower-cased command, and no earlier key is included; nothing is selected exactly when no key is included |
| ToolRegistry.SelectionFollowsRegistryOrder | src/app/lib/toolRegistry.ts:5-10 | "get components" wins whenever included, then "update component", then "fetch figma file" |
| ToolRegistry.SelectionIgnoresCase | src/app/lib/toolRegistry.ts:13 | upper-casing the command's ASCII letters does not change the selected key |
| ToolRegistry.MapAndExecuteTool | src/app/lib/toolRegistry.ts:12-24 | no match gives `No matching tool found for the given command.`; otherwise the selected key's tool runs on the given parameters; its value is returned, and a throw gives `Error executing tool: <key>` with the message as details |
| ToolRegistry.NoMatchRunsNoTool | src/app/lib/toolRegistry.ts:14-16 | without a match the reply is the same whatever the tools do |
| ToolRegistry.OnlySelectedToolRuns | src/app/lib/toolRegistry.ts:18-20 | the reply depends only on what the selected tool does with the unchanged parameters |

## Left out

- The network fetches, in `fetchFigmaFile` and the axios call of GET, are left out. Only their outcome enters the model, as a parameter. The `NextResponse` wrapping and `console` logging are also left out: they are I/O.
- The tool bodies in `tools.ts` (mock data, an HTTP call) are left out. So are the `async`/`await` machinery and the `dbCrud`, `initiateLLM` and `llmAgent` routes: they are network and LLM calls. A tool is the opaque parameter `run`.
- zod's URL syntax check is left out. It is the parameter `isUrl`.
- zod's stripping of unknown keys is left out, and so is the format of its error messages. A decoder returns only `None` on failure, and its typed output has no room for unknown keys.
- The rendering components and the React page are left out: they are UI.
- ToolRegistry.SelectTool: `toLowerCase` is modelled as ASCII case folding; Unicode case mapping of other characters is not modelled.
- Raw Figma values: a node's `id`, `name` and `type` are always strings, and a present bounding box always has numeric dimensions; a raw value of another JavaScript type in those places is not modelled.
- A fetch that succeeds with a response lacking a body, which would make the handler's own property access throw, is not modelled.
- Traversal errors: node shapes outside the `Node` datatype that make `traverseNode` throw are not modelled. They are a truthy non-array `children` on a COMPONENT (`.filter`, route.ts lines 57-58); a `children` on one of its INSTANCE children that is neither an array nor `null`, including `0`, `false` and `""` (`.find`, line 65); a `null` entry in a COMPONENT's `children` (`child.type`, line 58); a `null` entry before the first TEXT child of such an INSTANCE (`c.type`, line 65); and a `characters` that is neither a string nor `null` (`.replace`, line 65). GET answers each with 500 and `{error: "An unknown error occurred"}` (lines 116-120). `PlainThrowAnswer` states that answer, but `Get` is never given one of these shapes: a node's `children` are always nodes and `characters` is always a string.
