/**
 * The Figma route: the design-tree extractor (`traverseNode`, `traverseLayout`), the
 * upstream-error mapping (`handleFigmaError`) and the status decisions of the GET handler.
 *
 * A node's `children` is a sequence; an absent `children` array is the empty sequence,
 * which every use in the route treats the same way (`children?.length` is falsy, `filter`
 * and `find` over an empty array give nothing).
 */
module FigmaRoute {
  import opened Wrappers
  import opened Json

  /** `absoluteBoundingBox` */
  datatype Box = Box(x: real, y: real, width: real, height: real)

  /** A node of a Figma file; `kind` is its `type` string, `characters` the text of a TEXT node. */
  datatype Node = Node(
    id: string,
    name: string,
    kind: string,
    box: Option<Box>,
    children: seq<Node>,
    characters: Option<string>)

  /** The record built for an INSTANCE child of a component. */
  datatype InstanceRecord = InstanceRecord(
    id: string,
    name: string,
    kind: string,
    width: Option<real>,
    height: Option<real>,
    text: Option<string>)

  /** The record built for a COMPONENT node; `children` is `None` when the key is absent. */
  datatype ComponentRecord = ComponentRecord(
    id: string,
    name: string,
    kind: string,
    width: Option<real>,
    height: Option<real>,
    text: Option<string>,
    children: Option<seq<InstanceRecord>>)

  /** DOCUMENT and CANVAS nodes are passed through to their first child. */
  predicate IsContainer(n: Node) {
    n.kind == "DOCUMENT" || n.kind == "CANVAS"
  }

  // ---------------------------------------------------------------- field extraction

  /** `absoluteBoundingBox?.width || null`: an absent box or a zero width gives `null`. */
  function Width(box: Option<Box>): (r: Option<real>)
    ensures r.Some? <==> box.Some? && box.value.width != 0.0
    ensures r.Some? ==> r.value == box.value.width
  {
    if box.Some? && box.value.width != 0.0 then Some(box.value.width) else None
  }

  /** `absoluteBoundingBox?.height || null` */
  function Height(box: Option<Box>): (r: Option<real>)
    ensures r.Some? <==> box.Some? && box.value.height != 0.0
    ensures r.Some? ==> r.value == box.value.height
  {
    if box.Some? && box.value.height != 0.0 then Some(box.value.height) else None
  }

  /** `replace(/\.$/, '')`: removes one `.` at the very end, if there is one. */
  function StripTrailingDot(s: string): (r: string)
    ensures |s| > 0 && s[|s| - 1] == '.' ==> r + "." == s
    ensures !(|s| > 0 && s[|s| - 1] == '.') ==> r == s
  {
    if |s| > 0 && s[|s| - 1] == '.' then s[..|s| - 1] else s
  }

  /** `find(c => c.type === "TEXT")`: the position of the first TEXT node. */
  function FirstText(cs: seq<Node>): (r: Option<nat>)
    ensures r.Some? ==> r.value < |cs| && cs[r.value].kind == "TEXT"
    ensures r.Some? ==> forall j :: 0 <= j < r.value ==> cs[j].kind != "TEXT"
    ensures r.None? ==> forall j :: 0 <= j < |cs| ==> cs[j].kind != "TEXT"
  {
    if cs == [] then None
    else if cs[0].kind == "TEXT" then Some(0)
    else
      match FirstText(cs[1..])
      case None => None
      case Some(i) => Some(i + 1)
  }

  /**
   * An instance's text: the `characters` of its first direct TEXT child with one trailing
   * `.` removed, or `null` when there is no such child, it has no `characters`, or the
   * result is empty.
   */
  function InstanceText(n: Node): (r: Option<string>)
    ensures r.Some? ==> r.value != ""
    ensures r.Some? <==>
      && FirstText(n.children).Some?
      && var c := n.children[FirstText(n.children).value].characters;
         c.Some? && c.value != "" && c.value != "."
    ensures r.Some? ==>
      var c := n.children[FirstText(n.children).value].characters.value;
      r.value == StripTrailingDot(c)
  {
    match FirstText(n.children)
    case None => None
    case Some(i) =>
      match n.children[i].characters
      case None => None
      case Some(c) =>
        var t := StripTrailingDot(c);
        if t == "" then None else Some(t)
  }

  /** The record built for an INSTANCE child: its identity, its box size and its text. */
  function ExtractInstance(n: Node): (r: InstanceRecord)
    ensures r.id == n.id && r.name == n.name && r.kind == n.kind
    ensures r.width == Width(n.box) && r.height == Height(n.box)
    ensures r.text == InstanceText(n)
    ensures r.text.Some? ==> r.text.value != ""
  {
    InstanceRecord(n.id, n.name, n.kind, Width(n.box), Height(n.box), InstanceText(n))
  }

  /** `children.filter(child => child.type === "INSTANCE").map(...)` */
  function Instances(cs: seq<Node>): (r: seq<InstanceRecord>)
    ensures |r| <= |cs|
    ensures forall i :: 0 <= i < |r| ==> r[i].kind == "INSTANCE"
  {
    if cs == [] then []
    else (if cs[0].kind == "INSTANCE" then [ExtractInstance(cs[0])] else []) + Instances(cs[1..])
  }

  /**
   * The record built for a COMPONENT: its identity and box size, no text, and its INSTANCE
   * children, with `children` left out when there are none.
   */
  function ExtractComponent(n: Node): (r: ComponentRecord)
    ensures r.id == n.id && r.name == n.name && r.kind == n.kind
    ensures r.width == Width(n.box) && r.height == Height(n.box)
    ensures r.text.None?
    ensures r.children.None? <==> forall i :: 0 <= i < |n.children| ==> n.children[i].kind != "INSTANCE"
    ensures r.children.Some? ==> r.children.value == Instances(n.children) && |r.children.value| > 0
  {
    InstancesEmpty(n.children);
    var instances := Instances(n.children);
    ComponentRecord(n.id, n.name, n.kind, Width(n.box), Height(n.box), None,
      if |instances| > 0 then Some(instances) else None)
  }

  // ---------------------------------------------------------------- traversal

  /** `traverseNode(node)`: `None` for a null or undefined node. */
  function TraverseNode(node: Option<Node>): (r: Option<ComponentRecord>)
    ensures node.None? ==> r.None?
    ensures r.Some? ==> r.value.kind == "COMPONENT" && r.value.text.None?
  {
    if node.None? then None else Visit(node.value)
  }

  /** `traverseNode` on a present node. */
  function Visit(n: Node): (r: Option<ComponentRecord>)
    ensures r.Some? ==> r.value.kind == "COMPONENT" && r.value.text.None?
    ensures !IsContainer(n) ==> (r.Some? <==> n.kind == "COMPONENT")
    ensures IsContainer(n) && n.children == [] ==> r.None?
  {
    if IsContainer(n) then
      if |n.children| > 0 then Visit(n.children[0]) else None
    else if n.kind == "COMPONENT" then
      Some(ExtractComponent(n))
    else
      None
  }

  /** `traverseLayout(node)`: the non-null results of `traverseNode` over the children, in order. */
  function TraverseLayout(n: Node): (r: seq<ComponentRecord>)
    ensures |r| <= |n.children|
    ensures forall i :: 0 <= i < |r| ==> r[i].kind == "COMPONENT" && r[i].text.None?
    ensures n.children == [] ==> r == []
  {
    VisitAll(n.children)
  }

  function VisitAll(cs: seq<Node>): (r: seq<ComponentRecord>)
    ensures |r| <= |cs|
    ensures forall i :: 0 <= i < |r| ==> r[i].kind == "COMPONENT" && r[i].text.None?
  {
    if cs == [] then []
    else (match Visit(cs[0]) case Some(c) => [c] case None => []) + VisitAll(cs[1..])
  }

  // ---------------------------------------------------------------- properties of the traversal

  /** `m` is `n` or is reached from `n` by following first children through DOCUMENT and CANVAS nodes. */
  ghost predicate OnFirstChildPath(n: Node, m: Node)
    decreases n
  {
    n == m || (IsContainer(n) && |n.children| > 0 && OnFirstChildPath(n.children[0], m))
  }

  /** A null or undefined node gives `null`. */
  lemma NullNodeIsNull()
    ensures TraverseNode(None) == None
  {
  }

  /** A node of any other type gives `null` whatever its children are: they are never visited. */
  lemma UnrecognizedKindIsNull(n: Node, cs: seq<Node>)
    requires !IsContainer(n) && n.kind != "COMPONENT"
    ensures Visit(n) == None
    ensures Visit(n.(children := cs)) == None
  {
  }

  /** A DOCUMENT or CANVAS node gives what its first child gives; the later children are never examined. */
  lemma ContainerUsesFirstChildOnly(n: Node, rest: seq<Node>)
    requires IsContainer(n)
    ensures |n.children| == 0 ==> Visit(n) == None
    ensures |n.children| > 0 ==>
      && Visit(n) == Visit(n.children[0])
      && Visit(n.(children := [n.children[0]] + rest)) == Visit(n)
  {
  }

  /** Soundness: a result is the record of a COMPONENT node on the first-child path of the input. */
  lemma {:induction false} VisitSound(n: Node)
    ensures Visit(n).Some? ==>
      exists m :: OnFirstChildPath(n, m) && m.kind == "COMPONENT" && Visit(n) == Some(ExtractComponent(m))
  {
    if IsContainer(n) && |n.children| > 0 {
      VisitSound(n.children[0]);
      if Visit(n).Some? {
        var m :| OnFirstChildPath(n.children[0], m) && m.kind == "COMPONENT" && Visit(n.children[0]) == Some(ExtractComponent(m));
        assert OnFirstChildPath(n, m);
      }
    } else if n.kind == "COMPONENT" {
      assert OnFirstChildPath(n, n);
    }
  }

  /** Completeness: a COMPONENT node on the first-child path is what the traversal returns. */
  lemma {:induction false} VisitComplete(n: Node, m: Node)
    requires OnFirstChildPath(n, m) && m.kind == "COMPONENT"
    ensures Visit(n) == Some(ExtractComponent(m))
  {
    if n != m {
      VisitComplete(n.children[0], m);
    }
  }

  /** A COMPONENT's record copies `id`, `name` and `type`, has `text` null, and lists its INSTANCE children. */
  lemma ComponentRecordFields(n: Node)
    requires n.kind == "COMPONENT"
    ensures Visit(n).Some?
    ensures var c := Visit(n).value;
      && c.id == n.id && c.name == n.name && c.kind == "COMPONENT"
      && c.text == None
      && c.width == Width(n.box) && c.height == Height(n.box)
      && (c.children.None? <==> forall i :: 0 <= i < |n.children| ==> n.children[i].kind != "INSTANCE")
      && (c.children.Some? ==> c.children.value == Instances(n.children) && |c.children.value| > 0)
  {
    InstancesEmpty(n.children);
  }

  // ---------------------------------------------------------------- properties of the instance list

  /** The instance list of a concatenation is the concatenation of the instance lists: order is kept. */
  lemma {:induction false} InstancesAppend(a: seq<Node>, b: seq<Node>)
    ensures Instances(a + b) == Instances(a) + Instances(b)
  {
    if a != [] {
      assert (a + b)[1..] == a[1..] + b;
      InstancesAppend(a[1..], b);
      assert (a + b)[0] == a[0];
    } else {
      assert a + b == b;
    }
  }

  /** An instance record is in the list exactly when it is built from some INSTANCE child. */
  lemma {:induction false} InstancesMember(cs: seq<Node>, x: InstanceRecord)
    ensures x in Instances(cs) <==> exists i :: 0 <= i < |cs| && cs[i].kind == "INSTANCE" && x == ExtractInstance(cs[i])
  {
    if cs != [] {
      InstancesMember(cs[1..], x);
      if x in Instances(cs[1..]) {
        var i :| 0 <= i < |cs[1..]| && cs[1..][i].kind == "INSTANCE" && x == ExtractInstance(cs[1..][i]);
        assert cs[i + 1] == cs[1..][i];
      }
      if exists i :: 0 <= i < |cs| && cs[i].kind == "INSTANCE" && x == ExtractInstance(cs[i]) {
        var i :| 0 <= i < |cs| && cs[i].kind == "INSTANCE" && x == ExtractInstance(cs[i]);
        if i > 0 {
          assert cs[1..][i - 1] == cs[i];
        }
      }
    }
  }

  /** The instance list is empty exactly when no child is an INSTANCE. */
  lemma {:induction false} InstancesEmpty(cs: seq<Node>)
    ensures Instances(cs) == [] <==> forall i :: 0 <= i < |cs| ==> cs[i].kind != "INSTANCE"
  {
    if cs != [] {
      InstancesEmpty(cs[1..]);
      assert forall i :: 1 <= i < |cs| ==> cs[i] == cs[1..][i - 1];
    }
  }

  /** When every child is an INSTANCE, each yields exactly one record, at its own position. */
  lemma {:induction false} InstancesAllInstances(cs: seq<Node>)
    requires forall i :: 0 <= i < |cs| ==> cs[i].kind == "INSTANCE"
    ensures |Instances(cs)| == |cs|
    ensures forall i :: 0 <= i < |cs| ==> Instances(cs)[i] == ExtractInstance(cs[i])
  {
    if cs != [] {
      InstancesAllInstances(cs[1..]);
    }
  }

  // ---------------------------------------------------------------- properties of traverseLayout

  /** A node without children gives the empty list. */
  lemma NoChildrenEmptyLayout(n: Node)
    requires n.children == []
    ensures TraverseLayout(n) == []
  {
  }

  /** The layout list of a concatenation of children is the concatenation: child order is kept. */
  lemma {:induction false} VisitAllAppend(a: seq<Node>, b: seq<Node>)
    ensures VisitAll(a + b) == VisitAll(a) + VisitAll(b)
  {
    if a != [] {
      assert (a + b)[1..] == a[1..] + b;
      VisitAllAppend(a[1..], b);
      assert (a + b)[0] == a[0];
    } else {
      assert a + b == b;
    }
  }

  /** A record is in the layout list exactly when some child's traversal gives it. */
  lemma {:induction false} VisitAllMember(cs: seq<Node>, c: ComponentRecord)
    ensures c in VisitAll(cs) <==> exists i :: 0 <= i < |cs| && Visit(cs[i]) == Some(c)
  {
    if cs != [] {
      VisitAllMember(cs[1..], c);
      if c in VisitAll(cs[1..]) {
        var i :| 0 <= i < |cs[1..]| && Visit(cs[1..][i]) == Some(c);
        assert cs[i + 1] == cs[1..][i];
      }
      if exists i :: 0 <= i < |cs| && Visit(cs[i]) == Some(c) {
        var i :| 0 <= i < |cs| && Visit(cs[i]) == Some(c);
        if i > 0 {
          assert cs[1..][i - 1] == cs[i];
        }
      }
    }
  }

  /** Children whose traversal gives `null` contribute nothing. */
  lemma {:induction false} NullChildrenDropped(cs: seq<Node>)
    requires forall i :: 0 <= i < |cs| ==> Visit(cs[i]).None?
    ensures VisitAll(cs) == []
  {
    if cs != [] {
      NullChildrenDropped(cs[1..]);
    }
  }

  // ---------------------------------------------------------------- examples

  function TextNode(characters: string): Node {
    Node("t", "label", "TEXT", None, [], Some(characters))
  }

  function InstanceWith(children: seq<Node>): Node {
    Node("i", "Button", "INSTANCE", None, children, None)
  }

  /** One trailing `.` is removed, and a text that becomes empty is `null`. */
  lemma InstanceTextExamples()
    ensures InstanceText(InstanceWith([TextNode("Submit.")])) == Some("Submit")
    ensures InstanceText(InstanceWith([TextNode("Wait..")])) == Some("Wait.")
    ensures InstanceText(InstanceWith([TextNode(".")])) == None
    ensures InstanceText(InstanceWith([Node("v", "icon", "VECTOR", None, [], None), TextNode("Go")])) == Some("Go")
    ensures InstanceText(InstanceWith([])) == None
  {
    assert StripTrailingDot("Submit.") == "Submit";
    assert StripTrailingDot("Wait..") == "Wait.";
    assert StripTrailingDot(".") == "";
  }

  /** A DOCUMENT whose first child is not a component gives `null` even when a later child is one. */
  lemma FirstChildOnlyExample()
    ensures Visit(Node("0:0", "Document", "DOCUMENT", None, [
      Node("1:1", "Background", "RECTANGLE", None, [], None),
      Node("1:2", "Card", "COMPONENT", None, [], None)], None)) == None
  {
  }

  // ---------------------------------------------------------------- upstream errors and the GET handler

  /** What `axios` attaches to a failed request: the response body and HTTP status. */
  datatype AxiosResponse = AxiosResponse(data: Option<Json>, status: int)

  /** A failure of the Figma fetch: an `axios` error (with or without a response), or anything else. */
  datatype FigmaFailure = AxiosFailure(response: Option<AxiosResponse>) | OtherFailure

  /** The `{error, status}` object that `handleFigmaError` builds and the fetch throws. */
  datatype FigmaError = FigmaError(error: Json, status: int)

  const FetchFailedMessage: string := "Failed to fetch Figma data"
  const UnknownErrorMessage: string := "Unknown error occurred"

  /** `handleFigmaError`: the upstream body and status pass through; falsy ones fall back. */
  function HandleFigmaError(e: FigmaFailure): (r: FigmaError)
    ensures Truthy(r.error) && r.status != 0
    ensures e.OtherFailure? ==> r == FigmaError(Str(UnknownErrorMessage), 500)
    ensures e.AxiosFailure? && e.response.Some? && e.response.value.status != 0 ==>
      r.status == e.response.value.status
    ensures e.AxiosFailure? && (e.response.None? || e.response.value.status == 0) ==>
      r.status == 500
    ensures e.AxiosFailure? && e.response.Some? && e.response.value.data.Some? && Truthy(e.response.value.data.value) ==>
      r.error == e.response.value.data.value
    ensures e.AxiosFailure? && !(e.response.Some? && e.response.value.data.Some? && Truthy(e.response.value.data.value)) ==>
      r.error == Str(FetchFailedMessage)
  {
    match e
    case AxiosFailure(response) =>
      var data := if response.Some? && response.value.data.Some? then response.value.data.value else Null;
      var status := if response.Some? then response.value.status else 0;
      FigmaError(if Truthy(data) then data else Str(FetchFailedMessage), if status != 0 then status else 500)
    case OtherFailure =>
      FigmaError(Str(UnknownErrorMessage), 500)
  }

  /** What the Figma fetch (`fetchFigmaFile`) delivers: the file's `document` (possibly undefined), or a failure. */
  datatype FetchResult = Fetched(document: Option<Node>) | FetchFailed(failure: FigmaFailure)

  datatype Body = Details(details: Option<ComponentRecord>) | ErrorBody(error: Json)

  datatype HttpResponse = HttpResponse(status: int, body: Body)

  const MissingFileIdMessage: string := "Missing fileId parameter in the request"
  const CatchAllMessage: string := "An unknown error occurred"

  /** The `catch` of the GET handler: `error.error || {...}` with status `error.status || 500`. */
  function CatchResponse(thrown: FigmaError): (r: HttpResponse)
    ensures r.status != 0 && r.body.ErrorBody? && Truthy(r.body.error)
    ensures thrown.status != 0 ==> r.status == thrown.status
    ensures thrown.status == 0 ==> r.status == 500
    ensures Truthy(thrown.error) ==> r.body.error == thrown.error
    ensures !Truthy(thrown.error) ==> r.body.error == Object(map["error" := Str(CatchAllMessage)])
  {
    HttpResponse(
      if thrown.status != 0 then thrown.status else 500,
      ErrorBody(if Truthy(thrown.error) then thrown.error else Object(map["error" := Str(CatchAllMessage)])))
  }

  /**
   * A thrown value with neither `error` nor `status`, such as a `TypeError`, is answered
   * with 500 and the catch-all body.
   */
  lemma PlainThrowAnswer(thrown: FigmaError)
    requires !Truthy(thrown.error) && thrown.status == 0
    ensures CatchResponse(thrown) == HttpResponse(500, ErrorBody(Object(map["error" := Str(CatchAllMessage)])))
  {
  }

  /** `!fileId`: the parameter is missing or empty. */
  predicate MissingFileId(fileId: Option<string>) {
    fileId.None? || fileId.value == ""
  }

  /** GET's decision, with the network fetch given as its outcome. */
  function Get(fileId: Option<string>, fetch: FetchResult): (r: HttpResponse)
    ensures MissingFileId(fileId) ==>
      r == HttpResponse(400, ErrorBody(Object(map["error" := Str(MissingFileIdMessage)])))
    ensures !MissingFileId(fileId) && fetch.Fetched? ==>
      r == HttpResponse(200, Details(TraverseNode(fetch.document)))
    ensures !MissingFileId(fileId) && fetch.FetchFailed? ==>
      var e := HandleFigmaError(fetch.failure);
      r.status == e.status && r.body == ErrorBody(e.error)
  {
    if MissingFileId(fileId) then
      HttpResponse(400, ErrorBody(Object(map["error" := Str(MissingFileIdMessage)])))
    else
      match fetch
      case Fetched(document) => HttpResponse(200, Details(TraverseNode(document)))
      case FetchFailed(failure) => CatchResponse(HandleFigmaError(failure))
  }

  /**
   * Every status GET answers with is 400 (missing `fileId`), 200, 500, or the upstream
   * status of a failed fetch.
   */
  lemma GetStatuses(fileId: Option<string>, fetch: FetchResult)
    ensures var r := Get(fileId, fetch);
      || r.status == 400
      || r.status == 200
      || r.status == 500
      || (fetch.FetchFailed? && fetch.failure.AxiosFailure? && fetch.failure.response.Some?
          && r.status == fetch.failure.response.value.status)
  {
  }
}
