/** The OpenAPI 2.0 importer: every operation of every path becomes a request item, and the
    items are grouped into one folder per tag. */
module Oapi2Transformer {
  import opened StringUtil
  import opened CollectionModel

  // ---------------------------------------------------------------------------------------
  // The parts of an OpenAPI 2.0 document the importer reads

  /** `securityDefinitions.api_key`: the key's name and where it goes (`in`). */
  datatype ApiKeyScheme = ApiKeyScheme(name: string, location: string)

  datatype SecurityDefinitions = SecurityDefinitions(apiKey: Option<ApiKeyScheme>)

  /** A parameter object. `schemaJson` is `JSON.stringify` of the example object built from an
      object schema's properties, or `None` when the schema is missing or not an object. */
  datatype Parameter = Parameter(
    location: string,
    name: string,
    example: Option<string>,
    paramType: string,
    schemaJson: Option<string>)

  datatype Operation = Operation(
    tags: Option<seq<string>>,
    summary: Option<string>,
    description: Option<string>,
    operationId: string,
    consumes: Option<seq<string>>,
    parameters: Option<seq<Parameter>>)

  datatype TagDef = TagDef(name: string, description: string)

  /** `paths` holds, per path template, the entries of its path item object (method key and
      operation), in order. `hasDefinitions` says whether `definitions` is present. */
  datatype Document = Document(
    hasDefinitions: bool,
    paths: seq<(string, seq<(string, Operation)>)>,
    securityDefinitions: Option<SecurityDefinitions>,
    tags: Option<seq<TagDef>>)

  /** A folder of the result map: its name (the tag), description and items. */
  datatype TagFolder = TagFolder(name: string, description: string, items: seq<TransformedRequest>)

  /** Reading `security.api_key` when the document has no `securityDefinitions` throws. */
  datatype ImportError = SecurityDefinitionsMissing

  // ---------------------------------------------------------------------------------------
  // Path template to URL and query rows

  /** `ss.filter(p => p != "")` */
  function DropEmpty(ss: seq<string>): (r: seq<string>)
    ensures forall k :: 0 <= k < |r| ==> r[k] != ""
    ensures forall k :: 0 <= k < |ss| && ss[k] != "" ==> ss[k] in r
    ensures |r| <= |ss|
  {
    if ss == [] then [] else (if ss[0] == "" then [] else [ss[0]]) + DropEmpty(ss[1..])
  }

  /** The filter keeps order and repetitions: appending a segment appends it to the result
      unless it is empty. */
  lemma {:induction false} DropEmptyAppend(ss: seq<string>, x: string)
    ensures DropEmpty(ss + [x]) == DropEmpty(ss) + (if x == "" then [] else [x])
    decreases |ss|
  {
    if ss == [] {
      assert [x][1..] == [];
    } else {
      assert (ss + [x])[1..] == ss[1..] + [x];
      DropEmptyAppend(ss[1..], x);
    }
  }

  /** `"/{" + p.slice(1, -1) + "}"` for a parameter segment, `"/" + p` otherwise. */
  function Segment(p: string): (r: string)
    ensures |r| >= 1 && r[0] == '/'
    ensures StartsWith(p, "{") && |p| >= 2 ==> r == "/{" + p[1..|p| - 1] + "}"
    ensures !StartsWith(p, "{") ==> r == "/" + p
  {
    if StartsWith(p, "{") then "/{" + (if |p| >= 2 then p[1..|p| - 1] else "") + "}" else "/" + p
  }

  /** The segments of a path template that go into the URL, and those read as `k=v` query
      parameters. */
  datatype PathSplit = PathSplit(kept: seq<string>, queries: seq<string>)

  /** The walk of the URL loop: a segment is kept, and a following segment containing "=" is
      consumed as a query parameter. */
  function PathWalk(parts: seq<string>): PathSplit
    decreases |parts|
  {
    if parts == [] then PathSplit([], [])
    else if |parts| > 1 && Contains(parts[1], "=") then
      var rest := PathWalk(parts[2..]);
      PathSplit([parts[0]] + rest.kept, [parts[1]] + rest.queries)
    else
      var rest := PathWalk(parts[1..]);
      PathSplit([parts[0]] + rest.kept, rest.queries)
  }

  /** The URL built from the kept segments. */
  function Join(kept: seq<string>): string
    decreases |kept|
  {
    if kept == [] then "" else Join(kept[..|kept| - 1]) + Segment(kept[|kept| - 1])
  }

  /** `part.split("=")` read as a checked `{key, value}` row. */
  function QueryRow(part: string): KeyValue
  {
    var pieces := Split(part, '=');
    KeyValue(pieces[0], if |pieces| > 1 then pieces[1] else "", true)
  }

  function QueryRows(parts: seq<string>): (rows: seq<KeyValue>)
    ensures |rows| == |parts|
    ensures forall k :: 0 <= k < |parts| ==> rows[k] == QueryRow(parts[k])
    decreases |parts|
  {
    if parts == [] then [] else QueryRows(parts[..|parts| - 1]) + [QueryRow(parts[|parts| - 1])]
  }

  lemma JoinAppend(kept: seq<string>, p: string)
    ensures Join(kept + [p]) == Join(kept) + Segment(p)
  {
    assert (kept + [p])[..|kept|] == kept;
  }

  /** One step of the walk from position `i`. */
  lemma WalkFrom(parts: seq<string>, i: nat)
    requires i < |parts|
    ensures i + 1 < |parts| && Contains(parts[i + 1], "=") ==>
      PathWalk(parts[i..]) == PathSplit([parts[i]] + PathWalk(parts[i + 2..]).kept, [parts[i + 1]] + PathWalk(parts[i + 2..]).queries)
    ensures !(i + 1 < |parts| && Contains(parts[i + 1], "=")) ==>
      PathWalk(parts[i..]) == PathSplit([parts[i]] + PathWalk(parts[i + 1..]).kept, PathWalk(parts[i + 1..]).queries)
  {
    var rest := parts[i..];
    assert rest[0] == parts[i] && rest[1..] == parts[i + 1..];
    if i + 1 < |parts| {
      assert rest[1] == parts[i + 1] && rest[2..] == parts[i + 2..];
    }
  }

  /** The URL loop of `transformPath`, with its manual skip over a consumed query segment. */
  method WalkPath(parts: seq<string>) returns (url: string, queryParams: seq<KeyValue>)
    ensures url == Join(PathWalk(parts).kept)
    ensures queryParams == QueryRows(PathWalk(parts).queries)
  {
    url, queryParams := "", [];
    ghost var kept: seq<string>, queries: seq<string> := [], [];
    var i := 0;
    assert parts[0..] == parts;
    while i < |parts|
      invariant 0 <= i <= |parts|
      invariant PathWalk(parts).kept == kept + PathWalk(parts[i..]).kept
      invariant PathWalk(parts).queries == queries + PathWalk(parts[i..]).queries
      invariant url == Join(kept) && queryParams == QueryRows(queries)
    {
      var isQuery := i + 1 < |parts| && Contains(parts[i + 1], "=");
      WalkFrom(parts, i);
      JoinAppend(kept, parts[i]);
      url := url + Segment(parts[i]);
      if isQuery {
        QueryRowsAppend(queries, parts[i + 1]);
        queryParams := queryParams + [QueryRow(parts[i + 1])];
        ConcatAssoc(kept, [parts[i]], PathWalk(parts[i + 2..]).kept);
        ConcatAssoc(queries, [parts[i + 1]], PathWalk(parts[i + 2..]).queries);
        kept, queries := kept + [parts[i]], queries + [parts[i + 1]];
        i := i + 2;
      } else {
        ConcatAssoc(kept, [parts[i]], PathWalk(parts[i + 1..]).kept);
        kept := kept + [parts[i]];
        i := i + 1;
      }
    }
    assert i == |parts| && parts[i..] == [];
    assert PathWalk(parts[i..]) == PathSplit([], []);
    assert kept + [] == kept && queries + [] == queries;
  }

  lemma ConcatAssoc<T>(a: seq<T>, b: seq<T>, c: seq<T>)
    ensures (a + b) + c == a + (b + c)
  {
  }

  lemma QueryRowsAppend(queries: seq<string>, q: string)
    ensures QueryRows(queries + [q]) == QueryRows(queries) + [QueryRow(q)]
  {
    assert (queries + [q])[..|queries|] == queries;
  }

  /** Every segment is either kept or consumed as a query, every consumed one contains "=",
      and the first segment is always kept. */
  lemma {:induction false} PathWalkPartition(parts: seq<string>)
    ensures |PathWalk(parts).kept| + |PathWalk(parts).queries| == |parts|
    ensures forall q :: q in PathWalk(parts).queries ==> Contains(q, "=")
    ensures forall q :: q in PathWalk(parts).queries ==> q in parts
    ensures forall p :: p in PathWalk(parts).kept ==> p in parts
    ensures parts != [] ==> PathWalk(parts).kept != [] && PathWalk(parts).kept[0] == parts[0]
    decreases |parts|
  {
    if parts != [] {
      if |parts| > 1 && Contains(parts[1], "=") {
        PathWalkPartition(parts[2..]);
      } else {
        PathWalkPartition(parts[1..]);
      }
    }
  }

  /** A path template without "=" gives no query rows and keeps every segment. */
  lemma {:induction false} PathWalkNoQueries(parts: seq<string>)
    requires forall k :: 0 <= k < |parts| ==> !Contains(parts[k], "=")
    ensures PathWalk(parts) == PathSplit(parts, [])
    decreases |parts|
  {
    if parts != [] {
      PathWalkNoQueries(parts[1..]);
    }
  }

  /** Segment `j` is consumed as a query parameter: it contains "=" and follows a segment
      that was kept (the loop's `i++` skips the segment after a consumed one). */
  predicate Consumed(parts: seq<string>, j: nat)
    requires j < |parts|
    decreases j
  {
    j > 0 && Contains(parts[j], "=") && !Consumed(parts, j - 1)
  }

  /** The segments from index `from` on that are consumed (`want`) or kept (`!want`), in order. */
  function Pick(parts: seq<string>, from: nat, want: bool): seq<string>
    requires from <= |parts|
    decreases |parts| - from
  {
    if from == |parts| then []
    else (if Consumed(parts, from) == want then [parts[from]] else []) + Pick(parts, from + 1, want)
  }

  lemma {:induction false} PathWalkPicksFrom(parts: seq<string>, i: nat)
    requires i <= |parts|
    requires i < |parts| ==> !Consumed(parts, i)
    ensures PathWalk(parts[i..]).kept == Pick(parts, i, false)
    ensures PathWalk(parts[i..]).queries == Pick(parts, i, true)
    decreases |parts| - i
  {
    if i == |parts| {
      assert parts[i..] == [];
    } else {
      WalkFrom(parts, i);
      if i + 1 < |parts| && Contains(parts[i + 1], "=") {
        assert Consumed(parts, i + 1);
        if i + 2 < |parts| {
          assert !Consumed(parts, i + 2);
        }
        PathWalkPicksFrom(parts, i + 2);
      } else {
        if i + 1 < |parts| {
          assert !Consumed(parts, i + 1);
        }
        PathWalkPicksFrom(parts, i + 1);
      }
    }
  }

  /** The URL keeps exactly the segments that are not consumed, and the query rows come from
      exactly the consumed ones, both in their original order. */
  lemma PathWalkConsumed(parts: seq<string>)
    ensures PathWalk(parts).kept == Pick(parts, 0, false)
    ensures PathWalk(parts).queries == Pick(parts, 0, true)
  {
    assert parts[0..] == parts;
    PathWalkPicksFrom(parts, 0);
  }

  // ---------------------------------------------------------------------------------------
  // Body type, API key and parameters

  /** `consumes && consumes.includes(t)` */
  predicate Consumes(consumes: Option<seq<string>>, t: string)
  {
    consumes.Some? && t in consumes.value
  }

  /** The body type chosen from `consumes`. */
  function ConsumesBodyMode(consumes: Option<seq<string>>): BodyMode
  {
    if consumes.None? then NoBody
    else if Consumes(consumes, "application/json") then Json
    else if Consumes(consumes, "application/javascript") then JavaScript
    else if Consumes(consumes, "text/html") then TextHtml
    else if Consumes(consumes, "application/xml") || Consumes(consumes, "text/xml") then Xml
    else if Consumes(consumes, "application/x-www-form-urlencoded") then UrlEncoded
    else if Consumes(consumes, "multipart/form-data") then Multipart
    else NoBody
  }

  /** The first listed type present wins: JSON, JavaScript, HTML, XML, url-encoded, multipart;
      with none of them the body stays `none`. */
  lemma ConsumesPriority(consumes: Option<seq<string>>)
    ensures ConsumesBodyMode(consumes) == Json <==> Consumes(consumes, "application/json")
    ensures ConsumesBodyMode(consumes) == JavaScript <==>
      !Consumes(consumes, "application/json") && Consumes(consumes, "application/javascript")
    ensures ConsumesBodyMode(consumes) == TextHtml <==>
      !Consumes(consumes, "application/json") && !Consumes(consumes, "application/javascript")
      && Consumes(consumes, "text/html")
    ensures ConsumesBodyMode(consumes) == Xml <==>
      !Consumes(consumes, "application/json") && !Consumes(consumes, "application/javascript")
      && !Consumes(consumes, "text/html")
      && (Consumes(consumes, "application/xml") || Consumes(consumes, "text/xml"))
    ensures ConsumesBodyMode(consumes) == UrlEncoded <==>
      !Consumes(consumes, "application/json") && !Consumes(consumes, "application/javascript")
      && !Consumes(consumes, "text/html") && !Consumes(consumes, "application/xml")
      && !Consumes(consumes, "text/xml") && Consumes(consumes, "application/x-www-form-urlencoded")
    ensures ConsumesBodyMode(consumes) == Multipart <==>
      Consumes(consumes, "multipart/form-data") && !Consumes(consumes, "application/json")
      && !Consumes(consumes, "application/javascript") && !Consumes(consumes, "text/html")
      && !Consumes(consumes, "application/xml") && !Consumes(consumes, "text/xml")
      && !Consumes(consumes, "application/x-www-form-urlencoded")
    ensures ConsumesBodyMode(consumes) == NoBody <==>
      forall t :: t in {"application/json", "application/javascript", "text/html", "application/xml",
                        "text/xml", "application/x-www-form-urlencoded", "multipart/form-data"}
        ==> !Consumes(consumes, t)
    ensures ConsumesBodyMode(consumes) != TextPlain
  {
  }

  /** The rows and raw body the parameter loop fills. */
  datatype ParamRows = ParamRows(
    headers: seq<KeyValue>,
    queries: seq<KeyValue>,
    urlencoded: seq<KeyValue>,
    formText: seq<KeyValue>,
    formFile: seq<FormDataFile>,
    raw: string)

  /** `param.example || getExampleValue(param.type)` */
  function ParamValue(p: Parameter, exampleFor: string -> string): string
  {
    if Truthy(p.example) then p.example.value else exampleFor(p.paramType)
  }

  /** Where one parameter goes, by its `in` field. */
  function ParamStep(st: ParamRows, p: Parameter, consumes: Option<seq<string>>, exampleFor: string -> string): ParamRows
  {
    var v := ParamValue(p, exampleFor);
    if p.location == "body" then
      if Consumes(consumes, "application/json") && p.schemaJson.Some? then st.(raw := p.schemaJson.value) else st
    else if p.location == "header" then st.(headers := st.headers + [KeyValue(p.name, v, true)])
    else if p.location == "query" then st.(queries := st.queries + [KeyValue(p.name, v, false)])
    else if p.location == "formData" then
      if Consumes(consumes, "application/x-www-form-urlencoded") then
        st.(urlencoded := st.urlencoded + [KeyValue(p.name, v, false)])
      else if Consumes(consumes, "multipart/form-data") then
        if p.paramType == "file" then st.(formFile := st.formFile + [FormDataFile(p.name, v, false, v)])
        else st.(formText := st.formText + [KeyValue(p.name, v, false)])
      else st
    else st
  }

  function ParamFold(st: ParamRows, ps: seq<Parameter>, consumes: Option<seq<string>>, exampleFor: string -> string): ParamRows
    decreases |ps|
  {
    if ps == [] then st else ParamStep(ParamFold(st, ps[..|ps| - 1], consumes, exampleFor), ps[|ps| - 1], consumes, exampleFor)
  }

  /** The parameter loop of `transformPath`. */
  method RouteParameters(st0: ParamRows, ps: seq<Parameter>, consumes: Option<seq<string>>, exampleFor: string -> string)
    returns (st: ParamRows)
    ensures st == ParamFold(st0, ps, consumes, exampleFor)
  {
    st := st0;
    var i := 0;
    while i < |ps|
      invariant 0 <= i <= |ps|
      invariant st == ParamFold(st0, ps[..i], consumes, exampleFor)
    {
      assert ps[..i + 1][..i] == ps[..i];
      var p := ps[i];
      var v := ParamValue(p, exampleFor);
      match p.location {
        case "body" =>
          if Consumes(consumes, "application/json") && p.schemaJson.Some? {
            st := st.(raw := p.schemaJson.value);
          }
        case "header" =>
          st := st.(headers := st.headers + [KeyValue(p.name, v, true)]);
        case "query" =>
          st := st.(queries := st.queries + [KeyValue(p.name, v, false)]);
        case "formData" =>
          if Consumes(consumes, "application/x-www-form-urlencoded") {
            st := st.(urlencoded := st.urlencoded + [KeyValue(p.name, v, false)]);
          } else if Consumes(consumes, "multipart/form-data") {
            if p.paramType == "file" {
              st := st.(formFile := st.formFile + [FormDataFile(p.name, v, false, v)]);
            } else {
              st := st.(formText := st.formText + [KeyValue(p.name, v, false)]);
            }
          }
        case _ =>
      }
      i := i + 1;
    }
    assert ps[..|ps|] == ps;
  }

  /** Number of parameters with the given `in` field. */
  function CountIn(ps: seq<Parameter>, location: string): nat
    decreases |ps|
  {
    if ps == [] then 0 else CountIn(ps[..|ps| - 1], location) + (if ps[|ps| - 1].location == location then 1 else 0)
  }

  /** Header parameters add one checked header row each and query parameters one unchecked
      query row each; form-data parameters go to the url-encoded rows when that type is
      consumed, else to the file or text rows when multipart is consumed, else nowhere. */
  lemma ParamRouting(st: ParamRows, ps: seq<Parameter>, consumes: Option<seq<string>>, exampleFor: string -> string)
    ensures var r := ParamFold(st, ps, consumes, exampleFor);
      |r.headers| == |st.headers| + CountIn(ps, "header")
      && |r.queries| == |st.queries| + CountIn(ps, "query")
      && |r.urlencoded| == |st.urlencoded|
           + (if Consumes(consumes, "application/x-www-form-urlencoded") then CountIn(ps, "formData") else 0)
      && |r.formText| + |r.formFile| == |st.formText| + |st.formFile|
           + (if !Consumes(consumes, "application/x-www-form-urlencoded") && Consumes(consumes, "multipart/form-data")
              then CountIn(ps, "formData") else 0)
    ensures forall k :: 0 <= k < |ps| && ps[k].location == "header" ==>
      KeyValue(ps[k].name, ParamValue(ps[k], exampleFor), true) in ParamFold(st, ps, consumes, exampleFor).headers
    ensures forall k :: 0 <= k < |ps| && ps[k].location == "query" ==>
      KeyValue(ps[k].name, ParamValue(ps[k], exampleFor), false) in ParamFold(st, ps, consumes, exampleFor).queries
  {
    ParamRoutingCounts(st, ps, consumes, exampleFor);
    ParamRoutingRows(st, ps, consumes, exampleFor);
  }

  /** The row counts of `ParamRouting`. */
  lemma {:induction false} ParamRoutingCounts(st: ParamRows, ps: seq<Parameter>, consumes: Option<seq<string>>, exampleFor: string -> string)
    ensures var r := ParamFold(st, ps, consumes, exampleFor);
      |r.headers| == |st.headers| + CountIn(ps, "header")
      && |r.queries| == |st.queries| + CountIn(ps, "query")
      && |r.urlencoded| == |st.urlencoded|
           + (if Consumes(consumes, "application/x-www-form-urlencoded") then CountIn(ps, "formData") else 0)
      && |r.formText| + |r.formFile| == |st.formText| + |st.formFile|
           + (if !Consumes(consumes, "application/x-www-form-urlencoded") && Consumes(consumes, "multipart/form-data")
              then CountIn(ps, "formData") else 0)
    decreases |ps|
  {
    if ps != [] {
      ParamRoutingCounts(st, ps[..|ps| - 1], consumes, exampleFor);
    }
  }

  /** The header and query rows of `ParamRouting`. */
  lemma {:induction false} ParamRoutingRows(st: ParamRows, ps: seq<Parameter>, consumes: Option<seq<string>>, exampleFor: string -> string)
    ensures forall k :: 0 <= k < |ps| && ps[k].location == "header" ==>
      KeyValue(ps[k].name, ParamValue(ps[k], exampleFor), true) in ParamFold(st, ps, consumes, exampleFor).headers
    ensures forall k :: 0 <= k < |ps| && ps[k].location == "query" ==>
      KeyValue(ps[k].name, ParamValue(ps[k], exampleFor), false) in ParamFold(st, ps, consumes, exampleFor).queries
    decreases |ps|
  {
    if ps != [] {
      var init := ps[..|ps| - 1];
      ParamRoutingRows(st, init, consumes, exampleFor);
      assert forall k :: 0 <= k < |init| ==> ps[k] == init[k];
    }
  }

  /** Number of form-data parameters whose `type` is "file" (`isFile`) or not. */
  function CountForm(ps: seq<Parameter>, isFile: bool): nat
    decreases |ps|
  {
    if ps == [] then 0
    else
      var last := ps[|ps| - 1];
      CountForm(ps[..|ps| - 1], isFile) + (if last.location == "formData" && (last.paramType == "file") == isFile then 1 else 0)
  }

  /** With multipart consumed and url-encoded not, each form-data parameter of type "file"
      adds one file row, and each other one adds one text row. */
  lemma {:induction false} FormDataCounts(st: ParamRows, ps: seq<Parameter>, consumes: Option<seq<string>>, exampleFor: string -> string)
    ensures var r := ParamFold(st, ps, consumes, exampleFor);
      var multipartOnly := !Consumes(consumes, "application/x-www-form-urlencoded") && Consumes(consumes, "multipart/form-data");
      |r.formFile| == |st.formFile| + (if multipartOnly then CountForm(ps, true) else 0)
      && |r.formText| == |st.formText| + (if multipartOnly then CountForm(ps, false) else 0)
    decreases |ps|
  {
    if ps != [] {
      FormDataCounts(st, ps[..|ps| - 1], consumes, exampleFor);
    }
  }

  /** The rows a form-data parameter produces: an unchecked url-encoded row, or with multipart
      an unchecked file row (its value also the `base`) for type "file" and an unchecked text
      row otherwise. */
  lemma {:induction false} FormDataRows(st: ParamRows, ps: seq<Parameter>, consumes: Option<seq<string>>, exampleFor: string -> string)
    ensures forall k :: (0 <= k < |ps| && ps[k].location == "formData"
      && Consumes(consumes, "application/x-www-form-urlencoded")) ==>
      KeyValue(ps[k].name, ParamValue(ps[k], exampleFor), false) in ParamFold(st, ps, consumes, exampleFor).urlencoded
    ensures forall k :: (0 <= k < |ps| && ps[k].location == "formData" && ps[k].paramType == "file"
      && !Consumes(consumes, "application/x-www-form-urlencoded") && Consumes(consumes, "multipart/form-data")) ==>
      FormDataFile(ps[k].name, ParamValue(ps[k], exampleFor), false, ParamValue(ps[k], exampleFor))
        in ParamFold(st, ps, consumes, exampleFor).formFile
    ensures forall k :: (0 <= k < |ps| && ps[k].location == "formData" && ps[k].paramType != "file"
      && !Consumes(consumes, "application/x-www-form-urlencoded") && Consumes(consumes, "multipart/form-data")) ==>
      KeyValue(ps[k].name, ParamValue(ps[k], exampleFor), false) in ParamFold(st, ps, consumes, exampleFor).formText
    decreases |ps|
  {
    if ps != [] {
      var init := ps[..|ps| - 1];
      FormDataRows(st, init, consumes, exampleFor);
      assert forall k :: 0 <= k < |init| ==> ps[k] == init[k];
    }
  }

  /** The rows an `api_key` security definition adds before the parameters, and the API key it
      sets; the auth type is left at "No Auth". */
  function ApiKeySetup(sec: SecurityDefinitions, queries: seq<KeyValue>): (ParamRows, Auth)
  {
    var st := ParamRows([], queries, [], [], [], "");
    if sec.apiKey.None? then (st, EmptyAuth)
    else
      var k := sec.apiKey.value;
      if k.location == "header" then
        (st.(headers := [KeyValue(k.name, "", false)]), EmptyAuth.(apiKey := ApiKey(k.name, "", Header)))
      else if k.location == "query" then
        (st.(queries := queries + [KeyValue(k.name, "", false)]), EmptyAuth.(apiKey := ApiKey(k.name, "", QueryParameter)))
      else (st, EmptyAuth.(apiKey := ApiKey(k.name, "", Header)))
  }

  /** An `api_key` in the header adds an unchecked header row and is added to headers; one in
      the query adds an unchecked query row after the path's own and is added to the query. */
  lemma ApiKeyRouting(sec: SecurityDefinitions, queries: seq<KeyValue>)
    requires sec.apiKey.Some?
    ensures ApiKeySetup(sec, queries).1.apiKey.authKey == sec.apiKey.value.name
    ensures sec.apiKey.value.location == "header" ==>
      ApiKeySetup(sec, queries).0.headers == [KeyValue(sec.apiKey.value.name, "", false)]
      && ApiKeySetup(sec, queries).1.apiKey.addTo == Header
      && ApiKeySetup(sec, queries).0.queries == queries
    ensures sec.apiKey.value.location == "query" ==>
      ApiKeySetup(sec, queries).0.queries == queries + [KeyValue(sec.apiKey.value.name, "", false)]
      && ApiKeySetup(sec, queries).1.apiKey.addTo == QueryParameter
      && ApiKeySetup(sec, queries).0.headers == []
  {
  }

  // ---------------------------------------------------------------------------------------
  // One operation, one path

  /** The folder tag of an operation: its first tag, or "default" when it has none (an empty
      `tags` array yields an undefined tag, which the grouping step also reads as "default"). */
  function OperationTag(op: Operation): string
  {
    if op.tags.Some? && |op.tags.value| > 0 then op.tags.value[0] else "default"
  }

  /** The request item `transformPath` builds for one method entry. */
  function OperationItem(pathName: string, methodKey: string, op: Operation, sec: SecurityDefinitions, exampleFor: string -> string): TransformedRequest
  {
    var walk := PathWalk(DropEmpty(Split(pathName, '/')));
    var setup := ApiKeySetup(sec, QueryRows(walk.queries));
    var rows := ParamFold(setup.0, if op.parameters.Some? then op.parameters.value else [], op.consumes, exampleFor);
    var request := RequestData(
      Upper(methodKey),
      Join(walk.kept),
      Body(rows.raw, rows.urlencoded, rows.formText, rows.formFile),
      rows.headers,
      rows.queries,
      setup.1,
      ConsumesBodyMode(op.consumes),
      NoAuth);
    TransformedRequest(
      pathName,
      if Truthy(op.summary) then op.summary.value else if Truthy(op.description) then op.description.value else "",
      Request,
      Spec,
      PadDefaults(request),
      OperationTag(op),
      op.operationId)
  }

  /** The body of the `transformPath` loop for one method entry. */
  method BuildOperation(pathName: string, methodKey: string, op: Operation, sec: SecurityDefinitions, exampleFor: string -> string)
    returns (item: TransformedRequest)
    ensures item == OperationItem(pathName, methodKey, op, sec, exampleFor)
  {
    var url, queryParams := WalkPath(DropEmpty(Split(pathName, '/')));
    var setup := ApiKeySetup(sec, queryParams);
    var rows := RouteParameters(setup.0, if op.parameters.Some? then op.parameters.value else [], op.consumes, exampleFor);
    var description := if Truthy(op.summary) then op.summary.value else if Truthy(op.description) then op.description.value else "";
    var request := RequestData(Upper(methodKey), url, Body(rows.raw, rows.urlencoded, rows.formText, rows.formFile),
      rows.headers, rows.queries, setup.1, ConsumesBodyMode(op.consumes), NoAuth);
    item := TransformedRequest(pathName, description, Request, Spec, PadDefaults(request), OperationTag(op), op.operationId);
  }

  /** The items of one path item object: one per entry, in order. */
  function PathOperations(pathName: string, entries: seq<(string, Operation)>, sec: SecurityDefinitions, exampleFor: string -> string)
    : seq<TransformedRequest>
  {
    seq(|entries|, k requires 0 <= k < |entries| => OperationItem(pathName, entries[k].0, entries[k].1, sec, exampleFor))
  }

  lemma PathOperationsSnoc(pathName: string, entries: seq<(string, Operation)>, i: nat, sec: SecurityDefinitions, exampleFor: string -> string)
    requires i < |entries|
    ensures PathOperations(pathName, entries[..i + 1], sec, exampleFor)
      == PathOperations(pathName, entries[..i], sec, exampleFor) + [OperationItem(pathName, entries[i].0, entries[i].1, sec, exampleFor)]
  {
    var a := PathOperations(pathName, entries[..i + 1], sec, exampleFor);
    var b := PathOperations(pathName, entries[..i], sec, exampleFor) + [OperationItem(pathName, entries[i].0, entries[i].1, sec, exampleFor)];
    assert |a| == |b|;
    forall k | 0 <= k < i + 1
      ensures a[k] == b[k]
    {
      var e := entries[k];
      assert entries[..i + 1][k] == e;
      assert a[k] == OperationItem(pathName, e.0, e.1, sec, exampleFor);
      if k < i {
        assert entries[..i][k] == e;
      }
    }
  }

  /** `transformPath`: one request item per entry of the path item object, in order. */
  method TransformPath(pathName: string, entries: seq<(string, Operation)>, sec: SecurityDefinitions, exampleFor: string -> string)
    returns (items: seq<TransformedRequest>)
    ensures items == PathOperations(pathName, entries, sec, exampleFor)
  {
    items := [];
    var i := 0;
    while i < |entries|
      invariant 0 <= i <= |entries|
      invariant items == PathOperations(pathName, entries[..i], sec, exampleFor)
    {
      var item := BuildOperation(pathName, entries[i].0, entries[i].1, sec, exampleFor);
      PathOperationsSnoc(pathName, entries, i, sec, exampleFor);
      items := items + [item];
      i := i + 1;
    }
    assert entries[..|entries|] == entries;
  }

  /** Each item is named after its path, uses the upper-cased method key, the URL built from
      the template and the `consumes` body type, keeps "No Auth", and has no empty list. */
  lemma OperationItemShape(pathName: string, methodKey: string, op: Operation, sec: SecurityDefinitions, exampleFor: string -> string)
    ensures var item := OperationItem(pathName, methodKey, op, sec, exampleFor);
      item.name == pathName && item.itemType == Request && item.source == Spec
      && item.request.httpMethod == Upper(methodKey)
      && item.request.url == Join(PathWalk(DropEmpty(Split(pathName, '/'))).kept)
      && item.request.bodyType == ConsumesBodyMode(op.consumes)
      && item.request.authType == NoAuth
      && Padded(item.request)
      && item.tag == OperationTag(op)
      && (Truthy(op.summary) ==> item.description == op.summary.value)
      && (!Truthy(op.summary) && Truthy(op.description) ==> item.description == op.description.value)
      && (!Truthy(op.summary) && !Truthy(op.description) ==> item.description == "")
  {
  }

  // ---------------------------------------------------------------------------------------
  // Folders per tag (`createCollectionItems`)

  /** The request items of every operation of every path, in document order. */
  function PathItems(paths: seq<(string, seq<(string, Operation)>)>, sec: SecurityDefinitions, exampleFor: string -> string): seq<TransformedRequest>
    decreases |paths|
  {
    if paths == [] then []
    else
      var last := paths[|paths| - 1];
      PathItems(paths[..|paths| - 1], sec, exampleFor) + PathOperations(last.0, last.1, sec, exampleFor)
  }

  lemma PathItemsStep(paths: seq<(string, seq<(string, Operation)>)>, p: nat, sec: SecurityDefinitions, exampleFor: string -> string)
    requires p < |paths|
    ensures PathItems(paths[..p + 1], sec, exampleFor)
      == PathItems(paths[..p], sec, exampleFor) + PathOperations(paths[p].0, paths[p].1, sec, exampleFor)
  {
    assert paths[..p + 1][..p] == paths[..p];
  }

  predicate HasOperations(paths: seq<(string, seq<(string, Operation)>)>)
  {
    exists k :: 0 <= k < |paths| && paths[k].1 != []
  }

  /** The items collected before grouping, or the error of a missing `securityDefinitions`. */
  function CollectedItems(doc: Document, exampleFor: string -> string): Result<seq<TransformedRequest>, ImportError>
  {
    if !doc.hasDefinitions then Ok([])
    else if doc.securityDefinitions.None? then (if HasOperations(doc.paths) then Err(SecurityDefinitionsMissing) else Ok([]))
    else Ok(PathItems(doc.paths, doc.securityDefinitions.value, exampleFor))
  }

  /** The document's tags, or the single default tag when it has none. */
  function EffectiveTags(tags: Option<seq<TagDef>>): seq<TagDef>
  {
    if tags.None? then [TagDef("default", "This is a default folder")] else tags.value
  }

  /** The description of the last tag with the given name, or "". */
  function TagDescription(tags: seq<TagDef>, name: string): string
    decreases |tags|
  {
    if tags == [] then ""
    else if tags[|tags| - 1].name == name then tags[|tags| - 1].description
    else TagDescription(tags[..|tags| - 1], name)
  }

  /** The tag-description loop: the last matching tag wins. */
  method FindTagDescription(tags: seq<TagDef>, name: string) returns (d: string)
    ensures d == TagDescription(tags, name)
  {
    d := "";
    var i := 0;
    while i < |tags|
      invariant 0 <= i <= |tags|
      invariant d == TagDescription(tags[..i], name)
    {
      assert tags[..i + 1][..i] == tags[..i];
      if tags[i].name == name {
        d := tags[i].description;
      }
      i := i + 1;
    }
    assert tags[..|tags|] == tags;
  }

  /** The description comes from the last tag with that name; without one it is "". */
  lemma {:induction false} TagDescriptionLastMatch(tags: seq<TagDef>, name: string, i: nat)
    requires i < |tags| && tags[i].name == name
    requires forall j :: i < j < |tags| ==> tags[j].name != name
    ensures TagDescription(tags, name) == tags[i].description
    decreases |tags|
  {
    if i < |tags| - 1 {
      TagDescriptionLastMatch(tags[..|tags| - 1], name, i);
    }
  }

  /** An item as stored in its folder: URL prefixed with the base URL, tag deleted (""). */
  function Stored(item: TransformedRequest, baseUrl: string): TransformedRequest
  {
    item.(tag := "", request := item.request.(url := baseUrl + item.request.url))
  }

  /** Index of the folder with that name (`folderMap.get`), or `|fs|`. */
  function FolderIndex(fs: seq<TagFolder>, name: string): (k: nat)
    ensures k <= |fs|
    ensures k < |fs| ==> fs[k].name == name
    ensures forall j :: 0 <= j < k ==> fs[j].name != name
  {
    if fs == [] then 0 else if fs[0].name == name then 0 else 1 + FolderIndex(fs[1..], name)
  }

  /** One step of the grouping loop. */
  function AddToFolder(fs: seq<TagFolder>, item: TransformedRequest, tags: seq<TagDef>, baseUrl: string): seq<TagFolder>
  {
    var k := FolderIndex(fs, item.tag);
    if k < |fs| then fs[k := fs[k].(items := fs[k].items + [Stored(item, baseUrl)])]
    else fs + [TagFolder(item.tag, TagDescription(tags, item.tag), [Stored(item, baseUrl)])]
  }

  function Grouped(items: seq<TransformedRequest>, tags: seq<TagDef>, baseUrl: string): seq<TagFolder>
    decreases |items|
  {
    if items == [] then [] else AddToFolder(Grouped(items[..|items| - 1], tags, baseUrl), items[|items| - 1], tags, baseUrl)
  }

  /** The stored form of the items with the given tag, in order. */
  function Tagged(items: seq<TransformedRequest>, tag: string, baseUrl: string): seq<TransformedRequest>
    decreases |items|
  {
    if items == [] then []
    else
      var last := items[|items| - 1];
      Tagged(items[..|items| - 1], tag, baseUrl) + (if last.tag == tag then [Stored(last, baseUrl)] else [])
  }

  /** The path loop of `createCollectionItems` when the document has `securityDefinitions`:
      the items of every path, in order. */
  method CollectPathItems(paths: seq<(string, seq<(string, Operation)>)>, sec: SecurityDefinitions, exampleFor: string -> string)
    returns (items: seq<TransformedRequest>)
    ensures items == PathItems(paths, sec, exampleFor)
  {
    items := [];
    var p := 0;
    while p < |paths|
      invariant 0 <= p <= |paths|
      invariant items == PathItems(paths[..p], sec, exampleFor)
    {
      var pathItems := TransformPath(paths[p].0, paths[p].1, sec, exampleFor);
      PathItemsStep(paths, p, sec, exampleFor);
      items := items + pathItems;
      p := p + 1;
    }
    assert paths[..|paths|] == paths;
  }

  /** The path loop of `createCollectionItems` when `securityDefinitions` is missing:
      `transformPath` reads `security.api_key` for the first operation and fails there. */
  method FirstOperationFails(paths: seq<(string, seq<(string, Operation)>)>) returns (r: Result<seq<TransformedRequest>, ImportError>)
    ensures r == if HasOperations(paths) then Err(SecurityDefinitionsMissing) else Ok([])
  {
    var p := 0;
    while p < |paths|
      invariant 0 <= p <= |paths|
      invariant forall j :: 0 <= j < p ==> paths[j].1 == []
    {
      if paths[p].1 != [] {
        return Err(SecurityDefinitionsMissing);
      }
      p := p + 1;
    }
    r := Ok([]);
  }

  /** The path loop of `createCollectionItems`: every operation becomes an item, and a document
      with definitions but without `securityDefinitions` is refused at its first operation. */
  method CollectItems(doc: Document, exampleFor: string -> string)
    returns (r: Result<seq<TransformedRequest>, ImportError>)
    ensures r == CollectedItems(doc, exampleFor)
  {
    if !doc.hasDefinitions {
      return Ok([]);
    }
    if doc.securityDefinitions.None? {
      r := FirstOperationFails(doc.paths);
    } else {
      var items := CollectPathItems(doc.paths, doc.securityDefinitions.value, exampleFor);
      r := Ok(items);
    }
  }

  /** The folder loop of `createCollectionItems`: each item goes to the folder of its tag,
      created on first use with the tag's description. */
  method GroupItems(items: seq<TransformedRequest>, tags: seq<TagDef>, baseUrl: string)
    returns (folders: seq<TagFolder>)
    ensures folders == Grouped(items, tags, baseUrl)
  {
    folders := [];
    var i := 0;
    while i < |items|
      invariant 0 <= i <= |items|
      invariant folders == Grouped(items[..i], tags, baseUrl)
    {
      assert items[..i + 1][..i] == items[..i];
      var item := items[i];
      var description := FindTagDescription(tags, item.tag);
      var k := FolderIndex(folders, item.tag);
      if k < |folders| {
        folders := folders[k := folders[k].(items := folders[k].items + [Stored(item, baseUrl)])];
      } else {
        folders := folders + [TagFolder(item.tag, description, [Stored(item, baseUrl)])];
      }
      i := i + 1;
    }
    assert items[..|items|] == items;
  }

  /** `createCollectionItems`: collect the items, then put each into its tag's folder. */
  method CreateCollectionItems(doc: Document, baseUrl: string, exampleFor: string -> string)
    returns (r: Result<seq<TagFolder>, ImportError>)
    ensures CollectedItems(doc, exampleFor).Err? ==> r == Err(CollectedItems(doc, exampleFor).error)
    ensures CollectedItems(doc, exampleFor).Ok? ==>
      r == Ok(Grouped(CollectedItems(doc, exampleFor).value, EffectiveTags(doc.tags), baseUrl))
  {
    var items := CollectItems(doc, exampleFor);
    if items.Err? {
      return Err(items.error);
    }
    var folders := GroupItems(items.value, EffectiveTags(doc.tags), baseUrl);
    r := Ok(folders);
  }

  function NameSet(fs: seq<TagFolder>): set<string>
  {
    set a | 0 <= a < |fs| :: fs[a].name
  }

  function TagSet(items: seq<TransformedRequest>): set<string>
  {
    set j | 0 <= j < |items| :: items[j].tag
  }

  predicate DistinctNames(fs: seq<TagFolder>)
  {
    forall a, b :: 0 <= a < b < |fs| ==> fs[a].name != fs[b].name
  }

  /** One folder per distinct tag: the names are distinct and are exactly the items' tags. */
  lemma {:induction false} GroupedNames(items: seq<TransformedRequest>, tags: seq<TagDef>, baseUrl: string)
    ensures DistinctNames(Grouped(items, tags, baseUrl))
    ensures NameSet(Grouped(items, tags, baseUrl)) == TagSet(items)
    decreases |items|
  {
    if items != [] {
      var init := items[..|items| - 1];
      GroupedNames(init, tags, baseUrl);
      TagSetSnoc(items);
      AddToFolderNames(Grouped(init, tags, baseUrl), items[|items| - 1], tags, baseUrl);
    }
  }

  lemma TagSetSnoc(items: seq<TransformedRequest>)
    requires items != []
    ensures TagSet(items) == TagSet(items[..|items| - 1]) + {items[|items| - 1].tag}
  {
    var init := items[..|items| - 1];
    assert forall j :: 0 <= j < |init| ==> items[j] == init[j];
  }

  /** One grouping step keeps the folder names distinct and adds the item's tag to them. */
  lemma AddToFolderNames(fs0: seq<TagFolder>, item: TransformedRequest, tags: seq<TagDef>, baseUrl: string)
    requires DistinctNames(fs0)
    ensures DistinctNames(AddToFolder(fs0, item, tags, baseUrl))
    ensures NameSet(AddToFolder(fs0, item, tags, baseUrl)) == NameSet(fs0) + {item.tag}
  {
    var fs := AddToFolder(fs0, item, tags, baseUrl);
    var k := FolderIndex(fs0, item.tag);
    if k < |fs0| {
      assert forall a :: 0 <= a < |fs0| ==> fs[a].name == fs0[a].name;
      assert NameSet(fs) == NameSet(fs0);
    } else {
      assert forall a :: 0 <= a < |fs0| ==> fs[a] == fs0[a];
      assert fs[|fs0|].name == item.tag;
      assert NameSet(fs) == NameSet(fs0) + {item.tag};
    }
  }

  /** Each folder holds exactly the items with its tag, in their original order, with the
      base URL prefixed. */
  lemma {:induction false} GroupedItems(items: seq<TransformedRequest>, tags: seq<TagDef>, baseUrl: string)
    ensures forall a :: 0 <= a < |Grouped(items, tags, baseUrl)| ==>
      Grouped(items, tags, baseUrl)[a].items == Tagged(items, Grouped(items, tags, baseUrl)[a].name, baseUrl)
    decreases |items|
  {
    if items != [] {
      var init := items[..|items| - 1];
      var last := items[|items| - 1];
      GroupedItems(init, tags, baseUrl);
      GroupedNames(init, tags, baseUrl);
      var fs0 := Grouped(init, tags, baseUrl);
      var fs := Grouped(items, tags, baseUrl);
      var k := FolderIndex(fs0, last.tag);
      if k == |fs0| {
        assert last.tag !in TagSet(init) by {
          assert last.tag !in NameSet(fs0);
        }
        TaggedNone(init, last.tag, baseUrl);
      }
    }
  }

  /** Each folder's description is the one of the last tag with its name. */
  lemma {:induction false} GroupedDescriptions(items: seq<TransformedRequest>, tags: seq<TagDef>, baseUrl: string)
    ensures forall a :: 0 <= a < |Grouped(items, tags, baseUrl)| ==>
      Grouped(items, tags, baseUrl)[a].description == TagDescription(tags, Grouped(items, tags, baseUrl)[a].name)
    decreases |items|
  {
    if items != [] {
      GroupedDescriptions(items[..|items| - 1], tags, baseUrl);
    }
  }

  lemma {:induction false} TaggedNone(items: seq<TransformedRequest>, tag: string, baseUrl: string)
    requires tag !in TagSet(items)
    ensures Tagged(items, tag, baseUrl) == []
    decreases |items|
  {
    if items != [] {
      var init := items[..|items| - 1];
      assert items[|items| - 1].tag in TagSet(items);
      assert TagSet(init) <= TagSet(items) by {
        assert forall j :: 0 <= j < |init| ==> init[j] == items[j];
      }
      TaggedNone(init, tag, baseUrl);
    }
  }
}
