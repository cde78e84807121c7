/** The collection item and request record shared by the request importers
    (`collection.model` and the request record they build). */
module CollectionModel {

  datatype ItemType = Folder | Request | WebSocket | SocketIo | GraphQl | RequestResponse

  datatype SourceType = Spec | User

  datatype BodyMode =
    | NoBody | Json | Xml | Yaml | UrlEncoded | Multipart | JavaScript | TextPlain | TextHtml

  datatype AuthMode = NoAuth | InheritAuth | ApiKeyAuth | BearerToken | BasicAuthMode

  datatype AddTo = Header | QueryParameter

  datatype KeyValue = KeyValue(key: string, value: string, checked: bool)

  datatype FormDataFile = FormDataFile(key: string, value: string, checked: bool, base: string)

  datatype BasicAuth = BasicAuth(username: string, password: string)

  datatype ApiKey = ApiKey(authKey: string, authValue: string, addTo: AddTo)

  datatype Auth = Auth(bearerToken: string, basicAuth: BasicAuth, apiKey: ApiKey)

  datatype Body = Body(
    raw: string,
    urlencoded: seq<KeyValue>,
    formText: seq<KeyValue>,
    formFile: seq<FormDataFile>)

  datatype RequestData = RequestData(
    httpMethod: string,
    url: string,
    body: Body,
    headers: seq<KeyValue>,
    queryParams: seq<KeyValue>,
    auth: Auth,
    bodyType: BodyMode,
    authType: AuthMode)

  /** The imported request item (creator names and timestamps are not modelled). */
  datatype TransformedRequest = TransformedRequest(
    name: string,
    description: string,
    itemType: ItemType,
    source: SourceType,
    request: RequestData,
    tag: string,
    operationId: string)

  const DefaultRow := KeyValue("", "", false)
  const DefaultFile := FormDataFile("", "", false, "")

  /** The empty body, headers and auth both importers start from. */
  const EmptyAuth := Auth("", BasicAuth("", ""), ApiKey("", "", Header))
  const EmptyBody := Body("", [], [], [])

  /** Every list of the request holds at least one row. */
  predicate Padded(r: RequestData)
  {
    |r.headers| > 0 && |r.queryParams| > 0 && |r.body.urlencoded| > 0
    && |r.body.formText| > 0 && |r.body.formFile| > 0
  }

  function PadRows(rows: seq<KeyValue>): (r: seq<KeyValue>)
    ensures rows != [] ==> r == rows
    ensures rows == [] ==> r == [DefaultRow]
  {
    if rows == [] then [DefaultRow] else rows
  }

  /** "Assign default values": each empty list receives one default row; the others are kept. */
  function PadDefaults(r: RequestData): (p: RequestData)
    ensures Padded(p)
    ensures p.httpMethod == r.httpMethod && p.url == r.url && p.auth == r.auth
    ensures p.bodyType == r.bodyType && p.authType == r.authType && p.body.raw == r.body.raw
    ensures p.headers == PadRows(r.headers) && p.queryParams == PadRows(r.queryParams)
    ensures p.body.urlencoded == PadRows(r.body.urlencoded) && p.body.formText == PadRows(r.body.formText)
    ensures p.body.formFile == if r.body.formFile == [] then [DefaultFile] else r.body.formFile
  {
    r.(headers := PadRows(r.headers),
       queryParams := PadRows(r.queryParams),
       body := r.body.(urlencoded := PadRows(r.body.urlencoded),
                       formText := PadRows(r.body.formText),
                       formFile := if r.body.formFile == [] then [DefaultFile] else r.body.formFile))
  }
}
