/** The Magento 2 REST client: request shaping, the session's headers and the mapping of
    every failure of a sent request to one API error. */
module MagentoApi {
  import opened Results
  import opened Strings
  import opened JsonValues

  datatype Method = GET | PUT

  /** One request as the HTTP session issues it. The URL is kept as the base URL and the endpoint
      that are joined into it. */
  datatype Request = Request(
    verb: Method,
    baseUrl: string,
    endpoint: string,
    json: Option<Json>,
    headers: map<string, string>,
    timeout: int,
    verifySsl: bool)

  /** What the HTTP layer (session, adapters and their retry policy, network, Magento server)
      hands back for one request, after its own retries. */
  datatype Reply =
      /** A response arrived: its status code, its text, and what decoding the text as JSON gives
          (the value, or the decoder's error message). */
    | Response(status: int, text: string, decoded: Result<Json, string>)
      /** The request raised a connection error (a connect timeout is one of these). */
    | ConnectionFailed(detail: string)
      /** `requests` raised `Timeout`. Behind the mounted retry policy a read timeout is retried
          and, once retries run out, arrives as a connection error; `Timeout` itself comes only
          from a session that raises it directly. */
    | TimedOut
      /** The request raised any other exception, with its message. */
    | OtherFailure(detail: string)

  /** The client's single exception type. */
  datatype ApiError = ApiError(message: string)

  /** The four message forms an ApiError can take. */
  datatype FailureKind = HttpStatus | Connection | Timeout | Unexpected

  const HttpPrefix: string := "HTTP "
  const ConnectionPrefix: string := "Connection error: "
  const TimeoutPrefix: string := "Request timeout after "
  const UnexpectedPrefix: string := "Unexpected error: "
  const NotFoundMarker: string := "404"

  const ProductsPath: string := "/rest/V1/products/"
  const StockItemSuffix: string := "/stockItems/1"
  const StoreConfigsEndpoint: string := "/rest/V1/store/storeConfigs"

  const JsonContentType: string := "application/json"

  // ---------------------------------------------------------------------------
  // Construction
  // ---------------------------------------------------------------------------

  /** The headers the constructor puts on the session. */
  function SessionHeaders(accessToken: string): (h: map<string, string>)
    ensures h.Keys == {"Authorization", "Content-Type", "Accept"}
    ensures h["Authorization"] == "Bearer " + accessToken
    ensures h["Content-Type"] == JsonContentType && h["Accept"] == JsonContentType
  {
    map["Authorization" := "Bearer " + accessToken,
        "Content-Type" := JsonContentType,
        "Accept" := JsonContentType]
  }

  // ---------------------------------------------------------------------------
  // Endpoints and payload
  // ---------------------------------------------------------------------------

  /** The product resource of `sku`; the SKU is inserted as it is. */
  function ProductEndpoint(sku: string): (e: string)
    ensures ProductsPath <= e && e[|ProductsPath|..] == sku
  {
    ProductsPath + sku
  }

  /** The stock item resource of `sku`. */
  function StockItemEndpoint(sku: string): (e: string)
    ensures |e| == |ProductsPath| + |sku| + |StockItemSuffix|
    ensures ProductsPath <= e && e[|ProductsPath|..|e| - |StockItemSuffix|] == sku
    ensures e[|e| - |StockItemSuffix|..] == StockItemSuffix
  {
    ProductEndpoint(sku) + StockItemSuffix
  }

  /** Different SKUs give different endpoint strings. */
  lemma EndpointsInjective(a: string, b: string)
    ensures ProductEndpoint(a) == ProductEndpoint(b) ==> a == b
    ensures StockItemEndpoint(a) == StockItemEndpoint(b) ==> a == b
  {
    if StockItemEndpoint(a) == StockItemEndpoint(b) {
      var e := StockItemEndpoint(a);
      assert a == e[|ProductsPath|..|e| - |StockItemSuffix|];
    }
  }

  /** The stock flag sent: an explicit flag as given, otherwise whether the quantity is positive. */
  function InStockFlag(quantity: real, isInStock: Option<bool>): (flag: bool)
    ensures isInStock.Some? ==> flag == isInStock.value
    ensures isInStock.None? ==> (flag <==> quantity > 0.0)
  {
    match isInStock
    case Some(explicit) => explicit
    case None => quantity > 0.0
  }

  /** The stock item fields as the server reads them out of a request body. */
  datatype StockItem = StockItem(qty: real, isInStock: bool)

  function ReadStockItem(body: Json): Option<StockItem> {
    if body.JObject? && "stockItem" in body.fields && body.fields["stockItem"].JObject? then
      var item := body.fields["stockItem"].fields;
      if "qty" in item && item["qty"].JNumber? && "is_in_stock" in item && item["is_in_stock"].JBool? then
        Some(StockItem(item["qty"].n, item["is_in_stock"].b))
      else
        None
    else
      None
  }

  /** The body of the stock update: one object `stockItem` holding exactly `qty` and `is_in_stock`. */
  function StockPayload(quantity: real, inStock: bool): (body: Json)
    ensures body.JObject? && body.fields.Keys == {"stockItem"}
    ensures body.fields["stockItem"].JObject? && body.fields["stockItem"].fields.Keys == {"qty", "is_in_stock"}
    ensures ReadStockItem(body) == Some(StockItem(quantity, inStock))
  {
    JObject(map["stockItem" := JObject(map["qty" := JNumber(quantity), "is_in_stock" := JBool(inStock)])])
  }

  // ---------------------------------------------------------------------------
  // Error mapping
  // ---------------------------------------------------------------------------

  /** `raise_for_status` raises for client errors (4xx) and server errors (5xx). */
  predicate RaisesForStatus(status: int) {
    400 <= status < 600
  }

  /** Whether a reply makes the request fail, and in which except clause. */
  function FailureOf(reply: Reply): Option<FailureKind> {
    match reply
    case Response(status, text, decoded) =>
      if RaisesForStatus(status) then Some(HttpStatus)
      else if text != "" && decoded.Failure? then Some(Unexpected)
      else None
    case ConnectionFailed(_) => Some(Connection)
    case TimedOut => Some(Timeout)
    case OtherFailure(_) => Some(Unexpected)
  }

  /** The failure kind a message announces by its prefix. */
  function MessageKind(message: string): Option<FailureKind> {
    if HttpPrefix <= message then Some(HttpStatus)
    else if ConnectionPrefix <= message then Some(Connection)
    else if TimeoutPrefix <= message then Some(Timeout)
    else if UnexpectedPrefix <= message then Some(Unexpected)
    else None
  }

  function HttpErrorMessage(status: int, text: string): string {
    HttpPrefix + IntToString(status) + ": " + text
  }

  function TimeoutMessage(timeout: int): string {
    TimeoutPrefix + IntToString(timeout) + "s"
  }

  /** Each message form is recognised by its prefix: the four prefixes start with different letters. */
  lemma MessageKinds(status: int, text: string, detail: string, timeout: int)
    ensures MessageKind(HttpErrorMessage(status, text)) == Some(HttpStatus)
    ensures MessageKind(ConnectionPrefix + detail) == Some(Connection)
    ensures MessageKind(TimeoutMessage(timeout)) == Some(Timeout)
    ensures MessageKind(UnexpectedPrefix + detail) == Some(Unexpected)
  {
    var h := HttpErrorMessage(status, text);
    assert h == HttpPrefix + (IntToString(status) + ": " + text);
    var c := ConnectionPrefix + detail;
    assert !(HttpPrefix <= c) by { assert HttpPrefix[0] != c[0]; }
    var t := TimeoutMessage(timeout);
    assert t == TimeoutPrefix + (IntToString(timeout) + "s");
    assert !(HttpPrefix <= t) by { assert HttpPrefix[0] != t[0]; }
    assert !(ConnectionPrefix <= t) by { assert ConnectionPrefix[0] != t[0]; }
    var u := UnexpectedPrefix + detail;
    assert !(HttpPrefix <= u) by { assert HttpPrefix[0] != u[0]; }
    assert !(ConnectionPrefix <= u) by { assert ConnectionPrefix[0] != u[0]; }
    assert !(TimeoutPrefix <= u) by { assert TimeoutPrefix[0] != u[0]; }
  }

  /** The outcome of `_make_request` for a reply: the decoded body (an empty object for an empty
      text) or one ApiError whose message prefix names the failure. */
  function RequestResult(reply: Reply, timeout: int): (r: Result<Json, ApiError>)
    ensures r.Failure? <==> FailureOf(reply).Some?
    ensures r.Failure? ==> MessageKind(r.error.message) == FailureOf(reply)
    ensures r.Success? ==> r.value == if reply.text == "" then JObject(map[]) else reply.decoded.value
  {
    match reply
    case Response(status, text, decoded) =>
      if RaisesForStatus(status) then
        MessageKinds(status, text, "", timeout);
        Failure(ApiError(HttpErrorMessage(status, text)))
      else if text == "" then
        Success(JObject(map[]))
      else
        (match decoded
         case Success(body) => Success(body)
         case Failure(detail) =>
           MessageKinds(status, text, detail, timeout);
           Failure(ApiError(UnexpectedPrefix + detail)))
    case ConnectionFailed(detail) =>
      MessageKinds(0, "", detail, timeout);
      Failure(ApiError(ConnectionPrefix + detail))
    case TimedOut =>
      MessageKinds(0, "", "", timeout);
      Failure(ApiError(TimeoutMessage(timeout)))
    case OtherFailure(detail) =>
      MessageKinds(0, "", detail, timeout);
      Failure(ApiError(UnexpectedPrefix + detail))
  }

  /** `get_product_by_sku`'s reading of a request outcome: a failure whose message contains
      "404" anywhere means "no such product"; every other failure is passed on. */
  function ProductLookup(r: Result<Json, ApiError>): (p: Result<Option<Json>, ApiError>)
    ensures p == Success(None) <==> r.Failure? && Contains(r.error.message, NotFoundMarker)
    ensures r.Success? ==> p == Success(Some(r.value))
    ensures p.Failure? ==> r.Failure? && p.error == r.error
  {
    match r
    case Success(body) => Success(Some(body))
    case Failure(e) => if Contains(e.message, NotFoundMarker) then Success(None) else Failure(e)
  }

  // ---------------------------------------------------------------------------
  // When a product counts as not found
  // ---------------------------------------------------------------------------

  /** The replies for which `get_product_by_sku` reports "not found", stated per reply kind:
      the substring "404" may come from the status code, the response text, an exception's
      message, or the configured timeout. */
  predicate NotFoundReply(reply: Reply, timeout: int) {
    match reply
    case Response(status, text, decoded) =>
      if RaisesForStatus(status) then status == 404 || Contains(text, NotFoundMarker)
      else text != "" && decoded.Failure? && Contains(decoded.error, NotFoundMarker)
    case ConnectionFailed(detail) => Contains(detail, NotFoundMarker)
    case TimedOut => Contains(IntToString(timeout), NotFoundMarker)
    case OtherFailure(detail) => Contains(detail, NotFoundMarker)
  }

  /** A fixed prefix without the digit 4 neither adds nor hides an occurrence of "404". */
  lemma MarkerAfterPrefix(prefix: string, rest: string)
    requires forall k | 0 <= k < |prefix| :: prefix[k] != '4'
    ensures Contains(prefix + rest, NotFoundMarker) <==> Contains(rest, NotFoundMarker)
  {
    if Contains(prefix + rest, NotFoundMarker) {
      ContainsPastPrefix(prefix, rest, NotFoundMarker);
    }
    if Contains(rest, NotFoundMarker) {
      ContainsInfix(prefix, rest, "", NotFoundMarker);
      assert prefix + rest + "" == prefix + rest;
    }
  }

  lemma HttpMessageMarker(status: int, text: string)
    requires RaisesForStatus(status)
    ensures Contains(HttpErrorMessage(status, text), NotFoundMarker) <==>
            status == 404 || Contains(text, NotFoundMarker)
  {
    var digits := IntToString(status);
    ThreeDigitContains404(status);
    var tail := [' '] + text;
    assert HttpErrorMessage(status, text) == HttpPrefix + (digits + [':'] + tail);
    MarkerAfterPrefix(HttpPrefix, digits + [':'] + tail);
    MarkerAfterPrefix([' '], text);
    if Contains(digits + [':'] + tail, NotFoundMarker) {
      ContainsAcrossSeparator(digits, ':', tail, NotFoundMarker);
    }
    if Contains(digits, NotFoundMarker) {
      ContainsInfix([], digits, [':'] + tail, NotFoundMarker);
      assert [] + digits + ([':'] + tail) == digits + [':'] + tail;
    }
    if Contains(tail, NotFoundMarker) {
      ContainsInfix(digits + [':'], tail, [], NotFoundMarker);
      assert digits + [':'] + tail + [] == digits + [':'] + tail;
    }
  }

  lemma TimeoutMessageMarker(timeout: int)
    ensures Contains(TimeoutMessage(timeout), NotFoundMarker) <==> Contains(IntToString(timeout), NotFoundMarker)
  {
    var digits := IntToString(timeout);
    assert TimeoutMessage(timeout) == TimeoutPrefix + (digits + "s");
    MarkerAfterPrefix(TimeoutPrefix, digits + "s");
    if Contains(digits + "s", NotFoundMarker) {
      ContainsBeforeSuffix(digits, "s", NotFoundMarker);
    }
    if Contains(digits, NotFoundMarker) {
      ContainsInfix([], digits, "s", NotFoundMarker);
      assert [] + digits + "s" == digits + "s";
    }
  }

  /** `get_product_by_sku` reports "not found" exactly for the replies NotFoundReply describes;
      every other failing reply is raised, every other reply is returned as the product. */
  lemma ProductNotFoundExactly(reply: Reply, timeout: int)
    ensures ProductLookup(RequestResult(reply, timeout)) == Success(None) <==> NotFoundReply(reply, timeout)
  {
    match reply
    case Response(status, text, decoded) =>
      if RaisesForStatus(status) {
        HttpMessageMarker(status, text);
      } else if text != "" && decoded.Failure? {
        MarkerAfterPrefix(UnexpectedPrefix, decoded.error);
      }
    case ConnectionFailed(detail) =>
      MarkerAfterPrefix(ConnectionPrefix, detail);
    case TimedOut =>
      TimeoutMessageMarker(timeout);
    case OtherFailure(detail) =>
      MarkerAfterPrefix(UnexpectedPrefix, detail);
  }

  /** A 400 whose body mentions 404, and a timeout configured as 404 seconds, are both taken for a
      missing product: the test is on the message text, not on the status code. (400 is outside
      the retried statuses, so such a reply does reach `raise_for_status`.) */
  lemma SubstringNotFoundCases(text: string)
    requires Contains(text, NotFoundMarker)
    ensures ProductLookup(RequestResult(Response(400, text, Failure("")), 30)) == Success(None)
    ensures ProductLookup(RequestResult(TimedOut, 404)) == Success(None)
  {
    ProductNotFoundExactly(Response(400, text, Failure("")), 30);
    ProductNotFoundExactly(TimedOut, 404);
    ThreeDigitContains404(404);
  }

  /** The client's construction tests: the base URL loses its trailing slashes, the token goes
      into the bearer header. */
  lemma ConstructionTestCases()
    ensures TrimRight("https://example.com", '/') == "https://example.com"
    ensures TrimRight("https://example.com//", '/') == "https://example.com"
    ensures SessionHeaders("test_token_123")["Authorization"] == "Bearer test_token_123"
  {
    TrimRightUnique("https://example.com", '/', "https://example.com");
    TrimRightUnique("https://example.com//", '/', "https://example.com");
  }

  /** The stock update tests: quantity 100 is in stock, quantity 0 is not. */
  lemma StockFlagTestCases()
    ensures InStockFlag(100.0, None) && !InStockFlag(0.0, None)
    ensures ReadStockItem(StockPayload(100.0, InStockFlag(100.0, None))) == Some(StockItem(100.0, true))
  {
  }

  /** The not-found test: `raise_for_status` raising a plain exception with message
      "404 Client Error" ends as "no such product" through the "Unexpected error" clause. */
  lemma NotFoundTestCase()
    ensures RequestResult(OtherFailure("404 Client Error"), 10) == Failure(ApiError(UnexpectedPrefix + "404 Client Error"))
    ensures ProductLookup(RequestResult(OtherFailure("404 Client Error"), 10)) == Success(None)
  {
    assert OccursAt("404 Client Error", NotFoundMarker, 0);
    ProductNotFoundExactly(OtherFailure("404 Client Error"), 10);
  }

  /** The error tests: the exact messages for a connection error and a timeout of 10 s, and for
      a 401 as `raise_for_status` raises it on a real response (the 401 test's bare `HTTPError`
      has no response, so the message's f-string itself would fail there). */
  lemma ErrorMessageTestCases()
    ensures RequestResult(ConnectionFailed("Connection failed"), 10) == Failure(ApiError("Connection error: Connection failed"))
    ensures RequestResult(TimedOut, 10) == Failure(ApiError("Request timeout after 10s"))
    ensures RequestResult(Response(401, "Unauthorized", Failure("")), 10) == Failure(ApiError("HTTP 401: Unauthorized"))
    ensures RequestResult(Response(200, "", Failure("")), 10) == Success(JObject(map[]))
  {
    assert RequestResult(ConnectionFailed("Connection failed"), 10).error.message == ConnectionPrefix + "Connection failed";
    assert ConnectionPrefix + "Connection failed" == "Connection error: Connection failed";
    assert NatToString(10) == NatToString(1) + ['0'];
    assert TimeoutMessage(10) == TimeoutPrefix + "10" + "s";
    assert TimeoutPrefix + "10" + "s" == "Request timeout after 10s";
    assert NatToString(401) == NatToString(40) + ['1'];
    assert NatToString(40) == NatToString(4) + ['0'];
    assert HttpErrorMessage(401, "Unauthorized") == HttpPrefix + "401" + ": " + "Unauthorized";
    assert HttpPrefix + "401" + ": " + "Unauthorized" == "HTTP 401: Unauthorized";
  }

  // ---------------------------------------------------------------------------
  // The HTTP layer and the client
  // ---------------------------------------------------------------------------

  /** The HTTP layer with the Magento server behind it: a fixed answer per request, and the
      log of every request sent through it. */
  class Remote {
    const reply: Request -> Reply
    var sent: seq<Request>

    constructor (reply: Request -> Reply)
      ensures this.reply == reply && sent == []
    {
      this.reply := reply;
      sent := [];
    }

    method Send(request: Request) returns (answer: Reply)
      modifies this
      ensures sent == old(sent) + [request]
      ensures answer == reply(request)
    {
      sent := sent + [request];
      answer := reply(request);
    }
  }

  /** `Magento2Client`: connection settings and the session's headers. */
  class Client {
    const remote: Remote
    const baseUrl: string
    const accessToken: string
    const timeout: int
    const verifySsl: bool
    var headers: map<string, string>

    /** Stores the base URL without trailing slashes and the other settings unchanged, and puts
        the bearer token and JSON content headers on a fresh session. */
    constructor (remote: Remote, baseUrl: string, accessToken: string, timeout: int := 30, verifySsl: bool := true)
      ensures this.remote == remote
      ensures this.baseUrl == TrimRight(baseUrl, '/')
      ensures this.accessToken == accessToken && this.timeout == timeout && this.verifySsl == verifySsl
      ensures headers == SessionHeaders(accessToken)
    {
      this.remote := remote;
      this.baseUrl := TrimRight(baseUrl, '/');
      this.accessToken := accessToken;
      this.timeout := timeout;
      this.verifySsl := verifySsl;
      new;
      headers := map[];
      headers := headers + SessionHeaders(accessToken);
    }

    /** The request this client sends for a method, an endpoint and an optional JSON body. */
    function RequestOf(verb: Method, endpoint: string, json: Option<Json>): (req: Request)
      reads this
      ensures req.verb == verb && req.endpoint == endpoint && req.json == json
      ensures req.baseUrl == baseUrl && req.headers == headers
      ensures req.timeout == timeout && req.verifySsl == verifySsl
    {
      Request(verb, baseUrl, endpoint, json, headers, timeout, verifySsl)
    }

    /** `_make_request`: sends one request and maps the reply to a result. */
    method MakeRequest(verb: Method, endpoint: string, json: Option<Json>) returns (r: Result<Json, ApiError>)
      modifies remote
      ensures remote.sent == old(remote.sent) + [RequestOf(verb, endpoint, json)]
      ensures r == RequestResult(remote.reply(RequestOf(verb, endpoint, json)), timeout)
    {
      var answer := remote.Send(RequestOf(verb, endpoint, json));
      r := RequestResult(answer, timeout);
    }

    /** `get_product_by_sku`: one GET of the product resource. */
    method GetProductBySku(sku: string) returns (product: Result<Option<Json>, ApiError>)
      modifies remote
      ensures remote.sent == old(remote.sent) + [RequestOf(GET, ProductEndpoint(sku), None)]
      ensures product == ProductLookup(RequestResult(remote.reply(RequestOf(GET, ProductEndpoint(sku), None)), timeout))
    {
      var r := MakeRequest(GET, ProductEndpoint(sku), None);
      product := ProductLookup(r);
    }

    /** `update_product_stock`: one PUT of the stock item, true on success, the error raised again otherwise. */
    method UpdateProductStock(sku: string, quantity: real, isInStock: Option<bool> := None)
      returns (updated: Result<bool, ApiError>)
      modifies remote
      ensures var req := RequestOf(PUT, StockItemEndpoint(sku), Some(StockPayload(quantity, InStockFlag(quantity, isInStock))));
        && remote.sent == old(remote.sent) + [req]
        && match RequestResult(remote.reply(req), timeout)
           case Success(_) => updated == Success(true)
           case Failure(e) => updated == Failure(e)
    {
      var inStock := isInStock;
      if inStock.None? {
        inStock := Some(quantity > 0.0);
      }
      var payload := StockPayload(quantity, inStock.value);
      var r := MakeRequest(PUT, StockItemEndpoint(sku), Some(payload));
      match r
      case Success(_) => updated := Success(true);
      case Failure(e) => updated := Failure(e);
    }

    /** `test_connection`: one GET of the store configuration, true on success, the error raised again otherwise. */
    method TestConnection() returns (ok: Result<bool, ApiError>)
      modifies remote
      ensures var req := RequestOf(GET, StoreConfigsEndpoint, None);
        && remote.sent == old(remote.sent) + [req]
        && match RequestResult(remote.reply(req), timeout)
           case Success(_) => ok == Success(true)
           case Failure(e) => ok == Failure(e)
    {
      var r := MakeRequest(GET, StoreConfigsEndpoint, None);
      match r
      case Success(_) => ok := Success(true);
      case Failure(e) => ok := Failure(e);
    }
  }
}
