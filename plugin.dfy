/** The InvenTree plugin: the event gate, the part resolution, the quantity sum and the sync
    pipeline that pushes a part's total stock to Magento 2. */
module StockSync {
  import opened Results
  import opened Strings
  import opened JsonValues
  import opened MagentoApi

  /** The plugin settings as `get_setting` reads them; an unset URL or token reads as "". */
  datatype Settings = Settings(
    magentoUrl: string,
    accessToken: string,
    enableSync: bool,
    dryRun: bool,
    verifySsl: bool,
    timeout: int)

  /** An InvenTree part; its name is the Magento SKU. */
  datatype Part = Part(pk: int, name: string)

  /** The `instance` keyword argument of an event, when one is given: an object with a `part`
      attribute (whose value may be None), or an object without one. */
  datatype Snapshot = WithPart(part: Option<Part>) | WithoutPart

  /** The quantity column of a part's stock items (NULL as None), or the message of a failed query. */
  type StockRead = Result<seq<Option<real>>, string>

  // ---------------------------------------------------------------------------
  // The event gate
  // ---------------------------------------------------------------------------

  /** The stock events that can change a part's quantity. */
  const StockChangeEvents: seq<string> := [
    "stockitem.quantityupdated",
    "stockitem.moved",
    "stockitem.counted",
    "stockitem.split",
    "stockitem.assignedtocustomer",
    "stockitem.returnedfromcustomer",
    "stockitem.installed"
  ]

  /** The one event for which no stock item is looked up. */
  const DeletedEvent: string := "stock_stockitem.deleted"

  /** `wants_process_event`: nothing passes while sync is disabled; otherwise exactly the
      listed stock change events pass. */
  function WantsProcessEvent(settings: Settings, event: string): (wanted: bool)
    ensures !settings.enableSync ==> !wanted
    ensures wanted ==> |event| > 10 && event[..10] == "stockitem."
  {
    settings.enableSync && event in StockChangeEvents
  }

  /** With sync enabled, the gate accepts exactly the seven stock change events. */
  lemma WantsExactlyStockChanges(settings: Settings, event: string)
    ensures WantsProcessEvent(settings, event) <==>
      settings.enableSync &&
      (event == "stockitem.quantityupdated" || event == "stockitem.moved" ||
       event == "stockitem.counted" || event == "stockitem.split" ||
       event == "stockitem.assignedtocustomer" || event == "stockitem.returnedfromcustomer" ||
       event == "stockitem.installed")
  {
  }

  /** No delete event passes the gate, whatever the settings. */
  lemma DeleteEventsIgnored(settings: Settings)
    ensures !WantsProcessEvent(settings, DeletedEvent)
    ensures !WantsProcessEvent(settings, "stockitem.deleted")
  {
    assert DeletedEvent[..10][5] != "stockitem."[5];
  }

  // ---------------------------------------------------------------------------
  // The total quantity of a part
  // ---------------------------------------------------------------------------

  /** The SQL SUM of a column: NULLs are skipped; with no non-NULL value the sum is NULL. */
  function SumAggregate(quantities: seq<Option<real>>): (total: Option<real>)
    ensures total.None? <==> forall k | 0 <= k < |quantities| :: quantities[k].None?
  {
    if quantities == [] then None
    else
      var rest := SumAggregate(quantities[1..]);
      match quantities[0]
      case None => rest
      case Some(q) => Some(q + rest.GetOr(0.0))
  }

  /** The quantities that are present, in order. */
  function Present(quantities: seq<Option<real>>): (values: seq<real>)
    ensures forall v :: v in values <==> Some(v) in quantities
  {
    if quantities == [] then []
    else (if quantities[0].Some? then [quantities[0].value] else []) + Present(quantities[1..])
  }

  function Sum(values: seq<real>): real {
    if values == [] then 0.0 else values[0] + Sum(values[1..])
  }

  /** The aggregate is NULL exactly when no quantity is present, and otherwise the sum of the present ones. */
  lemma {:induction false} SumAggregateIsSumOfPresent(quantities: seq<Option<real>>)
    ensures SumAggregate(quantities).None? <==> Present(quantities) == []
    ensures SumAggregate(quantities).GetOr(0.0) == Sum(Present(quantities))
  {
    if quantities != [] {
      var rest := quantities[1..];
      SumAggregateIsSumOfPresent(rest);
      if quantities[0].Some? {
        var values := [quantities[0].value] + Present(rest);
        assert Present(quantities) == values;
        assert values[1..] == Present(rest);
      } else {
        assert Present(quantities) == [] + Present(rest) == Present(rest);
      }
    }
  }

  lemma {:induction false} SumConcat(a: seq<real>, b: seq<real>)
    ensures Sum(a + b) == Sum(a) + Sum(b)
  {
    if a != [] {
      assert (a + b)[0] == a[0];
      assert (a + b)[1..] == a[1..] + b;
      SumConcat(a[1..], b);
      assert Sum(a + b) == a[0] + Sum(a[1..] + b);
    } else {
      assert a + b == b;
    }
  }

  lemma {:induction false} PresentConcat(a: seq<Option<real>>, b: seq<Option<real>>)
    ensures Present(a + b) == Present(a) + Present(b)
  {
    if a != [] {
      assert (a + b)[0] == a[0];
      assert (a + b)[1..] == a[1..] + b;
      PresentConcat(a[1..], b);
      var head := if a[0].Some? then [a[0].value] else [];
      assert Present(a + b) == head + Present(a[1..] + b);
      assert Present(a) == head + Present(a[1..]);
    } else {
      assert a + b == b;
    }
  }

  /** `_calculate_total_quantity`: the sum of the part's present stock quantities; 0 when there
      are none, and 0 when the query fails. */
  function TotalQuantity(read: StockRead): (total: real)
    ensures read.Failure? ==> total == 0.0
    ensures read.Success? ==> total == Sum(Present(read.value))
  {
    match read
    case Failure(_) => 0.0
    case Success(quantities) =>
      SumAggregateIsSumOfPresent(quantities);
      SumAggregate(quantities).GetOr(0.0)
  }

  /** Splitting a part's stock records into two groups splits the total. */
  lemma TotalQuantityAdditive(a: seq<Option<real>>, b: seq<Option<real>>)
    ensures TotalQuantity(Success(a + b)) == TotalQuantity(Success(a)) + TotalQuantity(Success(b))
  {
    PresentConcat(a, b);
    SumConcat(Present(a), Present(b));
  }

  /** Records 3, 0, NULL and 7 sum to 10; no records sum to 0. */
  lemma TotalQuantityExamples()
    ensures TotalQuantity(Success([Some(3.0), Some(0.0), None, Some(7.0)])) == 10.0
    ensures TotalQuantity(Success([])) == 0.0
  {
    var qs: seq<Option<real>> := [Some(3.0), Some(0.0), None, Some(7.0)];
    assert qs[1..][1..][1..][1..] == [];
    assert Present(qs) == [3.0, 0.0, 7.0];
    assert [3.0, 0.0, 7.0][1..][1..][1..] == [];
  }

  // ---------------------------------------------------------------------------
  // Resolving the part of an event
  // ---------------------------------------------------------------------------

  /** The snapshot carries a part, which is then used as it is. */
  predicate UsesSnapshot(instance: Option<Snapshot>) {
    instance.Some? && instance.value.WithPart?
  }

  /** The store is asked for the stock item: no usable snapshot, and not the delete event. */
  predicate LooksUp(event: string, instance: Option<Snapshot>) {
    !UsesSnapshot(instance) && event != DeletedEvent
  }

  /** The part of a stored stock item; an absent id or an unknown one raises, which reads as None. */
  function ItemPart(items: map<int, Part>, id: Option<int>): Option<Part> {
    if id.Some? && id.value in items then Some(items[id.value]) else None
  }

  /** `_get_part_from_event`: the snapshot's part, else the looked-up item's part, else None. */
  function ResolvePart(items: map<int, Part>, event: string, instance: Option<Snapshot>, id: Option<int>): (part: Option<Part>)
    ensures UsesSnapshot(instance) ==> part == instance.value.part
    ensures !UsesSnapshot(instance) && event == DeletedEvent ==> part == None
    ensures LooksUp(event, instance) ==> part == ItemPart(items, id)
  {
    if UsesSnapshot(instance) then instance.value.part
    else if event != DeletedEvent then ItemPart(items, id)
    else None
  }

  // ---------------------------------------------------------------------------
  // The pipeline, as the requests and outcome it produces
  // ---------------------------------------------------------------------------

  /** How processing one event ends; each case is one of the source's log-and-return points. */
  datatype Outcome =
    | ArgumentClash
    | PartNotResolved
    | PartWithoutName(part: Part)
    | DryRun(sku: string, quantity: real, event: string)
    | ConfigurationError(message: string)
    | SyncFailed(sku: string, error: ApiError)
    | ProductNotFound(sku: string)
    | Synced(sku: string, quantity: real)

  /** The settings a client is built from. */
  datatype ClientConfig = ClientConfig(baseUrl: string, accessToken: string, timeout: int, verifySsl: bool)

  const MissingSettingsMessage: string := "Magento 2 URL and Access Token must be configured in plugin settings"

  /** The settings check of `get_magento_client`: both the URL and the token must be set. */
  function ClientSettings(settings: Settings): (r: Result<ClientConfig, string>)
    ensures r.Success? <==> settings.magentoUrl != "" && settings.accessToken != ""
    ensures r.Success? ==> r.value == ClientConfig(settings.magentoUrl, settings.accessToken, settings.timeout, settings.verifySsl)
    ensures r.Failure? ==> r.error == MissingSettingsMessage
  {
    if settings.magentoUrl == "" || settings.accessToken == "" then Failure(MissingSettingsMessage)
    else Success(ClientConfig(settings.magentoUrl, settings.accessToken, settings.timeout, settings.verifySsl))
  }

  /** The request a client built from `config` sends. */
  function RequestFor(config: ClientConfig, verb: Method, endpoint: string, json: Option<Json>): Request {
    Request(verb, TrimRight(config.baseUrl, '/'), endpoint, json, SessionHeaders(config.accessToken),
            config.timeout, config.verifySsl)
  }

  function ProductRequest(config: ClientConfig, sku: string): Request {
    RequestFor(config, GET, ProductEndpoint(sku), None)
  }

  function StockUpdateRequest(config: ClientConfig, sku: string, quantity: real): Request {
    RequestFor(config, PUT, StockItemEndpoint(sku), Some(StockPayload(quantity, InStockFlag(quantity, None))))
  }

  /** What the product GET gives when dry-run is off and the client settings are complete. */
  function ProductAnswer(config: ClientConfig, reply: Request -> Reply, sku: string): Result<Option<Json>, ApiError> {
    ProductLookup(RequestResult(reply(ProductRequest(config, sku)), config.timeout))
  }

  /** The product GET is sent and finds a product that the `if not product` test accepts. */
  predicate ProductFound(settings: Settings, reply: Request -> Reply, sku: string) {
    && !settings.dryRun
    && ClientSettings(settings).Success?
    && var answer := ProductAnswer(ClientSettings(settings).value, reply, sku);
       answer.Success? && answer.value.Some? && Truthy(answer.value.value)
  }

  /** The requests one pipeline run sends, and how it ends. */
  datatype SyncRun = SyncRun(outcome: Outcome, requests: seq<Request>)

  /** `_sync_to_magento` as the requests it sends and its outcome. */
  function Sync(settings: Settings, reply: Request -> Reply, sku: string, quantity: real, event: string): (run: SyncRun)
    ensures settings.dryRun ==> run == SyncRun(DryRun(sku, quantity, event), [])
    ensures !settings.dryRun && ClientSettings(settings).Failure? ==>
      run == SyncRun(ConfigurationError(MissingSettingsMessage), [])
    ensures !settings.dryRun && ClientSettings(settings).Success? <==> 0 < |run.requests|
    ensures 0 < |run.requests| ==>
      && !settings.dryRun && ClientSettings(settings).Success?
      && run.requests[0] == ProductRequest(ClientSettings(settings).value, sku)
    ensures |run.requests| <= 2
    ensures |run.requests| == 2 <==> ProductFound(settings, reply, sku)
    ensures run.outcome.Synced? ==> run.outcome == Synced(sku, quantity) && |run.requests| == 2
    ensures |run.requests| == 2 ==>
      (run.outcome == Synced(sku, quantity) <==> RequestResult(reply(run.requests[1]), settings.timeout).Success?)
    ensures |run.requests| == 2 ==> run.requests[1] == StockUpdateRequest(ClientSettings(settings).value, sku, quantity)
  {
    if settings.dryRun then SyncRun(DryRun(sku, quantity, event), [])
    else match ClientSettings(settings)
      case Failure(message) => SyncRun(ConfigurationError(message), [])
      case Success(config) =>
        var get := ProductRequest(config, sku);
        match ProductAnswer(config, reply, sku)
        case Failure(e) => SyncRun(SyncFailed(sku, e), [get])
        case Success(product) =>
          if product.None? || !Truthy(product.value) then SyncRun(ProductNotFound(sku), [get])
          else
            var put := StockUpdateRequest(config, sku, quantity);
            match RequestResult(reply(put), config.timeout)
            case Failure(e) => SyncRun(SyncFailed(sku, e), [get, put])
            case Success(_) => SyncRun(Synced(sku, quantity), [get, put])
  }

  /** A product GET that fails is abandoned without raising: that GET alone, and its error. */
  lemma FailedLookupSendsOnlyTheGet(settings: Settings, reply: Request -> Reply, sku: string, quantity: real, event: string)
    requires !settings.dryRun && ClientSettings(settings).Success?
    requires ProductAnswer(ClientSettings(settings).value, reply, sku).Failure?
    ensures var config := ClientSettings(settings).value;
      Sync(settings, reply, sku, quantity, event) ==
        SyncRun(SyncFailed(sku, ProductAnswer(config, reply, sku).error), [ProductRequest(config, sku)])
  {
  }

  /** Any false JSON value for the product is taken for a missing product: one GET, no update. */
  lemma FalsyProductReadsAsNotFound(settings: Settings, reply: Request -> Reply, sku: string, quantity: real, event: string, product: Json)
    requires !settings.dryRun && ClientSettings(settings).Success?
    requires ProductAnswer(ClientSettings(settings).value, reply, sku) == Success(Some(product))
    requires !Truthy(product)
    ensures Sync(settings, reply, sku, quantity, event) ==
      SyncRun(ProductNotFound(sku), [ProductRequest(ClientSettings(settings).value, sku)])
  {
  }

  /** A found product whose stock update fails: the GET, the PUT, and the PUT's error. */
  lemma FailedUpdateIsReported(settings: Settings, reply: Request -> Reply, sku: string, quantity: real, event: string)
    requires ProductFound(settings, reply, sku)
    requires var put := StockUpdateRequest(ClientSettings(settings).value, sku, quantity);
             RequestResult(reply(put), settings.timeout).Failure?
    ensures var config := ClientSettings(settings).value;
            var put := StockUpdateRequest(config, sku, quantity);
      Sync(settings, reply, sku, quantity, event) ==
        SyncRun(SyncFailed(sku, RequestResult(reply(put), settings.timeout).error), [ProductRequest(config, sku), put])
  {
  }

  /** A product that is not found costs one GET and no update. */
  lemma NotFoundSendsOnlyTheGet(settings: Settings, reply: Request -> Reply, sku: string, quantity: real, event: string)
    requires !settings.dryRun && ClientSettings(settings).Success?
    requires ProductAnswer(ClientSettings(settings).value, reply, sku) == Success(None)
    ensures Sync(settings, reply, sku, quantity, event) ==
      SyncRun(ProductNotFound(sku), [ProductRequest(ClientSettings(settings).value, sku)])
  {
  }

  /** A 2xx answer with an empty text decodes to an empty object, which `if not product` takes
      for a missing product: one GET, no update. */
  lemma EmptyProductBodyReadsAsNotFound(settings: Settings, reply: Request -> Reply, sku: string, quantity: real, event: string)
    requires !settings.dryRun && ClientSettings(settings).Success?
    requires var get := ProductRequest(ClientSettings(settings).value, sku);
             reply(get).Response? && 200 <= reply(get).status < 300 && reply(get).text == ""
    ensures Sync(settings, reply, sku, quantity, event).outcome == ProductNotFound(sku)
    ensures |Sync(settings, reply, sku, quantity, event).requests| == 1
  {
  }

  /** A found product costs one GET and then one PUT of the quantity, for the same SKU. */
  lemma FoundSendsGetThenPut(settings: Settings, reply: Request -> Reply, sku: string, quantity: real, event: string)
    requires ProductFound(settings, reply, sku)
    ensures var run := Sync(settings, reply, sku, quantity, event);
      && |run.requests| == 2
      && run.requests[0].verb == GET && run.requests[0].endpoint == ProductEndpoint(sku)
      && run.requests[1].verb == PUT && run.requests[1].endpoint == StockItemEndpoint(sku)
      && run.requests[1].json.Some?
      && ReadStockItem(run.requests[1].json.value) == Some(StockItem(quantity, quantity > 0.0))
  {
  }

  /** Every request carries the bearer token of the settings and the base URL (without trailing
      slashes) that is joined with its endpoint. */
  lemma RequestsAuthorized(settings: Settings, reply: Request -> Reply, sku: string, quantity: real, event: string)
    ensures forall req | req in Sync(settings, reply, sku, quantity, event).requests ::
      && req.headers["Authorization"] == "Bearer " + settings.accessToken
      && req.baseUrl == TrimRight(settings.magentoUrl, '/')
      && req.timeout == settings.timeout && req.verifySsl == settings.verifySsl
  {
  }

  // ---------------------------------------------------------------------------
  // process_event
  // ---------------------------------------------------------------------------

  /** The stock items looked up, the requests sent and the outcome of processing one event. */
  datatype EventRun = EventRun(outcome: Outcome, lookups: seq<Option<int>>, requests: seq<Request>)

  /** The stored quantities of a part; a part without stock items has none. */
  function StockOf(stock: map<int, StockRead>, part: Part): StockRead {
    if part.pk in stock then stock[part.pk] else Success([])
  }

  /** The value of one keyword argument of an event, as far as the plugin looks at it: an integer
      key, None, a stock item snapshot, or any other object. */
  datatype Arg = IntArg(n: int) | NoneArg | SnapshotArg(snapshot: Snapshot) | OtherArg

  /** The keyword arguments an event passes to `process_event`. */
  type Kwargs = map<string, Arg>

  /** `kwargs.get("id")` as a stock item key. The model lets only an integer name an item; the
      ORM would also turn a numeric string, an integral float or a bool into a key. */
  function IdOf(kwargs: Kwargs): Option<int> {
    if "id" in kwargs && kwargs["id"].IntArg? then Some(kwargs["id"].n) else None
  }

  /** `kwargs.get("instance")` as a snapshot: any other value, like a missing one, has no `part`
      attribute and leaves the lookup to the store. */
  function InstanceOf(kwargs: Kwargs): Option<Snapshot> {
    if "instance" in kwargs && kwargs["instance"].SnapshotArg? then Some(kwargs["instance"].snapshot) else None
  }

  /** The named parameters of `_get_part_from_event`. The call in `process_event` passes `event`,
      `instance` and the id by position and all of `kwargs` again by keyword, so a keyword of one of
      these names makes the call raise TypeError ("got multiple values for argument") before the
      body runs. (`self` and `event` cannot arrive in `kwargs`: the call of `process_event` itself
      would already have raised.) */
  const PartFromEventParameters: set<string> := {"self", "event", "instance", "stock_item_id"}

  predicate ArgumentsClash(kwargs: Kwargs) {
    kwargs.Keys * PartFromEventParameters != {}
  }

  /** The rest of `process_event` once `_get_part_from_event` is entered with these arguments. */
  function ProcessPart(settings: Settings, items: map<int, Part>, stock: map<int, StockRead>,
                       reply: Request -> Reply, event: string, id: Option<int>, instance: Option<Snapshot>): (run: EventRun)
    ensures run.lookups == if LooksUp(event, instance) then [id] else []
    ensures ResolvePart(items, event, instance, id).None? ==> run.outcome == PartNotResolved && run.requests == []
    ensures (var part := ResolvePart(items, event, instance, id);
             part.Some? && part.value.name == "" ==> run.outcome == PartWithoutName(part.value) && run.requests == [])
    ensures (var part := ResolvePart(items, event, instance, id);
             part.Some? && part.value.name != "" ==>
               var sync := Sync(settings, reply, part.value.name, TotalQuantity(StockOf(stock, part.value)), event);
               run.outcome == sync.outcome && run.requests == sync.requests)
  {
    var lookups := if LooksUp(event, instance) then [id] else [];
    match ResolvePart(items, event, instance, id)
    case None => EventRun(PartNotResolved, lookups, [])
    case Some(part) =>
      if part.name == "" then EventRun(PartWithoutName(part), lookups, [])
      else
        var sync := Sync(settings, reply, part.name, TotalQuantity(StockOf(stock, part)), event);
        EventRun(sync.outcome, lookups, sync.requests)
  }

  /** `process_event` as the lookups it makes, the requests it causes and its outcome. A keyword
      that clashes with a parameter of `_get_part_from_event` ends in the caught TypeError with no
      lookup and no request; otherwise no snapshot can be present, so the part is always the
      looked-up item's (none for the delete event). */
  function ProcessRun(settings: Settings, items: map<int, Part>, stock: map<int, StockRead>,
                      reply: Request -> Reply, event: string, kwargs: Kwargs): (run: EventRun)
    ensures ArgumentsClash(kwargs) ==> run == EventRun(ArgumentClash, [], [])
    ensures !ArgumentsClash(kwargs) ==> run.lookups == if event != DeletedEvent then [IdOf(kwargs)] else []
    ensures !ArgumentsClash(kwargs) ==>
      var part := if event != DeletedEvent then ItemPart(items, IdOf(kwargs)) else None;
      && (part.None? ==> run.outcome == PartNotResolved && run.requests == [])
      && (part.Some? && part.value.name == "" ==> run.outcome == PartWithoutName(part.value) && run.requests == [])
      && (part.Some? && part.value.name != "" ==>
            var sync := Sync(settings, reply, part.value.name, TotalQuantity(StockOf(stock, part.value)), event);
            run.outcome == sync.outcome && run.requests == sync.requests)
  {
    if ArgumentsClash(kwargs) then EventRun(ArgumentClash, [], [])
    else
      assert "instance" !in kwargs.Keys * PartFromEventParameters;
      assert InstanceOf(kwargs) == None;
      ProcessPart(settings, items, stock, reply, event, IdOf(kwargs), InstanceOf(kwargs))
  }

  /** An event that passes an `instance` keyword, whatever its value, looks nothing up and sends
      nothing: its snapshot is never used. */
  lemma InstanceKeywordAborts(settings: Settings, items: map<int, Part>, stock: map<int, StockRead>,
                              reply: Request -> Reply, event: string, kwargs: Kwargs)
    requires "instance" in kwargs
    ensures ProcessRun(settings, items, stock, reply, event, kwargs) == EventRun(ArgumentClash, [], [])
  {
    assert "instance" in kwargs.Keys * PartFromEventParameters;
  }

  /** A move event with a snapshot of part "A" and the item's id, whose product would be found:
      still no lookup and no request. */
  lemma InstanceKeywordExample(settings: Settings, reply: Request -> Reply)
    requires ProductFound(settings, reply, "A")
    ensures var kwargs := map["id" := IntArg(7), "instance" := SnapshotArg(WithPart(Some(Part(1, "A"))))];
            ProcessRun(settings, map[7 := Part(1, "A")], map[], reply, "stockitem.moved", kwargs) == EventRun(ArgumentClash, [], [])
  {
    var kwargs := map["id" := IntArg(7), "instance" := SnapshotArg(WithPart(Some(Part(1, "A"))))];
    InstanceKeywordAborts(settings, map[7 := Part(1, "A")], map[], reply, "stockitem.moved", kwargs);
  }

  /** Whatever the event, at most one stock update is sent, and only after a GET of the same SKU. */
  lemma AtMostOneUpdate(settings: Settings, items: map<int, Part>, stock: map<int, StockRead>,
                        reply: Request -> Reply, event: string, kwargs: Kwargs)
    ensures var run := ProcessRun(settings, items, stock, reply, event, kwargs);
      && |run.requests| <= 2
      && (forall k | 0 <= k < |run.requests| :: run.requests[k].verb == PUT <==> k == 1)
      && (|run.requests| == 2 ==> exists sku :: run.requests[0].endpoint == ProductEndpoint(sku) &&
                                                run.requests[1].endpoint == StockItemEndpoint(sku))
  {
    var run := ProcessRun(settings, items, stock, reply, event, kwargs);
    if |run.requests| == 2 {
      var part := ItemPart(items, IdOf(kwargs)).value;
      assert run.requests[0].endpoint == ProductEndpoint(part.name);
    }
  }

  /** With dry-run on, no event causes any request. */
  lemma DryRunSendsNothing(settings: Settings, items: map<int, Part>, stock: map<int, StockRead>,
                           reply: Request -> Reply, event: string, kwargs: Kwargs)
    requires settings.dryRun
    ensures ProcessRun(settings, items, stock, reply, event, kwargs).requests == []
  {
  }

  /** The end-to-end case: item 42 of part "WIDGET-1", whose three records sum to 25, found
      remotely, gives one GET and one PUT of qty 25 with is_in_stock true. */
  lemma EndToEndExample(reply: Request -> Reply, pk: int)
    requires var config := ClientConfig("https://shop.example", "token", 30, true);
             var get := ProductRequest(config, "WIDGET-1");
             reply(get) == Response(200, "{\"sku\": \"WIDGET-1\"}", Success(JObject(map["sku" := JString("WIDGET-1")])))
             && reply(StockUpdateRequest(config, "WIDGET-1", 25.0)) == Response(200, "true", Success(JBool(true)))
    ensures var settings := Settings("https://shop.example", "token", true, false, true, 30);
            var items := map[42 := Part(pk, "WIDGET-1")];
            var stock := map[pk := Success([Some(10.0), Some(8.0), Some(7.0)])];
            var run := ProcessRun(settings, items, stock, reply, "stockitem.quantityupdated", map["id" := IntArg(42), "model" := OtherArg]);
            && WantsProcessEvent(settings, "stockitem.quantityupdated")
            && run.outcome == Synced("WIDGET-1", 25.0)
            && run.lookups == [Some(42)]
            && |run.requests| == 2 && run.requests[1].verb == PUT
            && ReadStockItem(run.requests[1].json.value) == Some(StockItem(25.0, true))
  {
    var qs: seq<Option<real>> := [Some(10.0), Some(8.0), Some(7.0)];
    assert qs[1..][1..][1..] == [];
    assert Present(qs) == [10.0, 8.0, 7.0];
    assert [10.0, 8.0, 7.0][1..][1..][1..] == [];
    assert TotalQuantity(Success(qs)) == 25.0;
    var settings := Settings("https://shop.example", "token", true, false, true, 30);
    var config := ClientConfig("https://shop.example", "token", 30, true);
    assert ClientSettings(settings) == Success(config);
    var part := Part(pk, "WIDGET-1");
    var kwargs := map["id" := IntArg(42), "model" := OtherArg];
    assert !ArgumentsClash(kwargs) by {
      assert kwargs.Keys * PartFromEventParameters == {};
    }
    assert IdOf(kwargs) == Some(42);
    assert ItemPart(map[42 := part], Some(42)) == Some(part);
    assert TotalQuantity(StockOf(map[pk := Success(qs)], part)) == 25.0;
    var product := JObject(map["sku" := JString("WIDGET-1")]);
    assert "sku" in product.fields;
    assert Truthy(product);
    assert ProductAnswer(config, reply, "WIDGET-1") == Success(Some(product));
    assert ProductFound(settings, reply, "WIDGET-1");
  }

  // ---------------------------------------------------------------------------
  // The host store, the plugin object
  // ---------------------------------------------------------------------------

  /** The InvenTree stock tables as the plugin sees them, with the log of stock item lookups. */
  class StockStore {
    const items: map<int, Part>
    const stock: map<int, StockRead>
    var lookups: seq<Option<int>>

    constructor (items: map<int, Part>, stock: map<int, StockRead>)
      ensures this.items == items && this.stock == stock && lookups == []
    {
      this.items := items;
      this.stock := stock;
      lookups := [];
    }

    /** `StockItem.objects.get(pk=id).part`, with a failed lookup as None. */
    method GetItemPart(id: Option<int>) returns (part: Option<Part>)
      modifies this
      ensures lookups == old(lookups) + [id]
      ensures part == ItemPart(items, id)
    {
      lookups := lookups + [id];
      part := ItemPart(items, id);
    }
  }

  /** `Magento2StockSyncPlugin` with its host collaborators. */
  class Plugin {
    const settings: Settings
    const store: StockStore
    const remote: Remote

    constructor (settings: Settings, store: StockStore, remote: Remote)
      ensures this.settings == settings && this.store == store && this.remote == remote
    {
      this.settings := settings;
      this.store := store;
      this.remote := remote;
    }

    /** `get_magento_client`: a new client from complete settings, the configuration error otherwise. */
    method GetMagentoClient() returns (client: Result<Client, string>)
      ensures ClientSettings(settings).Failure? ==> client == Failure(MissingSettingsMessage)
      ensures ClientSettings(settings).Success? ==>
        && client.Success? && fresh(client.value)
        && var config := ClientSettings(settings).value;
           && client.value.remote == remote
           && client.value.baseUrl == TrimRight(config.baseUrl, '/')
           && client.value.headers == SessionHeaders(config.accessToken)
           && client.value.timeout == config.timeout && client.value.verifySsl == config.verifySsl
    {
      if settings.magentoUrl == "" || settings.accessToken == "" {
        return Failure(MissingSettingsMessage);
      }
      var c := new Client(remote, settings.magentoUrl, settings.accessToken, settings.timeout, settings.verifySsl);
      client := Success(c);
    }

    /** `_get_part_from_event`: the snapshot's part without a lookup; else, unless the event is
        the delete event, the looked-up item's part. */
    method GetPartFromEvent(event: string, instance: Option<Snapshot>, id: Option<int>) returns (part: Option<Part>)
      modifies store
      ensures store.lookups == old(store.lookups) + if LooksUp(event, instance) then [id] else []
      ensures part == ResolvePart(store.items, event, instance, id)
    {
      if instance.Some? && instance.value.WithPart? {
        return instance.value.part;
      }
      if event != DeletedEvent {
        part := store.GetItemPart(id);
        return;
      }
      return None;
    }

    /** `_sync_to_magento`: stops on dry-run, builds a client, checks the product, updates it. */
    method SyncToMagento(sku: string, quantity: real, event: string) returns (outcome: Outcome)
      modifies remote
      ensures var run := Sync(settings, remote.reply, sku, quantity, event);
        outcome == run.outcome && remote.sent == old(remote.sent) + run.requests
    {
      if settings.dryRun {
        return DryRun(sku, quantity, event);
      }
      var client := GetMagentoClient();
      if client.Failure? {
        return ConfigurationError(client.error);
      }
      var c := client.value;
      var config := ClientSettings(settings).value;
      assert c.RequestOf(GET, ProductEndpoint(sku), None) == ProductRequest(config, sku);
      var product := c.GetProductBySku(sku);
      if product.Failure? {
        return SyncFailed(sku, product.error);
      }
      if product.value.None? || !Truthy(product.value.value) {
        return ProductNotFound(sku);
      }
      var updated := c.UpdateProductStock(sku, quantity);
      assert c.RequestOf(PUT, StockItemEndpoint(sku), Some(StockPayload(quantity, InStockFlag(quantity, None))))
          == StockUpdateRequest(config, sku, quantity);
      if updated.Failure? {
        return SyncFailed(sku, updated.error);
      }
      return Synced(sku, quantity);
    }

    /** `process_event`: reads the id and the instance from the keyword arguments, resolves the
        part, checks its name, sums its stock and syncs it. A keyword clashing with a parameter of
        `_get_part_from_event` raises TypeError at the call, which the handler catches. Every input
        ends in an outcome: nothing is raised to the caller. */
    method ProcessEvent(event: string, kwargs: Kwargs) returns (outcome: Outcome)
      modifies store, remote
      ensures var run := ProcessRun(settings, store.items, store.stock, remote.reply, event, kwargs);
        && outcome == run.outcome
        && store.lookups == old(store.lookups) + run.lookups
        && remote.sent == old(remote.sent) + run.requests
    {
      var id := IdOf(kwargs);
      var instance := InstanceOf(kwargs);
      if ArgumentsClash(kwargs) {
        return ArgumentClash;
      }
      var part := GetPartFromEvent(event, instance, id);
      if part.None? {
        return PartNotResolved;
      }
      var sku := part.value.name;
      if sku == "" {
        return PartWithoutName(part.value);
      }
      var total := TotalQuantity(StockOf(store.stock, part.value));
      outcome := SyncToMagento(sku, total, event);
    }
  }
}
