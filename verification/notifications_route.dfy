/** `fetchDONKIData` and the `GET /donki-notifications` handler. The HTTP
    call is a parameter: a total function from the query parameters to
    either the parsed response body or an upstream error (network failure,
    non-2xx status, and so on). */
module NotificationsRoute {
  import opened Wrappers
  import opened Json
  import opened Enrichment
  import opened UpstreamRequest

  /** Why the upstream call failed; the route never shows it to its caller. */
  datatype UpstreamError = UpstreamError(message: string)

  /** The single fault `fetchDONKIData` re-throws whatever went wrong, with
      the message "Failed to retrieve DONKI data." (only ever logged). */
  datatype FetchError = RetrievalFailed

  datatype Response = Response(status: nat, body: Value)

  const ErrorMessage := "Failed to retrieve DONKI notifications"

  /** The one response every failure turns into. */
  const ErrorResponse := Response(500, JObj(map["error" := JStr(ErrorMessage)]))

  /** Sends one request with the built parameters and enriches the array it
      returns. Any failure inside becomes `RetrievalFailed`: the call itself,
      a body that is not an array (so has no `map`), or an element the
      callback throws on (`null`, or a type code that cannot be converted to
      a key). */
  function FetchDonkiData(
    typeArg: Option<string>,
    nowIso: string,
    apiKey: Option<string>,
    get: UpstreamParams -> Result<Value, UpstreamError>
  ): (r: Result<seq<Object>, FetchError>)
    ensures var reply := get(BuildParams(nowIso, typeArg, apiKey));
      r.Success? <==>
        && reply.Success?
        && reply.value.JArr?
        && forall i :: 0 <= i < |reply.value.items| ==> !ElementThrows(reply.value.items[i])
    ensures var reply := get(BuildParams(nowIso, typeArg, apiKey));
      r.Success? ==>
        && |r.value| == |reply.value.items|
        && forall i :: 0 <= i < |r.value| ==> EnrichRecord(Spread(reply.value.items[i])) == Some(r.value[i])
  {
    match get(BuildParams(nowIso, typeArg, apiKey))
    case Failure(_) => Failure(RetrievalFailed)
    case Success(data) =>
      if !data.JArr? then Failure(RetrievalFailed)
      else
        match EnrichElements(data.items)
        case None => Failure(RetrievalFailed)
        case Some(enriched) => Success(enriched)
  }

  /** The JSON array `res.json` sends for the enriched records. */
  function ArrayBody(ns: seq<Object>): Value {
    JArr(seq(|ns|, i requires 0 <= i < |ns| => JObj(ns[i])))
  }

  /** `GET /donki-notifications`: 200 with the enriched array, or the fixed
      500 response. `typeArg` is the `type` query parameter, if any. */
  function HandleDonkiNotifications(
    typeArg: Option<string>,
    nowIso: string,
    apiKey: Option<string>,
    get: UpstreamParams -> Result<Value, UpstreamError>
  ): (resp: Response)
    ensures resp.status == 200 || resp == ErrorResponse
    ensures resp.status == 200 <==> FetchDonkiData(typeArg, nowIso, apiKey, get).Success?
    ensures resp.status == 200 ==>
      resp.body == ArrayBody(FetchDonkiData(typeArg, nowIso, apiKey, get).value)
  {
    match FetchDonkiData(typeArg, nowIso, apiKey, get)
    case Success(notifications) => Response(200, ArrayBody(notifications))
    case Failure(_) => ErrorResponse
  }

  /** A failed upstream call yields the fixed 500 response, and two failing
      calls yield the same response whatever their causes. */
  lemma FailureCollapses(
    typeArg: Option<string>,
    nowIso: string,
    apiKey: Option<string>,
    get1: UpstreamParams -> Result<Value, UpstreamError>,
    get2: UpstreamParams -> Result<Value, UpstreamError>)
    requires get1(BuildParams(nowIso, typeArg, apiKey)).Failure?
    requires get2(BuildParams(nowIso, typeArg, apiKey)).Failure?
    ensures HandleDonkiNotifications(typeArg, nowIso, apiKey, get1) == ErrorResponse
    ensures HandleDonkiNotifications(typeArg, nowIso, apiKey, get1)
         == HandleDonkiNotifications(typeArg, nowIso, apiKey, get2)
  {
  }

  /** A body that is not an array, or an array holding an element the
      callback throws on, fails the same way as the call itself failing. */
  lemma MalformedBodyFails(
    typeArg: Option<string>,
    nowIso: string,
    apiKey: Option<string>,
    get: UpstreamParams -> Result<Value, UpstreamError>)
    requires var reply := get(BuildParams(nowIso, typeArg, apiKey));
      && reply.Success?
      && (!reply.value.JArr? || exists i :: 0 <= i < |reply.value.items| && ElementThrows(reply.value.items[i]))
    ensures HandleDonkiNotifications(typeArg, nowIso, apiKey, get) == ErrorResponse
  {
  }

  /** When the upstream array holds objects, the route answers 200 with
      exactly those objects enriched, in order, unless some object's type
      code throws, in which case it answers the fixed 500. */
  lemma ObjectArrayResponse(
    typeArg: Option<string>,
    nowIso: string,
    apiKey: Option<string>,
    get: UpstreamParams -> Result<Value, UpstreamError>,
    ns: seq<Object>)
    requires get(BuildParams(nowIso, typeArg, apiKey)) == Success(ArrayBody(ns))
    ensures HandleDonkiNotifications(typeArg, nowIso, apiKey, get) ==
      if EnrichAll(ns).Some? then Response(200, ArrayBody(EnrichAll(ns).value)) else ErrorResponse
  {
    EnrichElementsOfObjects(ArrayBody(ns).items, ns);
  }

  /** The request `?type=FLR` with upstream reply
      `[{"messageType":"FLR","messageID":"x"}]`. */
  lemma FlareExample(nowIso: string, apiKey: Option<string>, get: UpstreamParams -> Result<Value, UpstreamError>)
    requires var record := map[MessageTypeField := JStr("FLR"), "messageID" := JStr("x")];
      get(BuildParams(nowIso, Some("FLR"), apiKey)) == Success(JArr([JObj(record)]))
    ensures BuildParams(nowIso, Some("FLR"), apiKey).typeFilter == "FLR"
    ensures HandleDonkiNotifications(Some("FLR"), nowIso, apiKey, get) == Response(200, JArr([JObj(map[
      MessageTypeField := JStr("FLR"),
      "messageID" := JStr("x"),
      FullNameField := JStr("Solar Flare"),
      DescriptionField := JStr("An intense burst of radiation from the sun.")])]))
  {
    var record := map[MessageTypeField := JStr("FLR"), "messageID" := JStr("x")];
    assert ArrayBody([record]) == JArr([JObj(record)]);
    ObjectArrayResponse(Some("FLR"), nowIso, apiKey, get, [record]);
    FlareRecordExample();
    EnrichAllSingleton(record);
    var e := EnrichRecord(record).value;
    assert ArrayBody([e]) == JArr([JObj(e)]);
  }

  /** The upstream reply `[{"messageType": {"toString": 1}}]`: converting the
      type code to a key throws, so the route answers the fixed 500. */
  lemma ToStringTypeExample(
    typeArg: Option<string>,
    nowIso: string,
    apiKey: Option<string>,
    get: UpstreamParams -> Result<Value, UpstreamError>)
    requires var record := map[MessageTypeField := JObj(map["toString" := JNum(1)])];
      get(BuildParams(nowIso, typeArg, apiKey)) == Success(JArr([JObj(record)]))
    ensures HandleDonkiNotifications(typeArg, nowIso, apiKey, get) == ErrorResponse
  {
    var record := map[MessageTypeField := JObj(map["toString" := JNum(1)])];
    var items := [JObj(record)];
    assert ElementThrows(items[0]);
    MalformedBodyFails(typeArg, nowIso, apiKey, get);
  }
}
