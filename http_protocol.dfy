/**
 * The message payloads of the relayed HTTP call: the request the watch sends
 * on PATH_HTTP_REQUEST and the reply the phone sends on PATH_HTTP_RESPONSE.
 */
module HttpProtocol {
  import opened Wrappers
  import opened Platform

  const KEY_REQUEST_ID := "wear-utils:http-request-id"
  const KEY_STATUS_CODE := "wear-utils:http-status-code"
  const KEY_URL := "wear-utils:http-url"
  const KEY_RESPONSE_DATA := "wear-utils:http-response-data"
  const KEY_CHARSET := "wear-utils:charset"
  const KEY_METHOD_TYPE := "wear-utils:method-type"
  const KEY_QUERY_PARAMS := "wear-utils:query-params"

  const TIMEOUT_MS: int := 15000
  const METHOD_GET := "GET"
  const METHOD_POST := "POST"
  const DEFAULT_CHARSET := "UTF-8"

  const ERROR_REQUEST_FAILED: int := -1
  const ERROR_TIMEOUT: int := -2

  /** Query parameters travel only with a POST that has some. */
  predicate CarriesQuery(methodType: Option<string>, query: Option<string>)
  {
    methodType == Some(METHOD_POST) && !IsEmpty(query)
  }

  /** The DataMap makeHttpRequest sends to the phone. */
  function RequestPayload(url: Option<string>, requestId: string, methodType: Option<string>,
                          charset: Option<string>, query: Option<string>): (m: DataMap)
    ensures KEY_URL in m && KEY_REQUEST_ID in m && KEY_METHOD_TYPE in m && KEY_CHARSET in m
    ensures KEY_QUERY_PARAMS in m <==> CarriesQuery(methodType, query)
    ensures m.Keys <= {KEY_URL, KEY_REQUEST_ID, KEY_METHOD_TYPE, KEY_CHARSET, KEY_QUERY_PARAMS}
  {
    var m := PutDataString(map[], KEY_URL, url);
    var m := PutDataString(m, KEY_REQUEST_ID, Some(requestId));
    var m := PutDataString(m, KEY_METHOD_TYPE, methodType);
    var m := PutDataString(m, KEY_CHARSET, charset);
    if CarriesQuery(methodType, query) then PutDataString(m, KEY_QUERY_PARAMS, query) else m
  }

  /** The reply WearManager.sendHttpResponse sends back. */
  function ResponsePayload(requestId: string, response: Option<string>, status: int): (m: DataMap)
    ensures m.Keys == {KEY_REQUEST_ID, KEY_RESPONSE_DATA, KEY_STATUS_CODE}
  {
    var m := PutDataString(map[], KEY_REQUEST_ID, Some(requestId));
    var m := PutDataString(m, KEY_RESPONSE_DATA, response);
    m[KEY_STATUS_CODE := DInt(status)]
  }

  /** What the phone's consumers are told about a relayed request. */
  datatype HttpRequest = HttpRequest(url: Option<string>, methodType: string, query: Option<string>,
                                     charset: Option<string>, nodeId: string, requestId: Option<string>)

  /** WearManager.handleHttpMessageEvent's reading of a request payload; an empty method means GET. */
  function DecodeRequest(sourceNodeId: string, m: DataMap): (r: HttpRequest)
    ensures r.methodType != []
    ensures IsEmpty(DataString(m, KEY_METHOD_TYPE)) ==> r.methodType == METHOD_GET
    ensures r.nodeId == sourceNodeId && r.requestId == DataString(m, KEY_REQUEST_ID)
  {
    var methodType := DataString(m, KEY_METHOD_TYPE);
    HttpRequest(DataString(m, KEY_URL),
                if IsEmpty(methodType) then METHOD_GET else methodType.value,
                DataString(m, KEY_QUERY_PARAMS),
                DataString(m, KEY_CHARSET),
                sourceNodeId,
                DataString(m, KEY_REQUEST_ID))
  }

  /**
   * The phone sees the request the watch sent: its url, charset and id, the
   * method (GET when it was empty), and the query only when a POST carried one.
   */
  lemma RequestRoundTrip(nodeId: string, url: Option<string>, requestId: string, methodType: Option<string>,
                         charset: Option<string>, query: Option<string>)
    ensures DecodeRequest(nodeId, RequestPayload(url, requestId, methodType, charset, query))
      == HttpRequest(url, if IsEmpty(methodType) then METHOD_GET else methodType.value,
                     if CarriesQuery(methodType, query) then query else None,
                     charset, nodeId, Some(requestId))
  {
    var m := RequestPayload(url, requestId, methodType, charset, query);
    assert DataString(m, KEY_URL) == url;
    assert DataString(m, KEY_METHOD_TYPE) == methodType;
    assert DataString(m, KEY_CHARSET) == charset;
    assert DataString(m, KEY_REQUEST_ID) == Some(requestId);
  }

  /** The status a reply carries: DataMap.getInt with its default 0. */
  function ReplyStatus(m: DataMap): int
  {
    DataInt(m, KEY_STATUS_CODE, 0)
  }

  /** The body a reply carries, null when absent. */
  function ReplyBody(m: DataMap): Option<string>
  {
    DataString(m, KEY_RESPONSE_DATA)
  }

  /** A reply carries back its request id, status and body unchanged. */
  lemma ResponseRoundTrip(requestId: string, response: Option<string>, status: int)
    ensures DataString(ResponsePayload(requestId, response, status), KEY_REQUEST_ID) == Some(requestId)
    ensures ReplyStatus(ResponsePayload(requestId, response, status)) == status
    ensures ReplyBody(ResponsePayload(requestId, response, status)) == response
  {
  }
}
