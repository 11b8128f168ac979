/**
 * WearHttpHelper: a one-shot HTTP request made from the watch. With wifi the
 * call goes out directly; otherwise it is relayed to a paired node as a
 * message, and the matching reply, a send failure or a timeout ends it.
 */
module HttpRelay {
  import opened Wrappers
  import opened Platform
  import opened Constants
  import opened HttpProtocol
  import JavaStrings
  import Utils
  import Hub

  /** validateArguments: GET or POST only, and a GET carries no separate query. */
  function ValidateArguments(httpMethod: Option<string>, queryParams: Option<string>): (r: Outcome)
    ensures r == Pass <==> httpMethod == Some(METHOD_POST) || (httpMethod == Some(METHOD_GET) && IsEmpty(queryParams))
    ensures r.Fail? ==> r.error == IllegalArgument
  {
    if httpMethod != Some(METHOD_GET) && httpMethod != Some(METHOD_POST) then Fail(IllegalArgument)
    else if httpMethod == Some(METHOD_GET) && !IsEmpty(queryParams) then Fail(IllegalArgument)
    else Pass
  }

  /** The request id: the time, a dash and a random number, as decimal text. */
  function RequestIdOf(now: int, random: int): (id: string)
    ensures id != [] && '-' in id
  {
    var id := JavaStrings.LongText(now) + "-" + JavaStrings.LongText(random);
    assert id[|JavaStrings.LongText(now)|] == '-';
    id
  }

  /** One onHttpResponseReceived callback. */
  datatype HttpResponse = HttpResponse(listener: Listener, requestId: string, status: int, body: Option<string>)

  /** What onMessageReceived makes of a message. */
  datatype ReplyVerdict =
    | Ignore
    | Accept(status: int, body: Option<string>)
    | NullTarget

  /**
   * A message is ignored unless the request was made and the message has a
   * payload; a message on PATH_HTTP_RESPONSE is then compared with the target
   * node (a missing target fails) and with this request's id.
   */
  function Verdict(isCalled: bool, nodeId: Option<string>, requestId: string, event: Option<MessageEvent>): (v: ReplyVerdict)
  {
    if event.None? || event.value.data.None? || !isCalled then Ignore
    else
      var e := event.value;
      var m := e.data.value;
      if e.path != PATH_HTTP_RESPONSE then Ignore
      else if nodeId.None? then NullTarget
      else if nodeId.value == e.sourceNodeId && DataString(m, KEY_REQUEST_ID) == Some(requestId) then
        Accept(ReplyStatus(m), ReplyBody(m))
      else Ignore
  }

  /** A reply is accepted exactly when it is on the reply path, from the target node, and for this request. */
  lemma AcceptExactly(isCalled: bool, nodeId: Option<string>, requestId: string, event: Option<MessageEvent>)
    ensures Verdict(isCalled, nodeId, requestId, event).Accept? <==>
      isCalled && event.Some? && event.value.data.Some? && event.value.path == PATH_HTTP_RESPONSE
      && nodeId == Some(event.value.sourceNodeId) && DataString(event.value.data.value, KEY_REQUEST_ID) == Some(requestId)
  {
  }

  /** Nothing is accepted before makeHttpRequest, and nothing without a payload. */
  lemma IgnoredBeforeCallOrWithoutData(nodeId: Option<string>, requestId: string, event: MessageEvent)
    ensures Verdict(false, nodeId, requestId, Some(event)) == Ignore
    ensures event.data.None? ==> Verdict(true, nodeId, requestId, Some(event)) == Ignore
  {
  }

  /**
   * The reply WearManager.sendHttpResponse sends from the target node for this
   * request id is accepted, with its status and body.
   */
  lemma HubReplyAccepted(nodeId: string, requestId: string, response: Option<string>, status: int)
    ensures Verdict(true, Some(nodeId), requestId,
                    Some(MessageEvent(PATH_HTTP_RESPONSE, nodeId, Some(ResponsePayload(requestId, response, status)))))
      == Accept(status, response)
  {
    ResponseRoundTrip(requestId, response, status);
  }

  /** A reply for another request, or from another node, is ignored. */
  lemma ForeignReplyIgnored(nodeId: string, requestId: string, source: string, otherId: string,
                            response: Option<string>, status: int)
    requires source != nodeId || otherId != requestId
    ensures Verdict(true, Some(nodeId), requestId,
                    Some(MessageEvent(PATH_HTTP_RESPONSE, source, Some(ResponsePayload(otherId, response, status)))))
      == Ignore
  {
    ResponseRoundTrip(otherId, response, status);
  }

  /** WearHttpHelper.Builder: the defaults, then one setter per field. */
  class Builder {
    var url: Option<string>
    var httpMethod: Option<string>
    var listener: Option<Listener>
    var nodeId: Option<string>
    var timeout: int
    var queryParams: Option<string>
    var charset: Option<string>

    constructor (url: Option<string>)
      ensures this.url == url && httpMethod == Some(METHOD_GET) && listener.None? && nodeId.None?
      ensures timeout == TIMEOUT_MS && queryParams.None? && charset == Some(DEFAULT_CHARSET)
    {
      this.url := url;
      httpMethod := Some(METHOD_GET);
      listener := None;
      nodeId := None;
      timeout := TIMEOUT_MS;
      queryParams := None;
      charset := Some(DEFAULT_CHARSET);
    }

    method SetHttpMethod(httpMethod: Option<string>)
      modifies this`httpMethod
      ensures this.httpMethod == httpMethod
    {
      this.httpMethod := httpMethod;
    }

    method SetHttpResponseListener(listener: Option<Listener>)
      modifies this`listener
      ensures this.listener == listener
    {
      this.listener := listener;
    }

    method SetCharset(charset: Option<string>)
      modifies this`charset
      ensures this.charset == charset
    {
      this.charset := charset;
    }

    method SetTargetNodeId(nodeId: Option<string>)
      modifies this`nodeId
      ensures this.nodeId == nodeId
    {
      this.nodeId := nodeId;
    }

    method SetTimeout(timeout: int)
      modifies this`timeout
      ensures this.timeout == timeout
    {
      this.timeout := timeout;
    }

    method SetQueryParams(queryParams: Option<string>)
      modifies this`queryParams
      ensures this.queryParams == queryParams
    {
      this.queryParams := queryParams;
    }

    /** build(): a helper carrying these settings, registered with the hub. `now` and `random` make its id. */
    method Build(hub: Hub.WearManager, now: int, random: int, connected: bool) returns (h: WearHttpHelper)
      requires hub.Valid()
      modifies hub`consumers, hub`log
      ensures fresh(h) && hub.Valid()
      ensures h.url == url && h.httpMethod == httpMethod && h.nodeId == nodeId && h.timeout == timeout
      ensures h.queryParams == queryParams && h.charset == charset && h.listener == listener
      ensures h.requestId == RequestIdOf(now, random) && h.hub == hub
      ensures h.Fresh() && hub.consumers == old(hub.consumers) + [h.consumer]
      ensures hub.log == old(hub.log) + if connected then [Hub.ToConsumer(h.consumer, Hub.ApiConnected)] else []
    {
      h := new WearHttpHelper(url, httpMethod, listener, nodeId, timeout, queryParams, charset,
                              RequestIdOf(now, random), hub, connected);
    }
  }

  class WearHttpHelper {
    const url: Option<string>
    const requestId: string
    const httpMethod: Option<string>
    const nodeId: Option<string>
    const timeout: int
    const queryParams: Option<string>
    const charset: Option<string>
    const hub: Hub.WearManager
    /** The consumer through which the hub hands this helper its messages. */
    const consumer: Consumer
    /** The callback given to the hub's sendMessage. */
    const sendCallback: Listener

    var isCalled: bool
    var listener: Option<Listener>
    /** mTimer and mTimerTask are set and not cancelled. */
    var timerArmed: bool
    /** mFuture and mExecutorService are set: the direct call runs. */
    var directCallRunning: bool
    /** Every onHttpResponseReceived made, in order. */
    var responses: seq<HttpResponse>

    /** The state right after construction. */
    predicate Fresh()
      reads this
    {
      !isCalled && !timerArmed && !directCallRunning && responses == []
    }

    constructor (url: Option<string>, httpMethod: Option<string>, listener: Option<Listener>, nodeId: Option<string>,
                 timeout: int, queryParams: Option<string>, charset: Option<string>,
                 requestId: string, hub: Hub.WearManager, connected: bool)
      requires hub.Valid()
      modifies hub`consumers, hub`log
      ensures this.url == url && this.httpMethod == httpMethod && this.nodeId == nodeId && this.timeout == timeout
      ensures this.queryParams == queryParams && this.charset == charset && this.listener == listener
      ensures this.requestId == requestId && this.hub == hub
      ensures Fresh() && fresh(consumer) && hub.Valid()
      ensures hub.consumers == old(hub.consumers) + [consumer]
      ensures hub.log == old(hub.log) + if connected then [Hub.ToConsumer(consumer, Hub.ApiConnected)] else []
    {
      this.url := url;
      this.httpMethod := httpMethod;
      this.listener := listener;
      this.nodeId := nodeId;
      this.timeout := timeout;
      this.queryParams := queryParams;
      this.charset := charset;
      this.requestId := requestId;
      this.hub := hub;
      var c := new Consumer();
      consumer := c;
      var cb := new Listener();
      sendCallback := cb;
      isCalled := false;
      timerArmed := false;
      directCallRunning := false;
      responses := [];
      new;
      var added := hub.AddWearConsumer(Some(c), connected);
    }

    /** The message makeHttpRequest relays to the target node. */
    function RelayCall(): Hub.TransportCall
      reads this
      requires nodeId.Some?
    {
      Hub.TransportCall.SendMessage(nodeId.value, PATH_HTTP_REQUEST,
                                    Some(RequestPayload(url, requestId, httpMethod, charset, queryParams)),
                                    Hub.CallerMessageCallback(sendCallback))
    }

    /**
     * makeHttpRequest: validation, then at most one call per instance; with
     * wifi the direct call starts; otherwise the hub must be connected and a
     * target set, and the timer is armed before the request is relayed.
     */
    method MakeHttpRequest(wifiEnabled: bool, wifiConnected: bool, connected: bool) returns (r: Outcome)
      modifies this`isCalled, this`timerArmed, this`directCallRunning, hub`outbox
      ensures ValidateArguments(httpMethod, queryParams).Fail? ==>
        r == ValidateArguments(httpMethod, queryParams) && isCalled == old(isCalled)
        && !Changed(old(timerArmed), old(directCallRunning), old(hub.outbox))
      ensures ValidateArguments(httpMethod, queryParams).Pass? && old(isCalled) ==>
        r == Fail(IllegalState) && isCalled && !Changed(old(timerArmed), old(directCallRunning), old(hub.outbox))
      ensures ValidateArguments(httpMethod, queryParams).Pass? && !old(isCalled) ==> isCalled
      ensures ValidateArguments(httpMethod, queryParams).Pass? && !old(isCalled) && wifiEnabled && wifiConnected ==>
        r == Pass && directCallRunning && timerArmed == old(timerArmed) && hub.outbox == old(hub.outbox)
      ensures ValidateArguments(httpMethod, queryParams).Pass? && !old(isCalled) && !(wifiEnabled && wifiConnected) ==>
        if !connected then
          r == Fail(IllegalState) && !Changed(old(timerArmed), old(directCallRunning), old(hub.outbox))
        else if IsEmpty(nodeId) then
          r == Fail(IllegalArgument) && !Changed(old(timerArmed), old(directCallRunning), old(hub.outbox))
        else
          r == Pass && timerArmed && directCallRunning == old(directCallRunning) && hub.outbox == old(hub.outbox) + [RelayCall()]
    {
      var valid := ValidateArguments(httpMethod, queryParams);
      if valid.Fail? {
        return valid;
      }
      if isCalled {
        return Fail(IllegalState);
      }
      isCalled := true;
      if Utils.WifiConnectivityStatus(wifiEnabled, wifiConnected) == Utils.WIFI_CONNECTED {
        directCallRunning := true;
        return Pass;
      }
      if !connected {
        return Fail(IllegalState);
      }
      var target := Utils.AssertNotEmpty(nodeId);
      if target.Fail? {
        return target;
      }
      var payload := RequestPayload(url, requestId, httpMethod, charset, queryParams);
      timerArmed := true;
      r := hub.SendMessage(nodeId.value, PATH_HTTP_REQUEST, Some(payload), Hub.CallerMessageCallback(sendCallback), connected);
    }

    /** Whether the timer, the direct call or the outbox differ from the given values. */
    predicate Changed(timerWas: bool, directWas: bool, outboxWas: seq<Hub.TransportCall>)
      reads this, hub
    {
      timerArmed != timerWas || directCallRunning != directWas || hub.outbox != outboxWas
    }

    /** cleanUp: the timer is cancelled and the consumer unregistered; doing it again changes nothing more. */
    method CleanUp()
      requires hub.Valid()
      modifies this`timerArmed, hub`consumers
      ensures hub.Valid() && !timerArmed
      ensures hub.consumers == Hub.Without(old(hub.consumers), consumer)
    {
      timerArmed := false;
      var removed := hub.RemoveWearConsumer(Some(consumer));
    }

    /** abort: clean up, stop the direct call, and drop the listener. */
    method Abort()
      requires hub.Valid()
      modifies this`timerArmed, this`directCallRunning, this`listener, hub`consumers
      ensures hub.Valid() && !timerArmed && !directCallRunning && listener.None?
      ensures hub.consumers == Hub.Without(old(hub.consumers), consumer)
    {
      CleanUp();
      directCallRunning := false;
      listener := None;
    }

    /** The timer task: ERROR_TIMEOUT with no body to a present listener, which is then dropped; the consumer is unregistered. */
    method TimerFires()
      requires hub.Valid() && timerArmed
      modifies this`timerArmed, this`listener, this`responses, hub`consumers
      ensures hub.Valid() && !timerArmed && listener.None?
      ensures responses == old(responses) + if old(listener).Some? then [HttpResponse(old(listener).value, requestId, ERROR_TIMEOUT, None)] else []
      ensures hub.consumers == Hub.Without(old(hub.consumers), consumer)
    {
      if listener.Some? {
        responses := responses + [HttpResponse(listener.value, requestId, ERROR_TIMEOUT, None)];
        listener := None;
      }
      timerArmed := false;
      var removed := hub.RemoveWearConsumer(Some(consumer));
    }

    /**
     * The send callback: a failed send with a listener present reports
     * ERROR_REQUEST_FAILED and cleans up; otherwise nothing happens.
     */
    method OnSendMessageResult(status: TransportStatus)
      requires hub.Valid()
      modifies this`timerArmed, this`responses, hub`consumers
      ensures hub.Valid()
      ensures !status.success && listener.Some? ==>
        responses == old(responses) + [HttpResponse(listener.value, requestId, ERROR_REQUEST_FAILED, None)]
        && !timerArmed && hub.consumers == Hub.Without(old(hub.consumers), consumer)
      ensures status.success || listener.None? ==>
        responses == old(responses) && timerArmed == old(timerArmed) && hub.consumers == old(hub.consumers)
    {
      if !status.success && listener.Some? {
        responses := responses + [HttpResponse(listener.value, requestId, ERROR_REQUEST_FAILED, None)];
        CleanUp();
      }
    }

    /**
     * onMessageReceived: an accepted reply reaches a present listener with its
     * status and body, then the helper cleans up; the listener itself is kept.
     */
    method OnMessageReceived(event: Option<MessageEvent>) returns (r: Outcome)
      requires hub.Valid()
      modifies this`timerArmed, this`responses, hub`consumers
      ensures hub.Valid()
      ensures Verdict(isCalled, nodeId, requestId, event) == Ignore ==>
        r == Pass && responses == old(responses) && timerArmed == old(timerArmed) && hub.consumers == old(hub.consumers)
      ensures Verdict(isCalled, nodeId, requestId, event) == NullTarget ==>
        r == Fail(NullPointer) && responses == old(responses) && timerArmed == old(timerArmed) && hub.consumers == old(hub.consumers)
      ensures Verdict(isCalled, nodeId, requestId, event).Accept? ==>
        var v := Verdict(isCalled, nodeId, requestId, event);
        r == Pass && !timerArmed && hub.consumers == Hub.Without(old(hub.consumers), consumer)
        && responses == old(responses) + if listener.Some? then [HttpResponse(listener.value, requestId, v.status, v.body)] else []
    {
      var verdict := Verdict(isCalled, nodeId, requestId, event);
      match verdict
      case Ignore =>
        r := Pass;
      case NullTarget =>
        r := Fail(NullPointer);
      case Accept(status, body) =>
        if listener.Some? {
          responses := responses + [HttpResponse(listener.value, requestId, status, body)];
        }
        CleanUp();
        r := Pass;
    }
  }

  /** Removing the same consumer twice leaves what removing it once left: clean-up is idempotent. */
  lemma {:induction false} WithoutIdempotent(cs: seq<Consumer>, c: Consumer)
    ensures Hub.Without(Hub.Without(cs, c), c) == Hub.Without(cs, c)
  {
    if cs != [] {
      WithoutIdempotent(cs[1..], c);
      if cs[0] != c {
        var rest := Hub.Without(cs[1..], c);
        assert Hub.Without(cs, c) == [cs[0]] + rest;
        assert ([cs[0]] + rest)[1..] == rest;
      }
    }
  }
}
