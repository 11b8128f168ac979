/**
 * WearManager: the hub between the wearable transport and the application.
 *
 * The hub keeps the registered consumers, the connected nodes, the nodes of
 * each capability, the capabilities this app has added, and whether the app
 * is in the foreground. Every call it makes into the transport is appended to
 * `outbox`; every result the transport reports back is an explicit
 * `Complete*` call naming the outbox entry it answers. Every callback the hub
 * makes on a consumer or on a caller's listener is appended to `log`, so who
 * received what is part of the state.
 */
module Hub {
  import opened Wrappers
  import opened Platform
  import opened Constants
  import opened JavaStrings
  import TransferRoutes
  import Filters
  import Utils
  import HttpProtocol

  const KEY_START_ACTIVITY_NAME := "com.google.devrel.wcl:KEY_START_ACTIVITY_NAME"
  const KEY_START_ACTIVITY_BUNDLE := "com.google.devrel.wcl.KEY_START_ACTIVITY_BUNDLE"
  const KEY_START_ACTIVITY_RELAUNCH := "com.google.devrel.wcl.KEY_START_ACTIVITY_RELAUNCH"

  /** The WearConsumer callbacks. */
  datatype WearEvent =
    | ApiConnected
    | ApiConnectionSuspended
    | ApiConnectionFailed
    | SendMessageResult(status: int)
    | AddCapabilityResult(status: int)
    | RemoveCapabilityResult(status: int)
    | InitialConnectedNodesReceived
    | ConnectedNodes(nodes: seq<Node>)
    | InitialCapabilitiesReceived
    | CapabilityChanged(capability: string, capabilityNodes: set<Node>)
    | PeerConnected(peer: Node)
    | PeerDisconnected(peer: Node)
    | MessageReceived(message: MessageEvent)
    | ApplicationLaunchRequestReceived(bundle: Option<Bundle>, relaunchIfRunning: bool)
    | HttpRequestReceived(request: HttpProtocol.HttpRequest)
    | FileReceivedResult(status: int, requestId: string, savedFile: FileRef, originalName: string)
    | InputStreamForChannelOpened(status: int, requestId: string, channel: Channel, stream: Option<StreamRef>)
    | ChannelOpened(channel: Channel)
    | ChannelClosed(channel: Channel, closeReason: int, appSpecificErrorCode: int)
    | InputClosed(channel: Channel, closeReason: int, appSpecificErrorCode: int)
    | OutputClosed(channel: Channel, closeReason: int, appSpecificErrorCode: int)
    | DataChanged(dataEvents: nat)
    | SendFileResult(status: int, requestId: string)

  /** The callbacks a caller's own listener receives. */
  datatype ListenerNotice =
    | SendMessageStatus(status: int)
    | ChannelReady(status: int, channel: Option<Channel>)
    | OutputStreamForChannelReady(status: int, channel: Option<Channel>, stream: Option<StreamRef>)
    | SendFileStatus(status: int)
    | FileTransferStatusResult(status: int)

  /** One callback made: on a registered consumer, or on a caller's listener. */
  datatype Delivery =
    | ToConsumer(consumer: Consumer, event: WearEvent)
    | ToListener(listener: Listener, notice: ListenerNotice)

  /** What sendMessage does with the result: tell every consumer, or hand it to the caller. */
  datatype SendMessageCallback = DefaultMessageCallback | CallerMessageCallback(listener: Listener)

  /**
   * What sendFile does with the result: tell every consumer, hand it to the
   * caller, or (WearFileTransfer.startTransfer's callback) forward the status
   * to the transfer's result listener when it has one.
   */
  datatype SendFileCallback =
    | DefaultSendFileCallback
    | CallerSendFileCallback(listener: Listener)
    | TransferResultForward(resultListener: Option<Listener>)

  /**
   * What happens once a channel is open: openChannel's caller is told,
   * getOutputStreamViaChannel goes on to ask for a stream, or
   * WearFileTransfer.startTransfer sends its file.
   */
  datatype ChannelReadyAction =
    | ClientChannelReady(listener: Listener)
    | OutputStreamRequest(listener: Listener)
    | FileTransferReady(requestId: string, file: FileRef, resultListener: Option<Listener>)

  /** The calls the hub makes into the transport and the platform. */
  datatype TransportCall =
    | SendMessage(nodeId: string, path: string, data: Option<DataMap>, messageCallback: SendMessageCallback)
    | AddLocalCapability(capability: string)
    | RemoveLocalCapability(capability: string)
    | GetAllCapabilities
    | GetConnectedNodes
    | OpenChannel(targetId: string, channelPath: string, action: ChannelReadyAction)
    | AddChannelListener(channel: Channel)
    | SendFile(channel: Channel, file: FileRef, startOffset: int, length: int, requestId: string, fileCallback: SendFileCallback)
    | ReceiveFile(channel: Channel, file: FileRef, append: bool, requestId: string, name: string)
    | GetInputStream(channel: Channel, requestId: string)
    | GetOutputStream(channel: Channel, listener: Listener)
    | CloseChannel(channel: Channel)
    | StartActivity(activityName: string, extras: Option<Bundle>)

  predicate NoDuplicates<T(==)>(xs: seq<T>)
  {
    forall i, j :: 0 <= i < j < |xs| ==> xs[i] != xs[j]
  }

  function Elements<T>(xs: seq<T>): set<T>
  {
    set x | x in xs
  }

  lemma ElementsSnoc<T>(xs: seq<T>, x: T)
    ensures Elements(xs + [x]) == Elements(xs) + {x}
  {
    assert forall y :: y in xs + [x] <==> y in xs || y == x;
  }

  lemma ElementsCons<T>(x: T, xs: seq<T>)
    ensures Elements([x] + xs) == {x} + Elements(xs)
  {
    assert forall y :: y in [x] + xs <==> y == x || y in xs;
  }

  lemma NoDuplicatesSnoc<T>(xs: seq<T>, x: T)
    requires NoDuplicates(xs) && x !in xs
    ensures NoDuplicates(xs + [x])
  {
    forall i, j | 0 <= i < j < |xs + [x]| ensures (xs + [x])[i] != (xs + [x])[j] {
      if j == |xs| {
        assert (xs + [x])[i] == xs[i];
      }
    }
  }

  lemma NoDuplicatesCons<T>(x: T, xs: seq<T>)
    requires NoDuplicates(xs) && x !in xs
    ensures NoDuplicates([x] + xs)
  {
    forall i, j | 0 <= i < j < |[x] + xs| ensures ([x] + xs)[i] != ([x] + xs)[j] {
      assert ([x] + xs)[j] == xs[j - 1];
      if i > 0 {
        assert ([x] + xs)[i] == xs[i - 1];
      }
    }
  }

  /** One callback with `e` on each consumer, in the order of `cs`. */
  function FanOut(cs: seq<Consumer>, e: WearEvent): (d: seq<Delivery>)
    ensures |d| == |cs|
    ensures forall i :: 0 <= i < |cs| ==> d[i] == ToConsumer(cs[i], e)
  {
    if cs == [] then [] else FanOut(cs[..|cs| - 1], e) + [ToConsumer(cs[|cs| - 1], e)]
  }

  /** With no consumer registered twice, each registered consumer gets `e` exactly once and no other gets it. */
  lemma {:induction false} FanOutExactlyOnce(cs: seq<Consumer>, e: WearEvent, c: Consumer)
    requires NoDuplicates(cs)
    ensures multiset(FanOut(cs, e))[ToConsumer(c, e)] == if c in cs then 1 else 0
  {
    if cs != [] {
      var init := cs[..|cs| - 1];
      var last := cs[|cs| - 1];
      assert cs == init + [last];
      FanOutExactlyOnce(init, e, c);
      assert multiset(FanOut(cs, e)) == multiset(FanOut(init, e)) + multiset{ToConsumer(last, e)};
      if c == last {
        assert c !in init by {
          forall k | 0 <= k < |init| ensures init[k] != c {
            assert cs[k] != cs[|cs| - 1];
          }
        }
      }
    }
  }

  /** CopyOnWriteArraySet.remove: the consumers without `c`, in their order. */
  function Without(cs: seq<Consumer>, c: Consumer): (r: seq<Consumer>)
    ensures Elements(r) == Elements(cs) - {c}
    ensures NoDuplicates(cs) ==> NoDuplicates(r)
  {
    if cs == [] then []
    else if cs[0] == c then Without(cs[1..], c)
    else
      var rest := Without(cs[1..], c);
      assert cs == [cs[0]] + cs[1..];
      ElementsCons(cs[0], cs[1..]);
      ElementsCons(cs[0], rest);
      assert NoDuplicates(cs) ==> NoDuplicates(rest) && cs[0] !in rest by {
        if NoDuplicates(cs) {
          assert NoDuplicates(cs[1..]) by {
            forall i, j | 0 <= i < j < |cs[1..]| ensures cs[1..][i] != cs[1..][j] {
              assert cs[i + 1] != cs[j + 1];
            }
          }
          forall k | 0 <= k < |cs[1..]| ensures cs[1..][k] != cs[0] {
            assert cs[0] != cs[k + 1];
          }
          assert cs[0] !in Elements(cs[1..]);
        }
      }
      if NoDuplicates(cs) then
        NoDuplicatesCons(cs[0], rest);
        [cs[0]] + rest
      else [cs[0]] + rest
  }

  // ---- Inbound messages ----

  /** handleSpecialMessages: the two paths the hub consumes itself. */
  datatype MessageRoute = HttpRequestRoute | LaunchRoute | OrdinaryRoute

  function RouteOf(path: string): (r: MessageRoute)
    ensures r == HttpRequestRoute <==> path == PATH_HTTP_REQUEST
    ensures r == LaunchRoute <==> path == PATH_LAUNCH_APP
    ensures r == OrdinaryRoute <==> path != PATH_HTTP_REQUEST && path != PATH_LAUNCH_APP
  {
    if path == PATH_HTTP_REQUEST then HttpRequestRoute
    else if path == PATH_LAUNCH_APP then LaunchRoute
    else OrdinaryRoute
  }

  /** The payload launchAppOnNode sends: the relaunch flag always, the bundle if any, the name if not empty. */
  function LaunchPayload(activityName: Option<string>, bundle: Option<Bundle>, relaunchIfRunning: bool): (m: DataMap)
    ensures m.Keys <= {KEY_START_ACTIVITY_RELAUNCH, KEY_START_ACTIVITY_BUNDLE, KEY_START_ACTIVITY_NAME}
    ensures KEY_START_ACTIVITY_RELAUNCH in m
    ensures KEY_START_ACTIVITY_BUNDLE in m <==> bundle.Some?
    ensures KEY_START_ACTIVITY_NAME in m <==> !IsEmpty(activityName)
  {
    var m := map[KEY_START_ACTIVITY_RELAUNCH := DBool(relaunchIfRunning)];
    var m := if bundle.Some? then m[KEY_START_ACTIVITY_BUNDLE := DBundle(bundle.value)] else m;
    if !IsEmpty(activityName) then m[KEY_START_ACTIVITY_NAME := DString(activityName.value)] else m
  }

  /** What handleLaunchMessageEvent reads from a launch payload. */
  datatype LaunchRequest = LaunchRequest(relaunchIfRunning: bool, bundle: Option<Bundle>, activityName: Option<string>)

  function DecodeLaunch(m: DataMap): (r: LaunchRequest)
    ensures KEY_START_ACTIVITY_RELAUNCH !in m ==> !r.relaunchIfRunning
    ensures KEY_START_ACTIVITY_BUNDLE !in m ==> r.bundle.None?
    ensures KEY_START_ACTIVITY_NAME !in m ==> r.activityName.None?
  {
    LaunchRequest(DataBool(m, KEY_START_ACTIVITY_RELAUNCH, false),
                  DataBundle(m, KEY_START_ACTIVITY_BUNDLE),
                  DataString(m, KEY_START_ACTIVITY_NAME))
  }

  /** The receiver reads back the flag and the bundle; an empty name arrives as no name. */
  lemma LaunchRoundTrip(activityName: Option<string>, bundle: Option<Bundle>, relaunchIfRunning: bool)
    ensures DecodeLaunch(LaunchPayload(activityName, bundle, relaunchIfRunning))
      == LaunchRequest(relaunchIfRunning, bundle, if IsEmpty(activityName) then None else activityName)
  {
    var m := LaunchPayload(activityName, bundle, relaunchIfRunning);
    assert DataBool(m, KEY_START_ACTIVITY_RELAUNCH, false) == relaunchIfRunning;
    assert DataBundle(m, KEY_START_ACTIVITY_BUNDLE) == bundle;
  }

  /** The launch rule's three outcomes. */
  datatype LaunchAction =
    | NotifyConsumers(bundle: Option<Bundle>, relaunchIfRunning: bool)
    | Launch(activityName: string, extras: Option<Bundle>)
    | NoLaunch

  /**
   * handleLaunchMessageEvent's decision: no name goes to the consumers; a
   * non-empty name of an existing activity is started when the app is in the
   * background or a relaunch was asked for; anything else does nothing.
   */
  function LaunchDecision(req: LaunchRequest, appForeground: bool, activityExists: bool): (a: LaunchAction)
    ensures a.NotifyConsumers? <==> req.activityName.None?
    ensures a.NotifyConsumers? ==> a == NotifyConsumers(req.bundle, req.relaunchIfRunning)
    ensures a.Launch? <==> !IsEmpty(req.activityName) && activityExists && (!appForeground || req.relaunchIfRunning)
    ensures a.Launch? ==> a == Launch(req.activityName.value, req.bundle)
  {
    match req.activityName
    case None => NotifyConsumers(req.bundle, req.relaunchIfRunning)
    case Some(name) =>
      if name != [] && activityExists && (!appForeground || req.relaunchIfRunning) then Launch(name, req.bundle)
      else NoLaunch
  }

  /**
   * A launch sent with an empty activity name reaches the receiver's
   * consumers: the sender leaves the name out, so the receiver's
   * empty-name branch is never taken for it.
   */
  lemma EmptyNameLaunchNotifiesConsumers(bundle: Option<Bundle>, relaunchIfRunning: bool,
                                         appForeground: bool, activityExists: bool)
    ensures LaunchDecision(DecodeLaunch(LaunchPayload(Some(""), bundle, relaunchIfRunning)), appForeground, activityExists)
      == NotifyConsumers(bundle, relaunchIfRunning)
  {
    LaunchRoundTrip(Some(""), bundle, relaunchIfRunning);
  }

  /** A foreground app is never restarted unless the sender asked for a relaunch. */
  lemma ForegroundNeedsRelaunch(name: string, bundle: Option<Bundle>, activityExists: bool)
    ensures LaunchDecision(DecodeLaunch(LaunchPayload(Some(name), bundle, false)), true, activityExists).NoLaunch?
      || name == []
  {
    LaunchRoundTrip(Some(name), bundle, false);
  }

  /** The launch message to one node: the payload by the default send. */
  function LaunchCall(node: Node, payload: DataMap): TransportCall
  {
    SendMessage(node.id, PATH_LAUNCH_APP, Some(payload), DefaultMessageCallback)
  }

  /** A launch message to each node, in the order given. */
  function LaunchCalls(order: seq<Node>, payload: DataMap): (calls: seq<TransportCall>)
    ensures |calls| == |order|
  {
    if order == [] then []
    else LaunchCalls(order[..|order| - 1], payload) + [LaunchCall(order[|order| - 1], payload)]
  }

  /** The k-th launch message goes to the k-th node, with the payload. */
  lemma {:induction false} LaunchCallsAt(order: seq<Node>, payload: DataMap)
    ensures forall k :: 0 <= k < |order| ==> LaunchCalls(order, payload)[k] == LaunchCall(order[k], payload)
  {
    if order != [] {
      var init := order[..|order| - 1];
      LaunchCallsAt(init, payload);
      forall k | 0 <= k < |order|
        ensures LaunchCalls(order, payload)[k] == LaunchCall(order[k], payload)
      {
        if k < |init| {
          assert order[k] == init[k];
        }
      }
    }
  }

  /** The launches to the first i + 1 nodes: those to the first i, then the one to node i. */
  lemma LaunchCallsNext(order: seq<Node>, i: nat, payload: DataMap)
    requires i < |order|
    ensures LaunchCalls(order[..i + 1], payload) == LaunchCalls(order[..i], payload) + [LaunchCall(order[i], payload)]
  {
    assert order[..i + 1][..i] == order[..i];
  }

  /**
   * The outcome of launching on `targets`: connected (or with no target), each
   * target got one launch send, in `order`, and the answer is true; otherwise
   * the first send failed and nothing was sent.
   */
  predicate LaunchedOn(targets: set<Node>, order: seq<Node>, activityName: Option<string>, bundle: Option<Bundle>,
                       relaunchIfRunning: bool, connected: bool, r: Result<bool>,
                       before: seq<TransportCall>, after: seq<TransportCall>)
  {
    if connected || targets == {} then
      r == Ok(true) && NoDuplicates(order) && Elements(order) == targets
      && after == before + LaunchCalls(order, LaunchPayload(activityName, bundle, relaunchIfRunning))
    else
      r == Err(IllegalState) && after == before
  }

  // ---- Capabilities ----

  function AddCalls(capabilities: seq<string>): (calls: seq<TransportCall>)
    ensures |calls| == |capabilities|
    ensures forall k :: 0 <= k < |calls| ==> calls[k] == AddLocalCapability(capabilities[k])
  {
    if capabilities == [] then [] else AddCalls(capabilities[..|capabilities| - 1]) + [AddLocalCapability(capabilities[|capabilities| - 1])]
  }

  function RemoveCalls(capabilities: seq<string>): (calls: seq<TransportCall>)
    ensures |calls| == |capabilities|
    ensures forall k :: 0 <= k < |calls| ==> calls[k] == RemoveLocalCapability(capabilities[k])
  {
    if capabilities == [] then [] else RemoveCalls(capabilities[..|capabilities| - 1]) + [RemoveLocalCapability(capabilities[|capabilities| - 1])]
  }

  // ---- Channels ----

  /** onChannelOpened's dispatch on the channel path. */
  datatype ChannelRoute = FileRoute | StreamRoute | OtherRoute

  function ChannelRouteOf(path: string): (r: ChannelRoute)
    ensures r == FileRoute <==> StartsWith(path, PATH_FILE_TRANSFER)
    ensures r == StreamRoute <==> StartsWith(path, PATH_STREAM_TRANSFER) && !StartsWith(path, PATH_FILE_TRANSFER)
  {
    if StartsWith(path, PATH_FILE_TRANSFER) then FileRoute
    else if StartsWith(path, PATH_STREAM_TRANSFER) then StreamRoute
    else OtherRoute
  }

  /** No path carries both prefixes: they differ at their 33rd character. */
  lemma PrefixesExclusive(path: string)
    ensures StartsWith(path, PATH_STREAM_TRANSFER) ==> !StartsWith(path, PATH_FILE_TRANSFER)
  {
    TransferRoutes.StreamPrefixFacts();
    if StartsWith(path, PATH_STREAM_TRANSFER) {
      assert path[32] == PATH_STREAM_TRANSFER[32] == 's';
      assert PATH_FILE_TRANSFER[32] == 'f';
    }
  }

  /** A path built by WearFileTransfer.buildPath is received as a file, one from requestOutputStream as a stream. */
  lemma SenderRoutes(name: string, requestId: string, size: int)
    ensures ChannelRouteOf(TransferRoutes.BuildPath(name, requestId, size)) == FileRoute
    ensures ChannelRouteOf(TransferRoutes.StreamPath(requestId)) == StreamRoute
  {
    PrefixesExclusive(TransferRoutes.StreamPath(requestId));
  }

  class WearManager {
    /** The capabilities given to initialize, added on every connection. */
    const capabilitiesToBeAdded: seq<string>
    /** Context.getFilesDir(), where received files are stored. */
    const filesDir: string

    var consumers: seq<Consumer>
    var watchedCapabilities: set<string>
    var connectedNodes: set<Node>
    var capabilityToNodes: map<string, set<Node>>
    var appForeground: bool

    var log: seq<Delivery>
    var outbox: seq<TransportCall>

    /** The consumers form a set. */
    predicate Valid()
      reads this
    {
      NoDuplicates(consumers)
    }

    constructor (capabilitiesToBeAdded: seq<string>, filesDir: string)
      ensures Valid()
      ensures this.capabilitiesToBeAdded == capabilitiesToBeAdded && this.filesDir == filesDir
      ensures consumers == [] && watchedCapabilities == {} && connectedNodes == {} && capabilityToNodes == map[]
      ensures !appForeground && log == [] && outbox == []
    {
      this.capabilitiesToBeAdded := capabilitiesToBeAdded;
      this.filesDir := filesDir;
      consumers := [];
      watchedCapabilities := {};
      connectedNodes := {};
      capabilityToNodes := map[];
      appForeground := false;
      log := [];
      outbox := [];
    }

    /** Calls one callback on every registered consumer, in registration order. */
    method Broadcast(e: WearEvent)
      modifies this`log
      ensures log == old(log) + FanOut(consumers, e)
    {
      var i := 0;
      while i < |consumers|
        invariant 0 <= i <= |consumers|
        invariant log == old(log) + FanOut(consumers[..i], e)
      {
        assert consumers[..i + 1][..i] == consumers[..i];
        log := log + [ToConsumer(consumers[i], e)];
        i := i + 1;
      }
      assert consumers[..|consumers|] == consumers;
    }

    // ---- Consumers ----

    /** addWearConsumer: a set insertion, then the connected callback on that consumer alone if connected. */
    method AddWearConsumer(consumer: Option<Consumer>, connected: bool) returns (r: Outcome)
      requires Valid()
      modifies this`consumers, this`log
      ensures Valid()
      ensures consumer.None? ==> r == Fail(NullPointer) && consumers == old(consumers) && log == old(log)
      ensures consumer.Some? ==> r == Pass
      ensures consumer.Some? ==>
        consumers == if consumer.value in old(consumers) then old(consumers) else old(consumers) + [consumer.value]
      ensures consumer.Some? ==>
        log == old(log) + if connected then [ToConsumer(consumer.value, ApiConnected)] else []
    {
      var checked := Utils.AssertNotNull(consumer);
      if checked.Err? {
        return Fail(checked.error);
      }
      var c := checked.value;
      if c !in consumers {
        consumers := consumers + [c];
      }
      if connected {
        log := log + [ToConsumer(c, ApiConnected)];
      }
      r := Pass;
    }

    /** removeWearConsumer */
    method RemoveWearConsumer(consumer: Option<Consumer>) returns (r: Outcome)
      requires Valid()
      modifies this`consumers
      ensures Valid()
      ensures consumer.None? ==> r == Fail(NullPointer) && consumers == old(consumers)
      ensures consumer.Some? ==> r == Pass && consumers == Without(old(consumers), consumer.value)
    {
      var checked := Utils.AssertNotNull(consumer);
      if checked.Err? {
        return Fail(checked.error);
      }
      consumers := Without(consumers, checked.value);
      r := Pass;
    }

    // ---- Outgoing messages and capabilities ----

    /** sendMessage: fails before sending when the client is not connected. */
    method SendMessage(nodeId: string, path: string, data: Option<DataMap>, callback: SendMessageCallback, connected: bool)
      returns (r: Outcome)
      modifies this`outbox
      ensures !connected ==> r == Fail(IllegalState) && outbox == old(outbox)
      ensures connected ==> r == Pass && outbox == old(outbox) + [TransportCall.SendMessage(nodeId, path, data, callback)]
    {
      if !connected {
        return Fail(IllegalState);
      }
      outbox := outbox + [TransportCall.SendMessage(nodeId, path, data, callback)];
      r := Pass;
    }

    /** sendHttpResponse: a non-empty node and request id, then the reply payload on PATH_HTTP_RESPONSE. */
    method SendHttpResponse(response: Option<string>, status: int, nodeId: Option<string>, requestId: Option<string>,
                            callback: SendMessageCallback, connected: bool)
      returns (r: Outcome)
      modifies this`outbox
      ensures (IsEmpty(nodeId) || IsEmpty(requestId)) ==> r == Fail(IllegalArgument) && outbox == old(outbox)
      ensures !IsEmpty(nodeId) && !IsEmpty(requestId) && !connected ==> r == Fail(IllegalState) && outbox == old(outbox)
      ensures !IsEmpty(nodeId) && !IsEmpty(requestId) && connected ==> r == Pass
      ensures !IsEmpty(nodeId) && !IsEmpty(requestId) && connected ==>
        outbox == old(outbox) + [TransportCall.SendMessage(nodeId.value, PATH_HTTP_RESPONSE,
                                   Some(HttpProtocol.ResponsePayload(requestId.value, response, status)), callback)]
    {
      var check := Utils.AssertNotEmpty(nodeId);
      if check.Fail? {
        return check;
      }
      check := Utils.AssertNotEmpty(requestId);
      if check.Fail? {
        return check;
      }
      var payload := HttpProtocol.ResponsePayload(requestId.value, response, status);
      r := SendMessage(nodeId.value, PATH_HTTP_RESPONSE, Some(payload), callback, connected);
    }

    /** addCapabilities: nothing for none; otherwise one add call per capability, if connected. */
    method AddCapabilities(capabilities: Option<seq<string>>, connected: bool) returns (r: Outcome)
      modifies this`outbox
      ensures (capabilities.None? || capabilities.value == []) ==> r == Pass && outbox == old(outbox)
      ensures capabilities.Some? && capabilities.value != [] && !connected ==> r == Fail(IllegalState) && outbox == old(outbox)
      ensures capabilities.Some? && capabilities.value != [] && connected ==>
        r == Pass && outbox == old(outbox) + AddCalls(capabilities.value)
    {
      if capabilities.None? || capabilities.value == [] {
        return Pass;
      }
      if !connected {
        return Fail(IllegalState);
      }
      outbox := outbox + AddCalls(capabilities.value);
      r := Pass;
    }

    /** removeCapabilities */
    method RemoveCapabilities(capabilities: Option<seq<string>>, connected: bool) returns (r: Outcome)
      modifies this`outbox
      ensures (capabilities.None? || capabilities.value == []) ==> r == Pass && outbox == old(outbox)
      ensures capabilities.Some? && capabilities.value != [] && !connected ==> r == Fail(IllegalState) && outbox == old(outbox)
      ensures capabilities.Some? && capabilities.value != [] && connected ==>
        r == Pass && outbox == old(outbox) + RemoveCalls(capabilities.value)
    {
      if capabilities.None? || capabilities.value == [] {
        return Pass;
      }
      if !connected {
        return Fail(IllegalState);
      }
      outbox := outbox + RemoveCalls(capabilities.value);
      r := Pass;
    }

    /** The add's result: on success the capability is watched; the status goes to every consumer. */
    method CompleteAddCapability(i: nat, status: TransportStatus)
      requires i < |outbox| && outbox[i].AddLocalCapability?
      modifies this`watchedCapabilities, this`log
      ensures watchedCapabilities == if status.success then old(watchedCapabilities) + {old(outbox[i]).capability} else old(watchedCapabilities)
      ensures log == old(log) + FanOut(consumers, AddCapabilityResult(status.code))
    {
      if status.success {
        watchedCapabilities := watchedCapabilities + {outbox[i].capability};
      }
      Broadcast(AddCapabilityResult(status.code));
    }

    /** The remove's result: on success the capability is no longer watched. */
    method CompleteRemoveCapability(i: nat, status: TransportStatus)
      requires i < |outbox| && outbox[i].RemoveLocalCapability?
      modifies this`watchedCapabilities, this`log
      ensures watchedCapabilities == if status.success then old(watchedCapabilities) - {old(outbox[i]).capability} else old(watchedCapabilities)
      ensures log == old(log) + FanOut(consumers, RemoveCapabilityResult(status.code))
    {
      if status.success {
        watchedCapabilities := watchedCapabilities - {outbox[i].capability};
      }
      Broadcast(RemoveCapabilityResult(status.code));
    }

    /** The send's result: to every consumer by default, otherwise to the caller's callback alone. */
    method CompleteSendMessage(i: nat, status: TransportStatus)
      requires i < |outbox| && outbox[i].SendMessage?
      modifies this`log
      ensures old(outbox[i]).messageCallback.DefaultMessageCallback? ==> log == old(log) + FanOut(consumers, SendMessageResult(status.code))
      ensures old(outbox[i]).messageCallback.CallerMessageCallback? ==>
        log == old(log) + [ToListener(old(outbox[i]).messageCallback.listener, SendMessageStatus(status.code))]
    {
      match outbox[i].messageCallback
      case DefaultMessageCallback =>
        Broadcast(SendMessageResult(status.code));
      case CallerMessageCallback(listener) =>
        log := log + [ToListener(listener, SendMessageStatus(status.code))];
    }

    // ---- Connection lifecycle ----

    /** onConnected: consumers first, then the configured capabilities, then the two initial queries. */
    method OnConnected()
      modifies this`log, this`outbox
      ensures log == old(log) + FanOut(consumers, ApiConnected)
      ensures outbox == old(outbox) + AddCalls(capabilitiesToBeAdded) + [GetAllCapabilities, GetConnectedNodes]
    {
      Broadcast(ApiConnected);
      var added := AddCapabilities(Some(capabilitiesToBeAdded), true);
      outbox := outbox + [GetAllCapabilities, GetConnectedNodes];
    }

    /** getAllCapabilities' result: on success every reported entry replaces the stored one, then consumers hear of it. */
    method CompleteGetAllCapabilities(i: nat, status: TransportStatus, capabilities: Option<map<string, set<Node>>>)
      requires i < |outbox| && outbox[i].GetAllCapabilities?
      modifies this`capabilityToNodes, this`log
      ensures !status.success ==> capabilityToNodes == old(capabilityToNodes) && log == old(log)
      ensures status.success ==> log == old(log) + FanOut(consumers, InitialCapabilitiesReceived)
      ensures status.success && capabilities.None? ==> capabilityToNodes == old(capabilityToNodes)
      ensures status.success && capabilities.Some? ==>
        (forall c :: c in capabilities.value ==> c in capabilityToNodes && capabilityToNodes[c] == capabilities.value[c])
        && (forall c :: c !in capabilities.value ==> (c in capabilityToNodes <==> c in old(capabilityToNodes)))
        && (forall c :: c !in capabilities.value && c in old(capabilityToNodes) ==> capabilityToNodes[c] == old(capabilityToNodes)[c])
    {
      if status.success {
        if capabilities.Some? {
          capabilityToNodes := capabilityToNodes + capabilities.value;
        }
        Broadcast(InitialCapabilitiesReceived);
      }
    }

    /** getConnectedNodes' result: on success the node set is replaced by the reported nodes. */
    method CompleteGetConnectedNodes(i: nat, status: TransportStatus, nodes: seq<Node>)
      requires i < |outbox| && outbox[i].GetConnectedNodes?
      modifies this`connectedNodes, this`log
      ensures !status.success ==> connectedNodes == old(connectedNodes) && log == old(log)
      ensures status.success ==> connectedNodes == Elements(nodes)
      ensures status.success ==> log == old(log) + FanOut(consumers, InitialConnectedNodesReceived)
    {
      if status.success {
        connectedNodes := Elements(nodes);
        Broadcast(InitialConnectedNodesReceived);
      }
    }

    method OnConnectionSuspended()
      modifies this`log
      ensures log == old(log) + FanOut(consumers, ApiConnectionSuspended)
    {
      Broadcast(ApiConnectionSuspended);
    }

    method OnConnectionFailed()
      modifies this`log
      ensures log == old(log) + FanOut(consumers, ApiConnectionFailed)
    {
      Broadcast(ApiConnectionFailed);
    }

    // ---- The node registry ----

    /** onConnectedNodes: the connected set becomes exactly the reported nodes. */
    method OnConnectedNodes(nodes: seq<Node>)
      modifies this`connectedNodes, this`log
      ensures connectedNodes == Elements(nodes)
      ensures log == old(log) + FanOut(consumers, ConnectedNodes(nodes))
    {
      connectedNodes := Elements(nodes);
      Broadcast(ConnectedNodes(nodes));
    }

    /** onCapabilityChanged: that capability maps to exactly the reported nodes; every other entry is kept. */
    method OnCapabilityChanged(capability: string, nodes: set<Node>)
      modifies this`capabilityToNodes, this`log
      ensures capability in capabilityToNodes && capabilityToNodes[capability] == nodes
      ensures forall c :: c != capability ==> (c in capabilityToNodes <==> c in old(capabilityToNodes))
      ensures forall c :: c != capability && c in old(capabilityToNodes) ==> capabilityToNodes[c] == old(capabilityToNodes)[c]
      ensures log == old(log) + FanOut(consumers, CapabilityChanged(capability, nodes))
    {
      capabilityToNodes := capabilityToNodes[capability := nodes];
      Broadcast(CapabilityChanged(capability, nodes));
    }

    method OnConnectedInitialNodesReceived()
      modifies this`log
      ensures log == old(log) + FanOut(consumers, InitialConnectedNodesReceived)
    {
      Broadcast(InitialConnectedNodesReceived);
    }

    method OnConnectedInitialCapabilitiesReceived()
      modifies this`log
      ensures log == old(log) + FanOut(consumers, InitialCapabilitiesReceived)
    {
      Broadcast(InitialCapabilitiesReceived);
    }

    method OnPeerConnected(peer: Node)
      modifies this`log
      ensures log == old(log) + FanOut(consumers, PeerConnected(peer))
    {
      Broadcast(PeerConnected(peer));
    }

    method OnPeerDisconnected(peer: Node)
      modifies this`log
      ensures log == old(log) + FanOut(consumers, PeerDisconnected(peer))
    {
      Broadcast(PeerDisconnected(peer));
    }

    method OnDataChanged(dataEvents: nat)
      modifies this`log
      ensures log == old(log) + FanOut(consumers, DataChanged(dataEvents))
    {
      Broadcast(DataChanged(dataEvents));
    }

    /**
     * getNodesForCapability(capability): the stored set, or None when the
     * capability is unmapped; an empty capability is refused.
     */
    function GetNodesForCapability(capability: Option<string>): (r: Result<Option<set<Node>>>)
      reads this
      ensures IsEmpty(capability) <==> r == Err(IllegalArgument)
      ensures r.Ok? ==> (r.value.Some? <==> capability.value in capabilityToNodes)
      ensures r.Ok? && r.value.Some? ==> r.value.value == capabilityToNodes[capability.value]
    {
      if IsEmpty(capability) then Err(IllegalArgument)
      else if capability.value in capabilityToNodes then Ok(Some(capabilityToNodes[capability.value]))
      else Ok(None)
    }

    /**
     * getNodesForCapability(capability, filter): an empty capability or a
     * missing filter is refused, an unmapped capability gives the empty set,
     * and otherwise the filter's answer for the stored set.
     */
    method GetNodesForCapabilityFiltered(capability: Option<string>, filter: Option<Filters.NodeSelectionFilter>)
      returns (r: Filters.Selection)
      ensures IsEmpty(capability) || filter.None? ==> r == Err(IllegalArgument)
      ensures !(IsEmpty(capability) || filter.None?) && capability.value !in capabilityToNodes ==> r == Ok(Some({}))
      ensures !(IsEmpty(capability) || filter.None?) && capability.value in capabilityToNodes ==>
        Filters.Selects(filter.value, capabilityToNodes[capability.value], r)
    {
      if IsEmpty(capability) || filter.None? {
        return Err(IllegalArgument);
      }
      if capability.value !in capabilityToNodes {
        return Ok(Some({}));
      }
      r := Filters.FilterNodes(filter.value, capabilityToNodes[capability.value]);
    }

    /** getNodeById: a connected node with that id, or none when no connected node has it. */
    method GetNodeById(nodeId: Option<string>) returns (r: Result<Option<Node>>)
      ensures nodeId.None? <==> r == Err(NullPointer)
      ensures r.Err? ==> r.error == NullPointer
      ensures r.Ok? && r.value.Some? ==> r.value.value in connectedNodes && r.value.value.id == nodeId.value
      ensures r.Ok? && r.value.None? <==> nodeId.Some? && forall n :: n in connectedNodes ==> n.id != nodeId.value
    {
      var checked := Utils.AssertNotNull(nodeId);
      if checked.Err? {
        return Err(checked.error);
      }
      var id := checked.value;
      var remaining := connectedNodes;
      while remaining != {}
        invariant remaining <= connectedNodes
        invariant forall n :: n in connectedNodes - remaining ==> n.id != id
        decreases |remaining|
      {
        var n :| n in remaining;
        if n.id == id {
          return Ok(Some(n));
        }
        remaining := remaining - {n};
      }
      r := Ok(None);
    }

    // ---- Launching apps ----

    /** launchAppOnNode: the launch payload to that node by the default send. */
    method LaunchAppOnNode(activityName: Option<string>, bundle: Option<Bundle>, relaunchIfRunning: bool, node: Node,
                           connected: bool)
      returns (r: Outcome)
      modifies this`outbox
      ensures !connected ==> r == Fail(IllegalState) && outbox == old(outbox)
      ensures connected ==> r == Pass && outbox == old(outbox) + [LaunchCall(node, LaunchPayload(activityName, bundle, relaunchIfRunning))]
    {
      var payload := LaunchPayload(activityName, bundle, relaunchIfRunning);
      r := SendMessage(node.id, PATH_LAUNCH_APP, Some(payload), DefaultMessageCallback, connected);
    }

    /**
     * launchAppOnNodes: false when the capability has no nodes; otherwise the
     * filter (nearby by default) answers for them: its exception propagates,
     * a null answer gives false, and otherwise each chosen node gets the
     * launch payload and the answer is true, even when no node was chosen.
     */
    method LaunchAppOnNodes(activityName: Option<string>, bundle: Option<Bundle>, relaunchIfRunning: bool,
                            capability: Option<string>, filter: Option<Filters.NodeSelectionFilter>, connected: bool)
      returns (r: Result<bool>, ghost selection: Filters.Selection, ghost order: seq<Node>)
      modifies this`outbox
      ensures IsEmpty(capability) ==> r == Err(IllegalArgument) && outbox == old(outbox)
      ensures !IsEmpty(capability) && (capability.value !in capabilityToNodes || capabilityToNodes[capability.value] == {}) ==>
        r == Ok(false) && outbox == old(outbox)
      ensures !IsEmpty(capability) && capability.value in capabilityToNodes && capabilityToNodes[capability.value] != {} ==>
        Filters.Selects(if filter.Some? then filter.value else Filters.NearbyFilter, capabilityToNodes[capability.value], selection)
      ensures !IsEmpty(capability) && capability.value in capabilityToNodes && capabilityToNodes[capability.value] != {} ==>
        if selection.Err? then r == Err(selection.error) && outbox == old(outbox)
        else if selection.value.None? then r == Ok(false) && outbox == old(outbox)
        else LaunchedOn(selection.value.value, order, activityName, bundle, relaunchIfRunning, connected, r, old(outbox), outbox)
    {
      selection := Ok(None);
      order := [];
      var stored := GetNodesForCapability(capability);
      if stored.Err? {
        return Err(stored.error), selection, order;
      }
      if stored.value.None? || stored.value.value == {} {
        return Ok(false), selection, order;
      }
      var f := if filter.Some? then filter.value else Filters.NearbyFilter;
      var chosen := Filters.FilterNodes(f, stored.value.value);
      selection := chosen;
      if chosen.Err? {
        return Err(chosen.error), selection, order;
      }
      if chosen.value.None? {
        return Ok(false), selection, order;
      }
      r, order := LaunchOnTargets(chosen.value.value, activityName, bundle, relaunchIfRunning, connected);
    }

    /** The loop of launchAppOnNodes: every target gets the launch, unless the first send fails. */
    method LaunchOnTargets(targets: set<Node>, activityName: Option<string>, bundle: Option<Bundle>, relaunchIfRunning: bool,
                           connected: bool)
      returns (r: Result<bool>, ghost order: seq<Node>)
      modifies this`outbox
      ensures LaunchedOn(targets, order, activityName, bundle, relaunchIfRunning, connected, r, old(outbox), outbox)
    {
      var nodes := Enumerate(targets);
      order := nodes;
      r := LaunchEach(nodes, activityName, bundle, relaunchIfRunning, connected);
      if nodes != [] {
        assert nodes[0] in Elements(nodes);
      }
    }

    /** The launch sent to each node of `nodes` in turn; the first failed send ends the loop. */
    method LaunchEach(nodes: seq<Node>, activityName: Option<string>, bundle: Option<Bundle>, relaunchIfRunning: bool,
                      connected: bool)
      returns (r: Result<bool>)
      modifies this`outbox
      ensures connected || nodes == [] ==>
        r == Ok(true) && outbox == old(outbox) + LaunchCalls(nodes, LaunchPayload(activityName, bundle, relaunchIfRunning))
      ensures !(connected || nodes == []) ==> r == Err(IllegalState) && outbox == old(outbox)
    {
      ghost var payload := LaunchPayload(activityName, bundle, relaunchIfRunning);
      ghost var start := outbox;
      var i := 0;
      while i < |nodes|
        invariant 0 <= i <= |nodes|
        invariant !connected ==> i == 0
        invariant outbox == start + LaunchCalls(nodes[..i], payload)
      {
        var sent := LaunchAppOnNode(activityName, bundle, relaunchIfRunning, nodes[i], connected);
        if sent.Fail? {
          return Err(sent.error);
        }
        LaunchCallsNext(nodes, i, payload);
        i := i + 1;
      }
      assert nodes[..i] == nodes;
      r := Ok(true);
    }

    // ---- Inbound messages ----

    /**
     * onMessageReceived: an HTTP request or a launch request is handled by the
     * hub and reaches no consumer as a message; any other message goes to
     * every consumer. A reserved message without a payload fails.
     * `activityClasses` are the activity names Class.forName can find.
     */
    method OnMessageReceived(event: MessageEvent, activityClasses: set<string>) returns (r: Outcome)
      modifies this`log, this`outbox
      ensures RouteOf(event.path) == OrdinaryRoute ==>
        r == Pass && outbox == old(outbox) && log == old(log) + FanOut(consumers, MessageReceived(event))
      ensures RouteOf(event.path) != OrdinaryRoute && event.data.None? ==>
        r == Fail(NullPointer) && outbox == old(outbox) && log == old(log)
      ensures RouteOf(event.path) == HttpRequestRoute && event.data.Some? ==>
        r == Pass && outbox == old(outbox)
        && log == old(log) + FanOut(consumers, HttpRequestReceived(HttpProtocol.DecodeRequest(event.sourceNodeId, event.data.value)))
      ensures RouteOf(event.path) == LaunchRoute && event.data.Some? ==>
        r == Pass &&
        var req := DecodeLaunch(event.data.value);
        match LaunchDecision(req, appForeground, !IsEmpty(req.activityName) && req.activityName.value in activityClasses)
        case NotifyConsumers(bundle, relaunch) =>
          outbox == old(outbox) && log == old(log) + FanOut(consumers, ApplicationLaunchRequestReceived(bundle, relaunch))
        case Launch(name, extras) => log == old(log) && outbox == old(outbox) + [StartActivity(name, extras)]
        case NoLaunch => log == old(log) && outbox == old(outbox)
    {
      var route := RouteOf(event.path);
      if route == OrdinaryRoute {
        Broadcast(MessageReceived(event));
        return Pass;
      }
      if event.data.None? {
        return Fail(NullPointer);
      }
      var m := event.data.value;
      if route == HttpRequestRoute {
        Broadcast(HttpRequestReceived(HttpProtocol.DecodeRequest(event.sourceNodeId, m)));
      } else {
        var req := DecodeLaunch(m);
        var present := !IsEmpty(req.activityName) && req.activityName.value in activityClasses;
        match LaunchDecision(req, appForeground, present)
        case NotifyConsumers(bundle, relaunch) =>
          Broadcast(ApplicationLaunchRequestReceived(bundle, relaunch));
        case Launch(name, extras) =>
          outbox := outbox + [StartActivity(name, extras)];
        case NoLaunch =>
      }
      r := Pass;
    }

    // ---- Channels ----

    /** openChannel: only to a nearby node; the result goes to the caller's listener. */
    method OpenChannel(node: Node, path: string, action: ChannelReadyAction) returns (r: Outcome)
      modifies this`outbox
      ensures !node.isNearby ==> r == Fail(IllegalArgument) && outbox == old(outbox)
      ensures node.isNearby ==> r == Pass && outbox == old(outbox) + [TransportCall.OpenChannel(node.id, path, action)]
    {
      if !node.isNearby {
        return Fail(IllegalArgument);
      }
      outbox := outbox + [TransportCall.OpenChannel(node.id, path, action)];
      r := Pass;
    }

    /** getOutputStreamViaChannel: only to a nearby node; a channel first, then a stream on it. */
    method GetOutputStreamViaChannel(node: Node, path: string, listener: Listener) returns (r: Outcome)
      modifies this`outbox
      ensures !node.isNearby ==> r == Fail(IllegalArgument) && outbox == old(outbox)
      ensures node.isNearby ==> r == Pass && outbox == old(outbox) + [TransportCall.OpenChannel(node.id, path, OutputStreamRequest(listener))]
    {
      r := OpenChannel(node, path, OutputStreamRequest(listener));
    }

    /** sendFile: the hub's channel listener is attached, then the file is sent. */
    method SendFile(requestId: string, channel: Channel, file: FileRef, startOffset: int, length: int, callback: SendFileCallback)
      modifies this`outbox
      ensures outbox == old(outbox) + [AddChannelListener(channel), TransportCall.SendFile(channel, file, startOffset, length, requestId, callback)]
    {
      outbox := outbox + [AddChannelListener(channel), TransportCall.SendFile(channel, file, startOffset, length, requestId, callback)];
    }

    /** closeChannel: closes a present channel, ignores a missing one. */
    method CloseChannel(channel: Option<Channel>)
      modifies this`outbox
      ensures outbox == old(outbox) + (if channel.Some? then [TransportCall.CloseChannel(channel.value)] else [])
    {
      if channel.Some? {
        outbox := outbox + [TransportCall.CloseChannel(channel.value)];
      }
    }

    /**
     * The open's result, interpreted by what was to happen next. A caller's
     * listener gets the channel only on success; a stream request goes on to
     * ask for the stream or reports the failure; a file transfer reports a
     * non-SUCCESS code to its result listener or sends the whole file.
     */
    method CompleteOpenChannel(i: nat, status: TransportStatus, channel: Channel) returns (r: Outcome)
      requires i < |outbox| && outbox[i].OpenChannel?
      modifies this`log, this`outbox
      ensures old(outbox[i]).action.ClientChannelReady? ==> (
        r == Pass && outbox == old(outbox)
        && log == old(log) + [ToListener(old(outbox[i]).action.listener, ChannelReady(status.code, if status.success then Some(channel) else None))])
      ensures old(outbox[i]).action.OutputStreamRequest? ==> r == Pass
      ensures old(outbox[i]).action.OutputStreamRequest? && status.success ==> (
        log == old(log) && outbox == old(outbox) + [AddChannelListener(channel), GetOutputStream(channel, old(outbox[i]).action.listener)])
      ensures old(outbox[i]).action.OutputStreamRequest? && !status.success ==> (
        outbox == old(outbox) && log == old(log) + [ToListener(old(outbox[i]).action.listener, OutputStreamForChannelReady(status.code, None, None))])
      ensures old(outbox[i]).action.FileTransferReady? ==>
        var a := old(outbox[i]).action;
        if status.code != STATUS_SUCCESS then
          r == Pass && outbox == old(outbox)
          && log == old(log) + (if a.resultListener.Some? then [ToListener(a.resultListener.value, FileTransferStatusResult(status.code))] else [])
        else if !status.success then
          r == Fail(NullPointer) && outbox == old(outbox) && log == old(log)
        else
          r == Pass && log == old(log)
          && outbox == old(outbox) + [AddChannelListener(channel), TransportCall.SendFile(channel, a.file, 0, -1, a.requestId, TransferResultForward(a.resultListener))]
    {
      r := Pass;
      match outbox[i].action
      case ClientChannelReady(listener) =>
        log := log + [ToListener(listener, ChannelReady(status.code, if status.success then Some(channel) else None))];
      case OutputStreamRequest(listener) =>
        if status.success {
          outbox := outbox + [AddChannelListener(channel), GetOutputStream(channel, listener)];
        } else {
          log := log + [ToListener(listener, OutputStreamForChannelReady(status.code, None, None))];
        }
      case FileTransferReady(requestId, file, resultListener) =>
        if status.code != STATUS_SUCCESS {
          if resultListener.Some? {
            log := log + [ToListener(resultListener.value, FileTransferStatusResult(status.code))];
          }
        } else if !status.success {
          // openChannel passes a null channel on failure, which sendFile dereferences
          r := Fail(NullPointer);
        } else {
          SendFile(requestId, channel, file, 0, -1, TransferResultForward(resultListener));
        }
    }

    /** The stream's result: the listener gets channel and stream, or the channel is closed and it gets neither. */
    method CompleteGetOutputStream(i: nat, status: TransportStatus, stream: StreamRef)
      requires i < |outbox| && outbox[i].GetOutputStream?
      modifies this`log, this`outbox
      ensures status.success ==> outbox == old(outbox)
      ensures status.success ==>
        log == old(log) + [ToListener(old(outbox[i]).listener, OutputStreamForChannelReady(status.code, Some(old(outbox[i]).channel), Some(stream)))]
      ensures !status.success ==> outbox == old(outbox) + [TransportCall.CloseChannel(old(outbox[i]).channel)]
      ensures !status.success ==>
        log == old(log) + [ToListener(old(outbox[i]).listener, OutputStreamForChannelReady(status.code, None, None))]
    {
      var call := outbox[i];
      if status.success {
        log := log + [ToListener(call.listener, OutputStreamForChannelReady(status.code, Some(call.channel), Some(stream)))];
      } else {
        CloseChannel(Some(call.channel));
        log := log + [ToListener(call.listener, OutputStreamForChannelReady(status.code, None, None))];
      }
    }

    /** The file send's result, by the callback the send was given. */
    method CompleteSendFile(i: nat, status: TransportStatus)
      requires i < |outbox| && outbox[i].SendFile?
      modifies this`log
      ensures old(outbox[i]).fileCallback.DefaultSendFileCallback? ==>
        log == old(log) + FanOut(consumers, SendFileResult(status.code, old(outbox[i]).requestId))
      ensures old(outbox[i]).fileCallback.CallerSendFileCallback? ==>
        log == old(log) + [ToListener(old(outbox[i]).fileCallback.listener, SendFileStatus(status.code))]
      ensures old(outbox[i]).fileCallback.TransferResultForward? ==>
        var l := old(outbox[i]).fileCallback.resultListener;
        log == old(log) + (if l.Some? then [ToListener(l.value, FileTransferStatusResult(status.code))] else [])
    {
      var call := outbox[i];
      match call.fileCallback
      case DefaultSendFileCallback =>
        Broadcast(SendFileResult(status.code, call.requestId));
      case CallerSendFileCallback(listener) =>
        log := log + [ToListener(listener, SendFileStatus(status.code))];
      case TransferResultForward(resultListener) =>
        if resultListener.Some? {
          log := log + [ToListener(resultListener.value, FileTransferStatusResult(status.code))];
        }
    }

    /**
     * onChannelOpened: a file path is decoded and the file received into the
     * files directory, a stream path asks for the input stream, and any other
     * channel is handed to every consumer. A file path that does not decode,
     * or whose size is not a number, fails; a file that cannot be prepared
     * (`fileReady` false) is dropped silently.
     */
    method OnChannelOpened(channel: Channel, fileReady: bool) returns (r: Outcome)
      modifies this`log, this`outbox
      ensures ChannelRouteOf(channel.path) == FileRoute ==> log == old(log)
      ensures ChannelRouteOf(channel.path) == FileRoute ==>
        match TransferRoutes.GetFileTransferParams(channel.path)
        case Err(e) => r == Fail(e) && outbox == old(outbox)
        case Ok(p) =>
          if ParseLong(p.size).Err? then
            r == Fail(NumberFormat) && outbox == old(outbox)
          else (
            r == Pass &&
            outbox == old(outbox) + if fileReady then [ReceiveFile(channel, FileRef(filesDir, p.name), false, p.requestId, p.name)] else [])
      ensures ChannelRouteOf(channel.path) == StreamRoute ==>
        r == Pass && log == old(log) && outbox == old(outbox) + [GetInputStream(channel, "")]
      ensures ChannelRouteOf(channel.path) == OtherRoute ==>
        r == Pass && outbox == old(outbox) && log == old(log) + FanOut(consumers, ChannelOpened(channel))
    {
      var route := ChannelRouteOf(channel.path);
      if route == FileRoute {
        var params := TransferRoutes.GetFileTransferParams(channel.path);
        if params.Err? {
          return Fail(params.error);
        }
        var size := ParseLong(params.value.size);
        if size.Err? {
          return Fail(NumberFormat);
        }
        if fileReady {
          var outFile := FileRef(filesDir, params.value.name);
          outbox := outbox + [ReceiveFile(channel, outFile, false, params.value.requestId, params.value.name)];
        }
        r := Pass;
      } else if route == StreamRoute {
        var params := TransferRoutes.GetStreamTransferParams(channel.path);
        TransferRoutes.StreamRequestIdAlwaysEmpty(channel.path);
        outbox := outbox + [GetInputStream(channel, params.value)];
        r := Pass;
      } else {
        Broadcast(ChannelOpened(channel));
        r := Pass;
      }
    }

    /** The received file's result goes to every consumer with the request id and original name; a size mismatch is only logged. */
    method CompleteReceiveFile(i: nat, status: TransportStatus)
      requires i < |outbox| && outbox[i].ReceiveFile?
      modifies this`log
      ensures log == old(log) + FanOut(consumers, FileReceivedResult(status.code, old(outbox[i]).requestId, old(outbox[i]).file, old(outbox[i]).name))
    {
      var call := outbox[i];
      Broadcast(FileReceivedResult(status.code, call.requestId, call.file, call.name));
    }

    /** The input stream's result goes to every consumer, whether or not it succeeded. */
    method CompleteGetInputStream(i: nat, status: TransportStatus, stream: Option<StreamRef>)
      requires i < |outbox| && outbox[i].GetInputStream?
      modifies this`log
      ensures log == old(log) + FanOut(consumers, InputStreamForChannelOpened(status.code, old(outbox[i]).requestId, old(outbox[i]).channel, stream))
    {
      var call := outbox[i];
      Broadcast(InputStreamForChannelOpened(status.code, call.requestId, call.channel, stream));
    }

    method OnChannelClosed(channel: Channel, closeReason: int, appSpecificErrorCode: int)
      modifies this`log
      ensures log == old(log) + FanOut(consumers, ChannelClosed(channel, closeReason, appSpecificErrorCode))
    {
      Broadcast(ChannelClosed(channel, closeReason, appSpecificErrorCode));
    }

    method OnInputClosed(channel: Channel, closeReason: int, appSpecificErrorCode: int)
      modifies this`log
      ensures log == old(log) + FanOut(consumers, InputClosed(channel, closeReason, appSpecificErrorCode))
    {
      Broadcast(InputClosed(channel, closeReason, appSpecificErrorCode));
    }

    method OnOutputClosed(channel: Channel, closeReason: int, appSpecificErrorCode: int)
      modifies this`log
      ensures log == old(log) + FanOut(consumers, OutputClosed(channel, closeReason, appSpecificErrorCode))
    {
      Broadcast(OutputClosed(channel, closeReason, appSpecificErrorCode));
    }

    /** The hub's own channel listener: when the output side closes, the channel is closed. */
    method ChannelListenerOutputClosed(channel: Channel)
      modifies this`outbox
      ensures outbox == old(outbox) + [TransportCall.CloseChannel(channel)]
    {
      CloseChannel(Some(channel));
    }

    // ---- Lifecycle ----

    /**
     * cleanUp: the watched capabilities are removed (which needs a
     * connection) and then every consumer is dropped.
     */
    method CleanUp(connected: bool) returns (r: Outcome, ghost order: seq<string>)
      requires Valid()
      modifies this`outbox, this`consumers
      ensures Valid()
      ensures watchedCapabilities != {} && !connected ==>
        r == Fail(IllegalState) && outbox == old(outbox) && consumers == old(consumers)
      ensures watchedCapabilities == {} || connected ==>
        r == Pass && consumers == []
        && NoDuplicates(order) && Elements(order) == watchedCapabilities
        && outbox == old(outbox) + RemoveCalls(order)
    {
      order := [];
      r := Pass;
      if watchedCapabilities != {} {
        var capabilities := Enumerate(watchedCapabilities);
        order := capabilities;
        r := RemoveCapabilities(Some(capabilities), connected);
        if r.Fail? {
          return r, order;
        }
      }
      consumers := [];
    }

    /** Set.toArray: the elements of `s`, each once, in some order. */
    static method Enumerate<T(==)>(s: set<T>) returns (xs: seq<T>)
      ensures NoDuplicates(xs) && Elements(xs) == s
      ensures s != {} ==> xs != []
    {
      xs := [];
      var remaining := s;
      while remaining != {}
        invariant remaining <= s
        invariant NoDuplicates(xs) && Elements(xs) == s - remaining
        decreases |remaining|
      {
        var x :| x in remaining;
        ElementsSnoc(xs, x);
        NoDuplicatesSnoc(xs, x);
        xs := xs + [x];
        remaining := remaining - {x};
      }
    }

    /** The visibility detector's foreground callback. */
    method OnAppEnterForeground()
      modifies this`appForeground
      ensures appForeground
    {
      appForeground := true;
    }

    /** The visibility detector's background callback. */
    method OnAppEnterBackground()
      modifies this`appForeground
      ensures !appForeground
    {
      appForeground := false;
    }
  }
}
