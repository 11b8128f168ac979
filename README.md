# Wear Companion Library core, modelled in Dafny

This project models the bookkeeping and routing that the Wear Companion Library
(WCL) keeps around the wearable transport of Google Play services. The parts it
covers are:

- **Hub.** The `WearManager` hub has registered consumers, connected nodes, a
  capability-to-nodes map, watched capabilities and an app-foreground flag. It
  routes inbound messages, applies the launch rule, and dispatches channels by
  route prefix.
- **Transfer routes.** The file and stream routes are built by
  `WearFileTransfer` and decoded by the hub. The target name goes through a
  real `application/x-www-form-urlencoded` codec (section 17.13.4.1 of HTML
  4.01, UTF-8), proved to round-trip.
- **HTTP relay.** `WearHttpHelper` is the one-shot request object.
- **File transfer.** `WearFileTransfer` is a builder, plus `startTransfer` and
  `requestOutputStream`.
- **Filters and helpers.** Node filters (`NearbyFilter`, `SingleNodeFilter`,
  and a client's own `NodeSelectionFilter`, which may answer null) and the
  `Utils` helpers.
- **Visibility.** `ApplicationVisibilityDetector` is a state machine.
- **List widgets.** `WearableListConfig` with its builder, bundle round-trip
  and result parse, and the row-icon choice of `SelectableWearableListAdapter`.
- **Recorder.** `WclRecorderActivity`: the stream-target choice, the toggle
  and its status codes.

The transport is a black box:

- Every transport call the hub makes becomes an entry of the hub's `outbox`,
  a `seq<TransportCall>`.
- Every transport result arrives through an explicit `Complete…(i, status)`
  method naming the outbox entry it answers.
- Every transport listener callback is an `On…` method.
- Consumer callbacks are values of the `WearEvent` datatype. Each delivery is
  appended to the hub's `log`, so "who received what" is a checkable sequence.
- Java exceptions become the `Fail`/`Err` arms of `Outcome`/`Result` (module
  `Wrappers`). The arm states which exception: `NullPointer`,
  `IllegalArgument`, `IllegalState`, `IndexOutOfBounds` or `NumberFormat`.
- Java `null` becomes `Option`.

Modules:

| file | module | source |
|---|---|---|
| wrappers.dfy | Wrappers | `Option`, `Result`, `Outcome` and the exception kinds |
| platform.dfy | Platform | `Node`, `Bundle`/`DataMap` as maps of typed values, `TextUtils.isEmpty`, consumer and listener identities |
| constants.dfy | Constants | `Constants.java` and the message keys of `WearManager` and `WearHttpHelper` |
| java_strings.dfy | JavaStrings | `String.replace`, `String.split`, `Long.toString`, `Long.parseLong` |
| form_codec.dfy | FormCodec | `URLEncoder.encode`/`URLDecoder.decode` with UTF-8 |
| transfer_routes.dfy | TransferRoutes | `WearFileTransfer.buildPath`, `WearManager.getFileTransferParams`/`getStreamTransferParams` |
| utils.dfy | Utils | `Utils.java` |
| filters.dfy | Filters | `NearbyFilter`, `SingleNodeFilter` |
| http_protocol.dfy | HttpProtocol | the HTTP request/response payloads of `WearHttpHelper` and `WearManager` |
| wear_manager.dfy | Hub | `WearManager.java` |
| http_helper.dfy | HttpRelay | `WearHttpHelper.java` |
| file_transfer.dfy | FileTransfer | `WearFileTransfer.java` |
| visibility.dfy | Visibility | `ApplicationVisibilityDetector.java` |
| list_config.dfy | ListConfig | `WearableListConfig.java`, `WclWearableListViewActivity.onItemClicked` |
| list_adapter.dfy | ListAdapter | `SelectableWearableListAdapter.java` |
| recorder.dfy | Recorder | `WclRecorderActivity.java` |

## Model

| member | source | states |
|---|---|---|
| JavaStrings.ParseLong | WCL/src/main/java/com/google/devrel/wcl/WearManager.java:1158 | a successfully parsed size is always within the range of a Java `long` |
| JavaStrings.LongTextRoundTrip | WCL/src/main/java/com/google/devrel/wcl/connectivity/WearFileTransfer.java:264-273 | `Long.parseLong(Long.toString(n))` gives back `n` for every `long`, so the size written into a file route is read back unchanged |
| JavaStrings.JoinSplitAll | WCL/src/main/java/com/google/devrel/wcl/WearManager.java:1218 | splitting on a separator loses nothing: joining the pieces with it gives the text back |
| JavaStrings.SplitAllFirst | WCL/src/main/java/com/google/devrel/wcl/WearManager.java:1218 | a text before the first separator is the first piece and the rest is split on its own |
| JavaStrings.ReplaceLeading | WCL/src/main/java/com/google/devrel/wcl/WearManager.java:1218 | `replace` of a prefix at the head of a text substitutes it and carries on with the rest |
| JavaStrings.ReplaceAbsent | WCL/src/main/java/com/google/devrel/wcl/WearManager.java:1218 | `replace` changes nothing in a text where the pattern does not occur |
| JavaStrings.StripTrailingKeeps | WCL/src/main/java/com/google/devrel/wcl/WearManager.java:1218 | Java's `split` drops only trailing empty pieces: every piece up to a non-empty one survives |
| FormCodec.DecodeEncode | WCL/src/main/java/com/google/devrel/wcl/connectivity/WearFileTransfer.java:266-267 | URL-decoding an encoded name gives the name back, for every string of Unicode scalar values |
| FormCodec.EncodeInjective | WCL/src/main/java/com/google/devrel/wcl/connectivity/WearFileTransfer.java:266-267 | two different names of Unicode scalar values never encode to the same text |
| FormCodec.EncodeHasNoSlash | WCL/src/main/java/com/google/devrel/wcl/connectivity/WearFileTransfer.java:266-267 | an encoded name never contains `/`, so it cannot break the route's `/`-separated fields |
| FormCodec.EncodeAlphabet | WCL/src/main/java/com/google/devrel/wcl/connectivity/WearFileTransfer.java:266-267 | an encoded name holds only unreserved characters, `+`, `%` and upper-case hex digits |
| FormCodec.Encode | WCL/src/main/java/com/google/devrel/wcl/connectivity/WearFileTransfer.java:266-267 | `URLEncoder.encode(name, "utf-8")`: each character becomes at least one character of output; FormCodec.DecodeEncode is its inverse and FormCodec.EncodeAlphabet its output alphabet |
| FormCodec.Decode | WCL/src/main/java/com/google/devrel/wcl/WearManager.java:1220 | `URLDecoder.decode(piece, "utf-8")`: a decoded text is never longer than its encoding; None where the decoder refuses the text; FormCodec.DecodeEncode shows it undoes FormCodec.Encode |
| TransferRoutes.BuildPath | WCL/src/main/java/com/google/devrel/wcl/connectivity/WearFileTransfer.java:264-273 | every file route starts with the file-transfer prefix |
| TransferRoutes.StreamPath | WCL/src/main/java/com/google/devrel/wcl/connectivity/WearFileTransfer.java:257-262 | the stream route is the stream prefix followed by exactly the request id |
| TransferRoutes.GetFileTransferParams | WCL/src/main/java/com/google/devrel/wcl/WearManager.java:1215-1231 | a path without the file prefix is rejected with IllegalArgumentException |
| TransferRoutes.FileRouteRoundTrip | WCL/src/main/java/com/google/devrel/wcl/WearManager.java:1215-1232 | for a non-empty request id without `/`, decoding a built file route gives back the name, the decimal text of the size and the request id |
| TransferRoutes.FileRouteSizeRoundTrip | WCL/src/main/java/com/google/devrel/wcl/WearManager.java:1158 | the size text recovered from a file route parses back to the original size |
| TransferRoutes.FileRouteEmptyRequestId | WCL/src/main/java/com/google/devrel/wcl/WearManager.java:1218-1225 | with an empty request id the trailing empty piece is dropped by `split` and reading the third piece is an IndexOutOfBoundsException |
| TransferRoutes.GetStreamTransferParams | WCL/src/main/java/com/google/devrel/wcl/WearManager.java:1234-1245 | as written: a path without the stream prefix is rejected with IllegalArgumentException |
| TransferRoutes.StreamRequestIdAlwaysEmpty | WCL/src/main/java/com/google/devrel/wcl/WearManager.java:1234-1238 | as written, every stream route decodes to the empty request id (see Findings) |
| TransferRoutes.StreamRouteLosesRequestId | WCL/src/main/java/com/google/devrel/wcl/WearManager.java:1234-1238 | as written, no non-empty request id survives the stream route |
| TransferRoutes.GetStreamTransferParamsFixed | WCL/src/main/java/com/google/devrel/wcl/WearManager.java:1234-1245 | corrected decoder: a path without the stream prefix is rejected with IllegalArgumentException |
| TransferRoutes.StreamRouteRoundTrip | WCL/src/main/java/com/google/devrel/wcl/WearManager.java:1234-1245 | with the prefix that was evidently intended, the stream route gives back its request id |
| Utils.WifiConnectivityStatus | WCL/src/main/java/com/google/devrel/wcl/Utils.java:47-49 | the status is one of the three codes: disabled exactly when wifi is off, connected exactly when wifi is on and connected, otherwise no connection |
| Utils.FilterForNearby | WCL/src/main/java/com/google/devrel/wcl/Utils.java:79-88 | finds a nearby member of the set; null exactly when the set is null or has no nearby node |
| Utils.AssertNotNull | WCL/src/main/java/com/google/devrel/wcl/Utils.java:124-129 | passes a non-null value through unchanged; null is a NullPointerException |
| Utils.AssertNotEmpty | WCL/src/main/java/com/google/devrel/wcl/Utils.java:138-142 | fails exactly for a null or empty string, with IllegalArgumentException |
| Utils.AssertUiThread | WCL/src/main/java/com/google/devrel/wcl/Utils.java:101-105 | fails exactly off the UI thread, with IllegalStateException |
| Utils.AssertNonUiThread | WCL/src/main/java/com/google/devrel/wcl/Utils.java:111-115 | fails exactly on the UI thread, with IllegalStateException |
| Utils.ExactlyOneThreadAssertFails | WCL/src/main/java/com/google/devrel/wcl/Utils.java:101-115 | on any thread exactly one of the UI-thread and non-UI-thread asserts throws, and it throws IllegalStateException |
| Filters.NewSingleNodeFilter | WCL/src/main/java/com/google/devrel/wcl/filters/SingleNodeFilter.java:48-50 | the no-argument constructor is a single-node filter without a delegate |
| Filters.FilterNodes | WCL/src/main/java/com/google/devrel/wcl/filters/SingleNodeFilter.java:61-71 | the answer is a selection of the filter: the nearby nodes for NearbyFilter; a client filter's own answer, null included; for SingleNodeFilter, the delegate's exception, NullPointerException over a null delegate answer, else one node of the delegate's set, or empty when that set is empty |
| Filters.Filter | WCL/src/main/java/com/google/devrel/wcl/filters/NearbyFilter.java:32-41 | a null node set is a NullPointerException; otherwise the filter's selection |
| Filters.SelectsNarrows | WCL/src/main/java/com/google/devrel/wcl/filters/SingleNodeFilter.java:61-71 | a filter built from the library's filters answers a subset of its input, never null and never an exception; any single-node answer holds at most one node |
| Filters.NearbyExactly | WCL/src/main/java/com/google/devrel/wcl/filters/NearbyFilter.java:32-41 | NearbyFilter keeps exactly the nearby nodes of its input; empty input gives empty output |
| Filters.NearbyIdempotent | WCL/src/main/java/com/google/devrel/wcl/filters/NearbyFilter.java:35-39 | filtering for nearby nodes twice is the same as once |
| Filters.SingleOfDelegate | WCL/src/main/java/com/google/devrel/wcl/filters/SingleNodeFilter.java:61-71 | the single pick follows the delegate's answer, or the original set without a delegate: its exception passes through, null is a NullPointerException, and otherwise the pick is empty exactly when that set is empty and one member of it otherwise |
| Filters.NullDelegateThrows | WCL/src/main/java/com/google/devrel/wcl/filters/SingleNodeFilter.java:62-65 | a SingleNodeFilter over a client filter that answers null throws NullPointerException |
| Filters.SingleNearby | WCL/src/main/java/com/google/devrel/wcl/filters/SingleNodeFilter.java:61-70 | SingleNodeFilter(NearbyFilter) yields at most one node, always nearby and from the input, and nothing exactly when no input node is nearby |
| HttpProtocol.RequestPayload | WCL/src/main/java/com/google/devrel/wcl/connectivity/WearHttpHelper.java:312-319 | the relay payload always carries url, request id, method and charset, and carries the query only for POST with a non-empty query |
| HttpProtocol.ResponsePayload | WCL/src/main/java/com/google/devrel/wcl/WearManager.java:251-254 | `sendHttpResponse`'s payload holds exactly the request id, the response and the status code; HttpProtocol.ResponseRoundTrip shows the helper reads all three back |
| HttpProtocol.DecodeRequest | WCL/src/main/java/com/google/devrel/wcl/WearManager.java:1036-1051 | the request surfaced to consumers always has a method, GET when the payload's is empty, and comes from the sending node with the payload's request id |
| HttpProtocol.RequestRoundTrip | WCL/src/main/java/com/google/devrel/wcl/WearManager.java:1036-1051 | the hub decodes the helper's payload back to the url, request id, method (GET if empty), charset and query the helper sent |
| HttpProtocol.ResponseRoundTrip | WCL/src/main/java/com/google/devrel/wcl/connectivity/WearHttpHelper.java:459-470 | the helper reads back from the hub's response payload exactly the request id, status and body the hub put in |
| Hub.FanOut | WCL/src/main/java/com/google/devrel/wcl/WearManager.java:1074-1081 | a broadcast makes one delivery per registered consumer, in registration order |
| Hub.FanOutExactlyOnce | WCL/src/main/java/com/google/devrel/wcl/WearManager.java:606-613 | with no duplicate registrations, each registered consumer gets a broadcast exactly once and an unregistered one never |
| Hub.Without | WCL/src/main/java/com/google/devrel/wcl/WearManager.java:621-623 | removing a consumer removes exactly that consumer and keeps the others free of duplicates |
| Hub.RouteOf | WCL/src/main/java/com/google/devrel/wcl/WearManager.java:980-993 | the HTTP path and the launch path are each recognised exactly, and every other path is ordinary |
| Hub.LaunchPayload | WCL/src/main/java/com/google/devrel/wcl/WearManager.java:803-814 | the launch payload always carries the relaunch flag, carries the bundle iff one is given and the activity name iff it is non-empty, and nothing else |
| Hub.DecodeLaunch | WCL/src/main/java/com/google/devrel/wcl/WearManager.java:998-1002 | `handleLaunchMessageEvent` reads the flag, bundle and name, with a missing entry read as false or null; Hub.LaunchRoundTrip shows it inverts Hub.LaunchPayload |
| Hub.LaunchRoundTrip | WCL/src/main/java/com/google/devrel/wcl/WearManager.java:998-1031 | the receiving hub reads back the sender's non-empty name, its bundle and its relaunch flag |
| Hub.LaunchDecision | WCL/src/main/java/com/google/devrel/wcl/WearManager.java:998-1031 | the launch rule of `handleLaunchMessageEvent`, written as its specification: an absent name goes to the consumers as (bundle, relaunch); a name launches exactly when it is non-empty, the activity exists and the app is in the background or relaunch was asked for. Hub.WearManager.OnMessageReceived applies it, and Hub.EmptyNameLaunchNotifiesConsumers and Hub.ForegroundNeedsRelaunch are its consequences |
| Hub.EmptyNameLaunchNotifiesConsumers | WCL/src/main/java/com/google/devrel/wcl/WearManager.java:998-1010 | a launch sent with an empty name arrives without one and is handed to the consumers |
| Hub.ForegroundNeedsRelaunch | WCL/src/main/java/com/google/devrel/wcl/WearManager.java:1019-1021 | without the relaunch flag nothing is started while the app is in the foreground |
| Hub.LaunchCalls | WCL/src/main/java/com/google/devrel/wcl/WearManager.java:774-777 | as many launch messages as target nodes |
| Hub.LaunchCallsAt | WCL/src/main/java/com/google/devrel/wcl/WearManager.java:774-777 | the k-th launch message goes to the k-th node tried, with the launch payload |
| Hub.AddCalls | WCL/src/main/java/com/google/devrel/wcl/WearManager.java:527-553 | one add-local-capability call per capability, in order |
| Hub.RemoveCalls | WCL/src/main/java/com/google/devrel/wcl/WearManager.java:559-585 | one remove-local-capability call per capability, in order |
| Hub.ChannelRouteOf | WCL/src/main/java/com/google/devrel/wcl/WearManager.java:1150-1213 | the file prefix selects the file branch and the stream prefix the stream branch; only one branch applies to any path |
| Hub.PrefixesExclusive | WCL/src/main/java/com/google/devrel/wcl/Constants.java:25-35 | no path starts with both the stream prefix and the file prefix |
| Hub.SenderRoutes | WCL/src/main/java/com/google/devrel/wcl/WearManager.java:1150-1213 | a file route built by a sender takes the file branch and a stream route the stream branch |
| Hub.WearManager.constructor | WCL/src/main/java/com/google/devrel/wcl/WearManager.java:95-100 | a new hub has no consumers, nodes, capabilities or transport calls, and is in the background |
| Hub.WearManager.Broadcast | WCL/src/main/java/com/google/devrel/wcl/WearManager.java:1074-1081 | the log grows by one delivery per registered consumer |
| Hub.WearManager.AddWearConsumer | WCL/src/main/java/com/google/devrel/wcl/WearManager.java:606-613 | null is a NullPointerException; otherwise the consumer is registered once, and only it hears "connected", and only when already connected |
| Hub.WearManager.RemoveWearConsumer | WCL/src/main/java/com/google/devrel/wcl/WearManager.java:621-623 | null is a NullPointerException; otherwise exactly that consumer is unregistered |
| Hub.WearManager.SendMessage | WCL/src/main/java/com/google/devrel/wcl/WearManager.java:193-214 | without a connection, IllegalStateException and nothing sent; otherwise exactly one send on the transport |
| Hub.WearManager.SendHttpResponse | WCL/src/main/java/com/google/devrel/wcl/WearManager.java:247-256 | an empty node or request id is IllegalArgumentException; no connection is IllegalStateException; otherwise the response payload is sent to that node |
| Hub.WearManager.AddCapabilities | WCL/src/main/java/com/google/devrel/wcl/WearManager.java:527-553 | no capabilities is a no-op; without a connection, IllegalStateException; otherwise one transport call per capability |
| Hub.WearManager.RemoveCapabilities | WCL/src/main/java/com/google/devrel/wcl/WearManager.java:559-585 | no capabilities is a no-op; without a connection, IllegalStateException; otherwise one transport call per capability |
| Hub.WearManager.CompleteAddCapability | WCL/src/main/java/com/google/devrel/wcl/WearManager.java:537-550 | on success the capability joins the watched set; either way every consumer hears the status |
| Hub.WearManager.CompleteRemoveCapability | WCL/src/main/java/com/google/devrel/wcl/WearManager.java:569-582 | on success the capability leaves the watched set; either way every consumer hears the status |
| Hub.WearManager.CompleteSendMessage | WCL/src/main/java/com/google/devrel/wcl/WearManager.java:199-211 | the default callback notifies every consumer; a caller's callback receives the status instead |
| Hub.WearManager.OnConnected | WCL/src/main/java/com/google/devrel/wcl/WearManager.java:628-667 | consumers hear "connected"; the configured capabilities are added, then the capability map and the connected nodes are requested |
| Hub.WearManager.CompleteGetAllCapabilities | WCL/src/main/java/com/google/devrel/wcl/WearManager.java:636-653 | on success every reported capability maps to its reported nodes and consumers are told; on failure nothing changes |
| Hub.WearManager.CompleteGetConnectedNodes | WCL/src/main/java/com/google/devrel/wcl/WearManager.java:658-665 | on success the connected set becomes exactly the reported nodes and consumers are told; on failure nothing changes |
| Hub.WearManager.OnConnectionSuspended | WCL/src/main/java/com/google/devrel/wcl/WearManager.java:1056-1063 | every consumer hears the suspension |
| Hub.WearManager.OnConnectionFailed | WCL/src/main/java/com/google/devrel/wcl/WearManager.java:1065-1069 | every consumer hears the failure |
| Hub.WearManager.OnConnectedNodes | WCL/src/main/java/com/google/devrel/wcl/WearManager.java:1106-1113 | the connected set becomes exactly the reported nodes and every consumer hears them |
| Hub.WearManager.OnCapabilityChanged | WCL/src/main/java/com/google/devrel/wcl/WearManager.java:1128-1135 | the capability maps to exactly the reported nodes, every other capability entry is unchanged, and every consumer is told |
| Hub.WearManager.OnConnectedInitialNodesReceived | WCL/src/main/java/com/google/devrel/wcl/WearManager.java:1118-1123 | every consumer hears that the initial nodes arrived |
| Hub.WearManager.OnConnectedInitialCapabilitiesReceived | WCL/src/main/java/com/google/devrel/wcl/WearManager.java:1140-1144 | every consumer hears that the initial capabilities arrived |
| Hub.WearManager.OnPeerConnected | WCL/src/main/java/com/google/devrel/wcl/WearManager.java:1086-1094 | every consumer hears the peer |
| Hub.WearManager.OnPeerDisconnected | WCL/src/main/java/com/google/devrel/wcl/WearManager.java:1096-1101 | every consumer hears the peer |
| Hub.WearManager.OnDataChanged | WCL/src/main/java/com/google/devrel/wcl/WearManager.java:1289-1293 | every consumer hears the data events |
| Hub.WearManager.GetNodesForCapability | WCL/src/main/java/com/google/devrel/wcl/WearManager.java:691-697 | an empty capability is IllegalArgumentException; an unmapped one is null; otherwise the stored node set |
| Hub.WearManager.GetNodesForCapabilityFiltered | WCL/src/main/java/com/google/devrel/wcl/WearManager.java:706-719 | an empty capability or a null filter is IllegalArgumentException; an unmapped capability gives the empty set; otherwise the filter's answer for the stored set, null or an exception included |
| Hub.WearManager.GetNodeById | WCL/src/main/java/com/google/devrel/wcl/WearManager.java:726-734 | null is a NullPointerException; otherwise a connected node with that id, or null exactly when no connected node has it |
| Hub.WearManager.LaunchAppOnNode | WCL/src/main/java/com/google/devrel/wcl/WearManager.java:803-814 | without a connection, IllegalStateException; otherwise one launch message to that node |
| Hub.WearManager.LaunchAppOnNodes | WCL/src/main/java/com/google/devrel/wcl/WearManager.java:761-781 | an empty capability is IllegalArgumentException; false with nothing sent when the capability has no nodes; otherwise the filter (NearbyFilter by default) answers: its exception propagates, a null answer gives false with nothing sent, and a set gives true and one launch message per chosen node, even when none was chosen |
| Hub.WearManager.LaunchOnTargets | WCL/src/main/java/com/google/devrel/wcl/WearManager.java:774-777 | every target gets one launch message, in the order the loop takes them |
| Hub.WearManager.LaunchEach | WCL/src/main/java/com/google/devrel/wcl/WearManager.java:774-776 | connected (or with no node), each node gets its launch message in sequence order; otherwise the first send fails with IllegalStateException and nothing is sent |
| Hub.WearManager.OnMessageReceived | WCL/src/main/java/com/google/devrel/wcl/WearManager.java:980-1081 | an ordinary path reaches every consumer; the two reserved paths never do; an HTTP request reaches consumers as a decoded request; a launch follows the launch rule |
| Hub.WearManager.OpenChannel | WCL/src/main/java/com/google/devrel/wcl/WearManager.java:849-872 | a node that is not nearby is IllegalArgumentException with nothing opened; otherwise one channel-open call |
| Hub.WearManager.GetOutputStreamViaChannel | WCL/src/main/java/com/google/devrel/wcl/WearManager.java:895-937 | a node that is not nearby is IllegalArgumentException with nothing opened; otherwise a channel is opened for the listener's output stream |
| Hub.WearManager.SendFile | WCL/src/main/java/com/google/devrel/wcl/WearManager.java:816-834 | the hub listens on the channel and then sends the file range on it |
| Hub.WearManager.CloseChannel | WCL/src/main/java/com/google/devrel/wcl/WearManager.java:942-946 | a present channel is closed; null is a no-op |
| Hub.WearManager.CompleteOpenChannel | WCL/src/main/java/com/google/devrel/wcl/WearManager.java:856-934 | a failed open is reported to its requester and nothing more happens; a successful one asks for the output stream, or for a file transfer sends the whole file from offset 0 with length -1 |
| Hub.WearManager.CompleteGetOutputStream | WCL/src/main/java/com/google/devrel/wcl/WearManager.java:913-929 | success hands the stream to the listener; failure closes the channel and reports the status |
| Hub.WearManager.CompleteSendFile | WCL/src/main/java/com/google/devrel/wcl/WearManager.java:822-831 | the send's status goes to the consumers, the caller's callback, or the transfer's result listener, whichever asked |
| Hub.WearManager.OnChannelOpened | WCL/src/main/java/com/google/devrel/wcl/WearManager.java:1150-1213 | exactly one branch: a file route receives the file, or if it cannot be prepared notifies nobody; a file route that does not decode, or whose size is not a number, fails; a stream route asks for the input stream; every other channel goes to the consumers |
| Hub.WearManager.CompleteReceiveFile | WCL/src/main/java/com/google/devrel/wcl/WearManager.java:1165-1183 | every consumer hears the received file's status, request id and name |
| Hub.WearManager.CompleteGetInputStream | WCL/src/main/java/com/google/devrel/wcl/WearManager.java:1192-1205 | every consumer hears the input stream with the empty request id, which is what the as-written stream-route decoder yields |
| Hub.WearManager.OnChannelClosed | WCL/src/main/java/com/google/devrel/wcl/WearManager.java:1261-1269 | every consumer hears the close |
| Hub.WearManager.OnInputClosed | WCL/src/main/java/com/google/devrel/wcl/WearManager.java:1271-1278 | every consumer hears the input close |
| Hub.WearManager.OnOutputClosed | WCL/src/main/java/com/google/devrel/wcl/WearManager.java:1280-1284 | every consumer hears the output close |
| Hub.WearManager.ChannelListenerOutputClosed | WCL/src/main/java/com/google/devrel/wcl/WearManager.java:1413-1417 | closing the output side of a file being sent closes the channel |
| Hub.WearManager.CleanUp | WCL/src/main/java/com/google/devrel/wcl/WearManager.java:1299-1308 | with watched capabilities and no connection, IllegalStateException and nothing changes; otherwise one remove call per watched capability, each once, and all consumers are dropped |
| Hub.WearManager.Enumerate | WCL/src/main/java/com/google/devrel/wcl/WearManager.java:1302-1303 | iterating over a set visits each member exactly once |
| Hub.WearManager.OnAppEnterForeground | WCL/src/main/java/com/google/devrel/wcl/WearManager.java:1346-1349 | the app is in the foreground |
| Hub.WearManager.OnAppEnterBackground | WCL/src/main/java/com/google/devrel/wcl/WearManager.java:1354-1357 | the app is in the background |
| HttpRelay.ValidateArguments | WCL/src/main/java/com/google/devrel/wcl/connectivity/WearHttpHelper.java:372-381 | passes exactly for POST, or GET with an empty query; everything else is IllegalArgumentException |
| HttpRelay.RequestIdOf | WCL/src/main/java/com/google/devrel/wcl/connectivity/WearHttpHelper.java:229 | the request id is never empty and joins its two parts with `-` |
| HttpRelay.AcceptExactly | WCL/src/main/java/com/google/devrel/wcl/connectivity/WearHttpHelper.java:447-457 | a reply is accepted iff the request was made, it is on the response path, has data, comes from the target node and carries this request id |
| HttpRelay.IgnoredBeforeCallOrWithoutData | WCL/src/main/java/com/google/devrel/wcl/connectivity/WearHttpHelper.java:448-452 | replies before the request is made, or without data, are ignored |
| HttpRelay.HubReplyAccepted | WCL/src/main/java/com/google/devrel/wcl/connectivity/WearHttpHelper.java:447-476 | the hub's reply for this request from the target node is accepted with the hub's status and body |
| HttpRelay.ForeignReplyIgnored | WCL/src/main/java/com/google/devrel/wcl/connectivity/WearHttpHelper.java:453-457 | a reply from another node or for another request is ignored |
| HttpRelay.WithoutIdempotent | WCL/src/main/java/com/google/devrel/wcl/connectivity/WearHttpHelper.java:383-419 | unregistering the helper's consumer a second time changes nothing, so cleanUp and abort are idempotent |
| HttpRelay.Builder.constructor | WCL/src/main/java/com/google/devrel/wcl/connectivity/WearHttpHelper.java:131-151 | defaults: GET, 15-second timeout, UTF-8, and no listener, node or query |
| HttpRelay.Builder.SetHttpMethod | WCL/src/main/java/com/google/devrel/wcl/connectivity/WearHttpHelper.java:161-164 | stores the method |
| HttpRelay.Builder.SetHttpResponseListener | WCL/src/main/java/com/google/devrel/wcl/connectivity/WearHttpHelper.java:170-173 | stores the listener |
| HttpRelay.Builder.SetCharset | WCL/src/main/java/com/google/devrel/wcl/connectivity/WearHttpHelper.java:178-181 | stores the charset |
| HttpRelay.Builder.SetTargetNodeId | WCL/src/main/java/com/google/devrel/wcl/connectivity/WearHttpHelper.java:186-189 | stores the target node |
| HttpRelay.Builder.SetTimeout | WCL/src/main/java/com/google/devrel/wcl/connectivity/WearHttpHelper.java:199-202 | stores the timeout |
| HttpRelay.Builder.SetQueryParams | WCL/src/main/java/com/google/devrel/wcl/connectivity/WearHttpHelper.java:210-213 | stores the query |
| HttpRelay.Builder.Build | WCL/src/main/java/com/google/devrel/wcl/connectivity/WearHttpHelper.java:219-238 | the helper takes the builder's settings and a fresh request id, and its consumer is registered with the hub |
| HttpRelay.WearHttpHelper.constructor | WCL/src/main/java/com/google/devrel/wcl/connectivity/WearHttpHelper.java:219-238 | a new helper is not yet called, with no timer or direct call, and its fresh consumer is registered |
| HttpRelay.WearHttpHelper.MakeHttpRequest | WCL/src/main/java/com/google/devrel/wcl/connectivity/WearHttpHelper.java:282-367 | invalid arguments fail before any effect; a second call is IllegalStateException with nothing sent; connected wifi goes direct with no timer and no relay; otherwise a missing connection or empty node fails, and a valid call arms the timer and sends exactly one relay message |
| HttpRelay.WearHttpHelper.CleanUp | WCL/src/main/java/com/google/devrel/wcl/connectivity/WearHttpHelper.java:383-415 | the timer is disarmed and the consumer unregistered |
| HttpRelay.WearHttpHelper.Abort | WCL/src/main/java/com/google/devrel/wcl/connectivity/WearHttpHelper.java:392-419 | after abort no timer or direct call runs, the listener is gone and the consumer is unregistered |
| HttpRelay.WearHttpHelper.TimerFires | WCL/src/main/java/com/google/devrel/wcl/connectivity/WearHttpHelper.java:322-343 | a timeout delivers ERROR_TIMEOUT with no body to a present listener, then drops the listener and unregisters |
| HttpRelay.WearHttpHelper.OnSendMessageResult | WCL/src/main/java/com/google/devrel/wcl/connectivity/WearHttpHelper.java:349-362 | a failed send with a listener delivers ERROR_REQUEST_FAILED and cleans up; otherwise nothing happens |
| HttpRelay.WearHttpHelper.OnMessageReceived | WCL/src/main/java/com/google/devrel/wcl/connectivity/WearHttpHelper.java:447-476 | a foreign reply changes nothing; an accepted reply reaches a present listener as (request id, status, body), then the helper cleans up |
| FileTransfer.BuiltRequestId | WCL/src/main/java/com/google/devrel/wcl/connectivity/WearFileTransfer.java:196-198 | a caller's non-empty request id is kept; otherwise the fresh one is used |
| FileTransfer.BuiltTargetName | WCL/src/main/java/com/google/devrel/wcl/connectivity/WearFileTransfer.java:199-201 | a non-empty target name is kept; an empty one becomes the file's name when a file was set |
| FileTransfer.AssertFileTransferParams | WCL/src/main/java/com/google/devrel/wcl/connectivity/WearFileTransfer.java:281-285 | passes exactly when a file was set; otherwise IllegalArgumentException |
| FileTransfer.AssertStreamParams | WCL/src/main/java/com/google/devrel/wcl/connectivity/WearFileTransfer.java:275-279 | passes exactly when an output-stream listener was set; otherwise IllegalArgumentException |
| FileTransfer.TransferPath | WCL/src/main/java/com/google/devrel/wcl/connectivity/WearFileTransfer.java:264-273 | a transfer's route is a file route |
| FileTransfer.TransferPathDecodes | WCL/src/main/java/com/google/devrel/wcl/connectivity/WearFileTransfer.java:264-273 | the receiving hub decodes a transfer's route to its target name, size and request id |
| FileTransfer.Builder.constructor | WCL/src/main/java/com/google/devrel/wcl/connectivity/WearFileTransfer.java:133-135 | a new builder holds only the node |
| FileTransfer.Builder.Create | WCL/src/main/java/com/google/devrel/wcl/connectivity/WearFileTransfer.java:133-135 | a null node is a NullPointerException; otherwise an empty builder for that node |
| FileTransfer.Builder.SetFile | WCL/src/main/java/com/google/devrel/wcl/connectivity/WearFileTransfer.java:140-147 | a null file is a NullPointerException; a file that does not exist is stored, then rejected with IllegalArgumentException |
| FileTransfer.Builder.SetTargetName | WCL/src/main/java/com/google/devrel/wcl/connectivity/WearFileTransfer.java:153-156 | stores the target name |
| FileTransfer.Builder.SetRequestId | WCL/src/main/java/com/google/devrel/wcl/connectivity/WearFileTransfer.java:176-179 | stores the request id |
| FileTransfer.Builder.SetOnChannelOutputStreamListener | WCL/src/main/java/com/google/devrel/wcl/connectivity/WearFileTransfer.java:163-169 | a null listener is a NullPointerException; otherwise it is stored |
| FileTransfer.Builder.SetOnFileTransferResultListener | WCL/src/main/java/com/google/devrel/wcl/connectivity/WearFileTransfer.java:185-190 | a null listener is a NullPointerException; otherwise it is stored |
| FileTransfer.Builder.Build | WCL/src/main/java/com/google/devrel/wcl/connectivity/WearFileTransfer.java:195-203 | fills in the request id and the target name by the build rules, in the builder too, and hands over every setting |
| FileTransfer.StartTransfer | WCL/src/main/java/com/google/devrel/wcl/connectivity/WearFileTransfer.java:215-246 | no file is IllegalArgumentException; no target name is the encoder's NullPointerException; a node not nearby is IllegalArgumentException; otherwise one channel is opened on the transfer's route, to send that file |
| FileTransfer.RequestOutputStream | WCL/src/main/java/com/google/devrel/wcl/connectivity/WearFileTransfer.java:257-262 | no output-stream listener is IllegalArgumentException; otherwise a channel is opened on the stream route for that listener |
| Visibility.TransitionOf | WCL/src/main/java/com/google/devrel/wcl/ApplicationVisibilityDetector.java:166-172 | VISIBLE is the foreground transition, anything else the background one |
| Visibility.Notify | WCL/src/main/java/com/google/devrel/wcl/ApplicationVisibilityDetector.java:166-172 | one callback per listener, in list order |
| Visibility.RemoveFirst | WCL/src/main/java/com/google/devrel/wcl/ApplicationVisibilityDetector.java:86-91 | removing a listener takes away one occurrence and leaves the others; an absent listener changes nothing |
| Visibility.FiredAlternates | WCL/src/main/java/com/google/devrel/wcl/ApplicationVisibilityDetector.java:160-175 | whatever the message order, the reported transitions strictly alternate, the last one matches the last handled message, and the first one leaves the starting state |
| Visibility.InitialHiddenSilent | WCL/src/main/java/com/google/devrel/wcl/ApplicationVisibilityDetector.java:51-53 | from the initial state a HIDDEN message reports nothing |
| Visibility.ApplicationVisibilityDetector.constructor | WCL/src/main/java/com/google/devrel/wcl/ApplicationVisibilityDetector.java:51-53 | starts hidden, with a zero counter, last handled HIDDEN, and nothing pending |
| Visibility.ApplicationVisibilityDetector.AddListener | WCL/src/main/java/com/google/devrel/wcl/ApplicationVisibilityDetector.java:79-84 | null is a NullPointerException; otherwise the listener is appended |
| Visibility.ApplicationVisibilityDetector.RemoveListener | WCL/src/main/java/com/google/devrel/wcl/ApplicationVisibilityDetector.java:86-91 | null is a NullPointerException; otherwise its first occurrence is removed |
| Visibility.ApplicationVisibilityDetector.IncrementUiCounter | WCL/src/main/java/com/google/devrel/wcl/ApplicationVisibilityDetector.java:133-142 | one more, and the UI is visible; only a hidden-to-visible change cancels HIDDEN and schedules VISIBLE |
| Visibility.ApplicationVisibilityDetector.DecrementUiCounter | WCL/src/main/java/com/google/devrel/wcl/ApplicationVisibilityDetector.java:144-155 | one less, never below 0; reaching 0 while visible hides the UI, cancels VISIBLE and schedules HIDDEN |
| Visibility.ApplicationVisibilityDetector.HandleMessage | WCL/src/main/java/com/google/devrel/wcl/ApplicationVisibilityDetector.java:160-175 | a repeat of the last handled message notifies nobody; otherwise every listener hears the message's transition |
| Visibility.ApplicationVisibilityDetector.DeliverPending | WCL/src/main/java/com/google/devrel/wcl/ApplicationVisibilityDetector.java:133-175 | delivering the one pending message keeps the detector consistent, and the reports so far still alternate |
| ListConfig.Validate | WCL/src/main/java/com/google/devrel/wcl/widgets/list/WearableListConfig.java:65-73 | no data array is a NullPointerException; an icon array of another length is IllegalArgumentException; otherwise the bundle is accepted as is |
| ListConfig.DataOnly | WCL/src/main/java/com/google/devrel/wcl/widgets/list/WearableListConfig.java:96-99 | a builder's first bundle holds the data array |
| ListConfig.DataOnlyDefaults | WCL/src/main/java/com/google/devrel/wcl/widgets/list/WearableListConfig.java:192-227 | read from a data-only config, the getters give their defaults: NO_SELECTION for the icons and the checked index, 0 for the request code, false for checkable and ambient, null for the header |
| ListConfig.ReadsWhatWasSet | WCL/src/main/java/com/google/devrel/wcl/widgets/list/WearableListConfig.java:192-227 | every getter reads back the value its builder setter stored, whatever the bundle held before, and the data array is kept |
| ListConfig.DataArray | WCL/src/main/java/com/google/devrel/wcl/widgets/list/WearableListConfig.java:192-194 | the data array, or null; ListConfig.ReadsWhatWasSet shows it reads what its setter stored, and ListConfig.DataOnlyDefaults gives its default |
| ListConfig.CheckedIconResId | WCL/src/main/java/com/google/devrel/wcl/widgets/list/WearableListConfig.java:196-198 | the checked icon, NO_SELECTION by default; ListConfig.ReadsWhatWasSet shows it reads what its setter stored, and ListConfig.DataOnlyDefaults gives its default |
| ListConfig.IconResId | WCL/src/main/java/com/google/devrel/wcl/widgets/list/WearableListConfig.java:200-203 | the single icon, NO_SELECTION by default; ListConfig.ReadsWhatWasSet shows it reads what its setter stored, and ListConfig.DataOnlyDefaults gives its default |
| ListConfig.IconResIds | WCL/src/main/java/com/google/devrel/wcl/widgets/list/WearableListConfig.java:205-207 | the icon array, or null; ListConfig.ReadsWhatWasSet shows it reads what its setter stored, and ListConfig.DataOnlyDefaults gives its default |
| ListConfig.CheckedIndex | WCL/src/main/java/com/google/devrel/wcl/widgets/list/WearableListConfig.java:209-211 | the checked index, NO_SELECTION by default; ListConfig.ReadsWhatWasSet shows it reads what its setter stored, and ListConfig.DataOnlyDefaults gives its default |
| ListConfig.RequestCode | WCL/src/main/java/com/google/devrel/wcl/widgets/list/WearableListConfig.java:213-215 | the request code, 0 by default; ListConfig.ReadsWhatWasSet shows it reads what its setter stored, and ListConfig.DataOnlyDefaults gives its default |
| ListConfig.IsCheckable | WCL/src/main/java/com/google/devrel/wcl/widgets/list/WearableListConfig.java:217-219 | the checkable flag, false by default; ListConfig.ReadsWhatWasSet shows it reads what its setter stored, and ListConfig.DataOnlyDefaults gives its default |
| ListConfig.IsAmbient | WCL/src/main/java/com/google/devrel/wcl/widgets/list/WearableListConfig.java:221-223 | the ambient flag, false by default; ListConfig.ReadsWhatWasSet shows it reads what its setter stored, and ListConfig.DataOnlyDefaults gives its default |
| ListConfig.Header | WCL/src/main/java/com/google/devrel/wcl/widgets/list/WearableListConfig.java:225-227 | the header, or null; ListConfig.ReadsWhatWasSet shows it reads what its setter stored, and ListConfig.DataOnlyDefaults gives its default |
| ListConfig.Builder.constructor | WCL/src/main/java/com/google/devrel/wcl/widgets/list/WearableListConfig.java:96-99 | a new builder holds only the data |
| ListConfig.Builder.SetCheckedIcon | WCL/src/main/java/com/google/devrel/wcl/widgets/list/WearableListConfig.java:105-108 | stores the checked icon |
| ListConfig.Builder.SetCheckedIndex | WCL/src/main/java/com/google/devrel/wcl/widgets/list/WearableListConfig.java:114-117 | stores the checked index |
| ListConfig.Builder.SetIcon | WCL/src/main/java/com/google/devrel/wcl/widgets/list/WearableListConfig.java:125-128 | stores the single icon |
| ListConfig.Builder.SetIcons | WCL/src/main/java/com/google/devrel/wcl/widgets/list/WearableListConfig.java:136-140 | stores a copy of the icon array, or null |
| ListConfig.Builder.SetRequestCode | WCL/src/main/java/com/google/devrel/wcl/widgets/list/WearableListConfig.java:147-150 | stores the request code |
| ListConfig.Builder.SetCheckable | WCL/src/main/java/com/google/devrel/wcl/widgets/list/WearableListConfig.java:160-163 | stores the checkable flag |
| ListConfig.Builder.SetAmbient | WCL/src/main/java/com/google/devrel/wcl/widgets/list/WearableListConfig.java:168-171 | stores the ambient flag |
| ListConfig.Builder.SetHeader | WCL/src/main/java/com/google/devrel/wcl/widgets/list/WearableListConfig.java:179-182 | stores the header |
| ListConfig.Builder.Build | WCL/src/main/java/com/google/devrel/wcl/widgets/list/WearableListConfig.java:187-189 | fails as validation does; otherwise a valid config of the builder's bundle |
| ListConfig.ToBundle | WCL/src/main/java/com/google/devrel/wcl/widgets/list/WearableListConfig.java:300-302 | a config is rebuilt exactly from its bundle |
| ListConfig.RebuiltReadsAlike | WCL/src/main/java/com/google/devrel/wcl/widgets/list/WearableListConfig.java:311-322 | putting a config's getter values back through the builder reads alike on every getter and validates the same way |
| ListConfig.FromBundle | WCL/src/main/java/com/google/devrel/wcl/widgets/list/WearableListConfig.java:300-322 | null is a NullPointerException; a bundle is accepted exactly when it validates, and the result agrees with it on every getter, so `fromBundle(c.toBundle())` reads like `c` |
| ListConfig.ParseResult | WCL/src/main/java/com/google/devrel/wcl/widgets/list/WearableListConfig.java:256-268 | a null intent, or one for another request code (default -1), gives NO_SELECTION, null and not handled; a matching one takes its fields from the extras |
| ListConfig.ItemClickedIntent | WCL/src/main/java/com/google/devrel/wcl/widgets/list/WclWearableListViewActivity.java:69-78 | the result intent carries the list's request code |
| ListConfig.ItemClickedRoundTrip | WCL/src/main/java/com/google/devrel/wcl/widgets/list/WclWearableListViewActivity.java:69-78 | parsing a clicked item's intent with the same request code gives the clicked position and value, handled |
| ListConfig.ItemClickedOtherRequest | WCL/src/main/java/com/google/devrel/wcl/widgets/list/WearableListConfig.java:256-268 | under another request code the same intent is not handled |
| ListAdapter.BaseIcon | WCL/src/main/java/com/google/devrel/wcl/widgets/list/SelectableWearableListAdapter.java:138-144 | the single icon when set; otherwise the row's entry of the icon array, out of range being IndexOutOfBoundsException; otherwise 0 |
| ListAdapter.RowIcon | WCL/src/main/java/com/google/devrel/wcl/widgets/list/SelectableWearableListAdapter.java:138-149 | a missing row is an error; the checked icon overrides the base icon exactly on the checked row of a checkable list |
| ListAdapter.NoRowCheckedOutOfRange | WCL/src/main/java/com/google/devrel/wcl/widgets/list/SelectableWearableListAdapter.java:147 | a checked position outside the rows, NO_SELECTION included, shows the checked icon nowhere |
| ListAdapter.NotCheckableShowsBase | WCL/src/main/java/com/google/devrel/wcl/widgets/list/SelectableWearableListAdapter.java:147-149 | a list that is not checkable shows only base icons |
| ListAdapter.CheckedIconFor | WCL/src/main/java/com/google/devrel/wcl/widgets/list/SelectableWearableListAdapter.java:121-127 | the stored checked icon is never NO_SELECTION and is the caller's whenever the caller gave one |
| ListAdapter.SelectableWearableListAdapter.constructor | WCL/src/main/java/com/google/devrel/wcl/widgets/list/SelectableWearableListAdapter.java:72-94 | starts with no checked row, not checkable |
| ListAdapter.SelectableWearableListAdapter.WithIcon | WCL/src/main/java/com/google/devrel/wcl/widgets/list/SelectableWearableListAdapter.java:81-86 | a null data set is a NullPointerException; otherwise an adapter over it with the single icon |
| ListAdapter.SelectableWearableListAdapter.WithIcons | WCL/src/main/java/com/google/devrel/wcl/widgets/list/SelectableWearableListAdapter.java:88-94 | a null data set is a NullPointerException; otherwise an adapter over it with the icon array and no single icon |
| ListAdapter.SelectableWearableListAdapter.SetChecked | WCL/src/main/java/com/google/devrel/wcl/widgets/list/SelectableWearableListAdapter.java:121-127 | stores the position and the checked icon, the default one for NO_SELECTION |
| ListAdapter.SelectableWearableListAdapter.SetCheckable | WCL/src/main/java/com/google/devrel/wcl/widgets/list/SelectableWearableListAdapter.java:129-131 | stores the checkable flag |
| ListAdapter.SelectableWearableListAdapter.ItemCount | WCL/src/main/java/com/google/devrel/wcl/widgets/list/SelectableWearableListAdapter.java:153-155 | one row per data item |
| ListAdapter.SelectableWearableListAdapter.Icon | WCL/src/main/java/com/google/devrel/wcl/widgets/list/SelectableWearableListAdapter.java:133-149 | a missing row is an error; the checked row of a checkable list shows the checked icon; every other row its base icon |
| Recorder.StreamSettingsValid | WCL/src/main/java/com/google/devrel/wcl/widgets/recording/WclRecorderActivity.java:249-263 | valid exactly when one of capability and node id is given and the other is not |
| Recorder.RecorderErrorStatus | WCL/src/main/java/com/google/devrel/wcl/widgets/recording/WclRecorderActivity.java:333-343 | audio-record failure maps to 4, invalid configuration to 3, and any other reason to no finish |
| Recorder.StreamFilter | WCL/src/main/java/com/google/devrel/wcl/widgets/recording/WclRecorderActivity.java:268-270 | the stream target is picked by SingleNodeFilter over NearbyFilter |
| Recorder.CapabilityTargetIsNearby | WCL/src/main/java/com/google/devrel/wcl/widgets/recording/WclRecorderActivity.java:266-275 | a capability's stream target is at most one node, nearby and among the capability's nodes |
| Recorder.WclRecorderActivity.constructor | WCL/src/main/java/com/google/devrel/wcl/widgets/recording/WclRecorderActivity.java:227-247 | starts not recording, with no settings and no results |
| Recorder.WclRecorderActivity.SetUpRecording | WCL/src/main/java/com/google/devrel/wcl/widgets/recording/WclRecorderActivity.java:227-247 | the streaming flag, file name, node id and capability come from the extras; without extras nothing is streamed |
| Recorder.WclRecorderActivity.GetNodeForStream | WCL/src/main/java/com/google/devrel/wcl/widgets/recording/WclRecorderActivity.java:265-285 | with a capability, the single nearby node of its nodes or null; with a node id, the connected node with that id or null |
| Recorder.WclRecorderActivity.FinishWithResult | WCL/src/main/java/com/google/devrel/wcl/widgets/recording/WclRecorderActivity.java:345-352 | the activity finishes once more with that status and file name and drops its sound manager |
| Recorder.WclRecorderActivity.ToggleRecording | WCL/src/main/java/com/google/devrel/wcl/widgets/recording/WclRecorderActivity.java:287-331 | while recording, stops and finishes with success and the file name; otherwise invalid stream settings finish with 3, no target node finishes with 1 and recording does not start, and a target gets an output-stream request |
| Recorder.WclRecorderActivity.StartStream | WCL/src/main/java/com/google/devrel/wcl/widgets/recording/WclRecorderActivity.java:307-317 | recording starts with a fresh channel listener, the previous listener is detached; a nearby node gets an output-stream request on the stream route of the request id, a node that is not nearby is refused with IllegalArgumentException and nothing is sent |
| Recorder.WclRecorderActivity.OnStop | WCL/src/main/java/com/google/devrel/wcl/widgets/recording/WclRecorderActivity.java:208-218 | the current channel listener is detached, so it no longer reaches the activity, and no listener and no sound manager remain |
| Recorder.WclRecorderActivity.OnRecordingFinished | WCL/src/main/java/com/google/devrel/wcl/widgets/recording/WclRecorderActivity.java:322-379 | a mapped error reason finishes with its status, for a local-file recording and for a stream whose listener is still attached; a detached stream listener, or any other reason, changes nothing |
| Recorder.WclRecorderActivity.OnOutputStreamForChannelReady | WCL/src/main/java/com/google/devrel/wcl/widgets/recording/WclRecorderActivity.java:367-388 | success changes nothing; a failure detaches the listener and finishes with 2, once per listener |

## Left out

- Google Play services (the `GoogleApiClient`, message, channel, capability and node APIs, `Channel`, `PendingResult`) is foreign code. Its calls are entries of the hub's `outbox` and its results arrive through the `Complete…` methods. The model does not force the transport to answer each call once or in order.
- The data-item wrappers (`putDataItem`, `getDataItems`, `getDataItem`, `deleteDataItems`, the synchronous variants, `putImageData`, `loadBitmapFromAssetSynchronous`) only forward status codes; they are not modelled, nor is bitmap handling.
- Threads, `Timer`/`TimerTask`, `Handler` posts and delayed messages, and `ExecutorService`/`FutureTask` become explicit flags (`timerArmed`, `directCallRunning`, `pending`) and step methods (`TimerFires`, `DeliverPending`). Races between them are not modelled.
- `makeDirectHttpRequest` does network I/O through `HttpURLConnection`; only its start is modelled, as the `directCallRunning` flag.
- The file system (`prepareFile`, `File.exists`, `File.length`, URIs) becomes the `fileReady`, `fileExists` and `fileLength` parameters.
- Time, random numbers and UUIDs become parameters: the request id of `WearHttpHelper` is built from given `now` and `random` values, and `WearFileTransfer.build` takes the fresh id as `freshId`.
- `WclSoundManager` (audio hardware and its background loop) is left out; the recorder sees only its two error codes and whether it is set.
- `WearableListItemLayout`, the list activities, view inflation and binding, `WclWearableListenerService`, and the `WearConsumer`/`AbstractWearConsumer` interface are UI or forwarding glue. Consumer callbacks are `WearEvent` values in the hub's log.
- `Utils.toAsset`, `wearHasSpeaker`, `LOGD` and `buildUuid` are left out.
- The `WearManager` singleton lifecycle (`initialize`, `getInstance`, starting and stopping services, `showWearableList`, `getVersion`) is left out; only the foreground flag used by the launch rule is kept.
- `Hub.WearManager.OnChannelOpened`: a file whose received size differs from the route's size is only logged by the source, so the model draws no distinction.
- `Platform.BundleInt`, `Platform.BundleBool`, `Platform.BundleString` and the array getters return the default for a value of the wrong type, where Android logs a `ClassCastException` warning and also returns the default; the log line is not modelled.
- HttpProtocol.DecodeRequest: payload entries are assumed to be strings. The source reads them with the untyped `DataMap.get` into `String` variables, which throws `ClassCastException` on an entry of another type; the model reads such an entry as null.
- Hub.WearManager.OnMessageReceived: in its HTTP branch, a non-string payload entry is read as null through `HttpProtocol.DecodeRequest`, where the source would throw `ClassCastException`.
- HttpRelay.WearHttpHelper.OnMessageReceived: the request id of a reply is assumed to be a string. The source reads it with the untyped `DataMap.get` before testing the path, so any message with data and a non-string id entry would throw `ClassCastException` once a request was made; the model reads such an entry as null and ignores the message (`HttpRelay.Verdict`).
- Integer widths: `int` and `long` overflow is not modelled. `JavaStrings.ParseLong` rejects text outside the `long` range the way `Long.parseLong` does.
- FormCodec.Decode: refuses every escape that is not `%` and two ASCII hex digits, and every invalid UTF-8 sequence. `URLDecoder` reads the two characters with `Integer.parseInt(…, 16)`, so it also accepts `%+1` (a leading sign) and escapes written with non-ASCII Unicode digits, and it substitutes U+FFFD for invalid UTF-8. The round trip only needs the escapes `URLEncoder` writes.
- FormCodec.Encode: names are strings of Unicode scalar values. A Java `String` is UTF-16 and may hold a lone surrogate, which `URLEncoder` writes as `%3F`, the encoding of `?`; such names are not modelled, so FormCodec.DecodeEncode, FormCodec.EncodeInjective and TransferRoutes.FileRouteRoundTrip hold only for names without lone surrogates, and are false for Java strings that have one.
- JavaStrings.ParseLong: accepts ASCII digits only. `Long.parseLong` reads digits with `Character.digit` and also accepts other Unicode decimal digits (`"٣"` parses to 3); a size route is always written with ASCII digits by `Long.toString`, so JavaStrings.LongTextRoundTrip is unaffected.
- Filters.Filter: a client filter handed a null node set is taken to throw NullPointerException, as the library's filters do; what a client's own code does with null is not modelled.
- Filters.NodeSelectionFilter: a client filter answers a set or null; exceptions thrown by a client's own `filterNodes` are not modelled.
- The `DataMap` and `Bundle` byte serialisations are modelled as maps of typed values.
- Java references to consumers and listeners are class identities; `null` appears only where the source checks for it, as `Option`.
- Picking an arbitrary element of a set (`iterator().next()` in `SingleNodeFilter` and `Utils.filterForNearby`, iteration order in `cleanUp`) is done by methods, and their contracts allow any choice.
- `ListAdapter.DEFAULT_CHECKED_ICON_RES` is a stand-in for the generated resource id `R.drawable.wcl_list_default_checked_icon`.
- `ListConfig.IconResIds` returns the stored value; the aliasing of `getIconResIds` handing out the internal array is not modelled. Copying on `setIcons` and `toBundle` holds trivially, because Dafny values are immutable.
- Recorder.WclRecorderActivity.ToggleRecording: the sound manager is only a flag, so recording to a local file just sets the flags, and the button colours are not modelled.

## Findings

| source | as written | input that shows it | evidently intended | confidence | as-written member | corrected member |
|---|---|---|---|---|---|---|
| WCL/src/main/java/com/google/devrel/wcl/WearManager.java:1237 | `getStreamTransferParams` strips the file-transfer prefix instead of the stream-transfer prefix, so the string still begins with `/`, and `split("/")[0]` is the empty text before it | the stream route built for request id `abc` decodes to request id `""` instead of `abc`; every stream route decodes to `""` | strip `PATH_STREAM_TRANSFER` and take the rest as the request id | not executed | TransferRoutes.GetStreamTransferParams (TransferRoutes.StreamRequestIdAlwaysEmpty, TransferRoutes.StreamRouteLosesRequestId) | TransferRoutes.GetStreamTransferParamsFixed (TransferRoutes.StreamRouteRoundTrip) |

`Hub.WearManager.OnChannelOpened` uses the decoder as written, because that is what receiving devices run. The result is that a consumer's input-stream callback always carries the empty request id. The corrected decoder is shown beside it with its round-trip proved.
