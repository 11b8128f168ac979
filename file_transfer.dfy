/**
 * WearFileTransfer: a builder for a transfer to one node, then either a whole
 * file sent over a channel (startTransfer) or an output stream on a channel
 * (requestOutputStream). The channel work itself goes through the hub.
 */
module FileTransfer {
  import opened Wrappers
  import opened Platform
  import opened Constants
  import opened JavaStrings
  import TransferRoutes
  import Hub

  /** A built transfer; its fields never change. */
  datatype Transfer = Transfer(
    file: Option<FileRef>,
    targetName: Option<string>,
    node: Node,
    requestId: string,
    resultListener: Option<Listener>,
    streamListener: Option<Listener>)

  /** build(): a caller's non-empty request id is kept, otherwise the fresh one is used. */
  function BuiltRequestId(requestId: Option<string>, freshId: string): (id: string)
    ensures !IsEmpty(requestId) ==> id == requestId.value
    ensures IsEmpty(requestId) ==> id == freshId
  {
    if IsEmpty(requestId) then freshId else requestId.value
  }

  /** build(): an empty target name becomes the file's own name when there is a file. */
  function BuiltTargetName(targetName: Option<string>, file: Option<FileRef>): (name: Option<string>)
    ensures !IsEmpty(targetName) ==> name == targetName
    ensures IsEmpty(targetName) && file.Some? ==> name == Some(file.value.name)
    ensures IsEmpty(targetName) && file.None? ==> name == targetName
  {
    if IsEmpty(targetName) && file.Some? then Some(file.value.name) else targetName
  }

  /** assertFileTransferParams: a file must be set. */
  function AssertFileTransferParams(t: Transfer): (r: Outcome)
    ensures r == Pass <==> t.file.Some?
    ensures r.Fail? ==> r.error == IllegalArgument
  {
    if t.file.None? then Fail(IllegalArgument) else Pass
  }

  /** assertStreamParams: an output-stream listener must be set. */
  function AssertStreamParams(t: Transfer): (r: Outcome)
    ensures r == Pass <==> t.streamListener.Some?
    ensures r.Fail? ==> r.error == IllegalArgument
  {
    if t.streamListener.None? then Fail(IllegalArgument) else Pass
  }

  /** The route startTransfer opens its channel on. */
  function TransferPath(t: Transfer, fileLength: int): (path: string)
    requires t.targetName.Some?
    ensures StartsWith(path, PATH_FILE_TRANSFER)
  {
    TransferRoutes.BuildPath(t.targetName.value, t.requestId, fileLength)
  }

  /**
   * The receiving hub decodes the route of a transfer back to its target
   * name, the size's text and its request id, as long as the id has no '/'
   * (a UUID has none).
   */
  lemma TransferPathDecodes(t: Transfer, fileLength: int)
    requires t.targetName.Some? && t.requestId != [] && '/' !in t.requestId
    ensures TransferRoutes.GetFileTransferParams(TransferPath(t, fileLength))
      == Ok(TransferRoutes.FileParams(t.targetName.value, LongText(fileLength), t.requestId))
  {
    TransferRoutes.FileRouteRoundTrip(t.targetName.value, t.requestId, fileLength);
  }

  /** WearFileTransfer.Builder. */
  class Builder {
    var file: Option<FileRef>
    var targetName: Option<string>
    const node: Node
    var requestId: Option<string>
    var resultListener: Option<Listener>
    var streamListener: Option<Listener>

    constructor (node: Node)
      ensures this.node == node && file.None? && targetName.None? && requestId.None?
      ensures resultListener.None? && streamListener.None?
    {
      this.node := node;
      file := None;
      targetName := None;
      requestId := None;
      resultListener := None;
      streamListener := None;
    }

    /** Builder(targetNode): a missing node is a NullPointerException. */
    static method Create(node: Option<Node>) returns (r: Result<Builder>)
      ensures node.None? ==> r == Err(NullPointer)
      ensures node.Some? ==> r.Ok? && fresh(r.value) && r.value.node == node.value
      ensures node.Some? ==> r.value.file.None? && r.value.targetName.None? && r.value.requestId.None?
      ensures node.Some? ==> r.value.resultListener.None? && r.value.streamListener.None?
    {
      if node.None? {
        return Err(NullPointer);
      }
      var b := new Builder(node.value);
      r := Ok(b);
    }

    /**
     * setFile: a missing file is a NullPointerException; a file that does not
     * exist is an IllegalArgumentException, raised after the file was stored.
     */
    method SetFile(file: Option<FileRef>, fileExists: bool) returns (r: Outcome)
      modifies this`file
      ensures file.None? ==> r == Fail(NullPointer) && this.file == old(this.file)
      ensures file.Some? ==> this.file == file
      ensures file.Some? ==> (r == Pass <==> fileExists)
      ensures file.Some? && !fileExists ==> r == Fail(IllegalArgument)
    {
      if file.None? {
        return Fail(NullPointer);
      }
      this.file := file;
      if !fileExists {
        return Fail(IllegalArgument);
      }
      r := Pass;
    }

    method SetTargetName(targetName: Option<string>)
      modifies this`targetName
      ensures this.targetName == targetName
    {
      this.targetName := targetName;
    }

    method SetRequestId(requestId: Option<string>)
      modifies this`requestId
      ensures this.requestId == requestId
    {
      this.requestId := requestId;
    }

    /** setOnChannelOutputStreamListener: a missing listener is a NullPointerException. */
    method SetOnChannelOutputStreamListener(listener: Option<Listener>) returns (r: Outcome)
      modifies this`streamListener
      ensures listener.None? ==> r == Fail(NullPointer) && streamListener == old(streamListener)
      ensures listener.Some? ==> r == Pass && streamListener == listener
    {
      if listener.None? {
        return Fail(NullPointer);
      }
      streamListener := listener;
      r := Pass;
    }

    /** setOnFileTransferResultListener: a missing listener is a NullPointerException. */
    method SetOnFileTransferResultListener(listener: Option<Listener>) returns (r: Outcome)
      modifies this`resultListener
      ensures listener.None? ==> r == Fail(NullPointer) && resultListener == old(resultListener)
      ensures listener.Some? ==> r == Pass && resultListener == listener
    {
      if listener.None? {
        return Fail(NullPointer);
      }
      resultListener := listener;
      r := Pass;
    }

    /** build(): fills in the request id and the target name, in the builder too, then copies the fields. */
    method Build(freshId: string) returns (t: Transfer)
      modifies this`requestId, this`targetName
      ensures requestId == Some(BuiltRequestId(old(requestId), freshId))
      ensures targetName == BuiltTargetName(old(targetName), file)
      ensures t == Transfer(file, targetName, node, requestId.value, resultListener, streamListener)
    {
      if IsEmpty(requestId) {
        requestId := Some(freshId);
      }
      if IsEmpty(targetName) && file.Some? {
        targetName := Some(file.value.name);
      }
      t := Transfer(file, targetName, node, requestId.value, resultListener, streamListener);
    }
  }

  /**
   * startTransfer: without a file, IllegalArgumentException; without a target
   * name, the encoder's NullPointerException; otherwise a channel is opened on
   * the file route, to be handed to the file once open.
   */
  method StartTransfer(t: Transfer, hub: Hub.WearManager, fileLength: int) returns (r: Outcome)
    modifies hub`outbox
    ensures t.file.None? ==> r == Fail(IllegalArgument) && hub.outbox == old(hub.outbox)
    ensures t.file.Some? && t.targetName.None? ==> r == Fail(NullPointer) && hub.outbox == old(hub.outbox)
    ensures t.file.Some? && t.targetName.Some? && !t.node.isNearby ==> r == Fail(IllegalArgument) && hub.outbox == old(hub.outbox)
    ensures t.file.Some? && t.targetName.Some? && t.node.isNearby ==>
      r == Pass
      && hub.outbox == old(hub.outbox) + [Hub.TransportCall.OpenChannel(t.node.id, TransferPath(t, fileLength),
                                                                       Hub.FileTransferReady(t.requestId, t.file.value, t.resultListener))]
  {
    r := AssertFileTransferParams(t);
    if r.Fail? {
      return;
    }
    if t.targetName.None? {
      return Fail(NullPointer);
    }
    var path := TransferRoutes.BuildPath(t.targetName.value, t.requestId, fileLength);
    r := hub.OpenChannel(t.node, path, Hub.FileTransferReady(t.requestId, t.file.value, t.resultListener));
  }

  /** requestOutputStream: needs an output-stream listener; opens a channel on the stream route. */
  method RequestOutputStream(t: Transfer, hub: Hub.WearManager) returns (r: Outcome)
    modifies hub`outbox
    ensures t.streamListener.None? ==> r == Fail(IllegalArgument) && hub.outbox == old(hub.outbox)
    ensures t.streamListener.Some? && !t.node.isNearby ==> r == Fail(IllegalArgument) && hub.outbox == old(hub.outbox)
    ensures t.streamListener.Some? && t.node.isNearby ==>
      r == Pass
      && hub.outbox == old(hub.outbox) + [Hub.TransportCall.OpenChannel(t.node.id, TransferRoutes.StreamPath(t.requestId),
                                                                       Hub.OutputStreamRequest(t.streamListener.value))]
  {
    r := AssertStreamParams(t);
    if r.Fail? {
      return;
    }
    r := hub.GetOutputStreamViaChannel(t.node, TransferRoutes.StreamPath(t.requestId), t.streamListener.value);
  }
}
