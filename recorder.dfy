/**
 * WclRecorderActivity: records from the microphone to a file, or streams to
 * another node over a channel, and finishes with a status for its caller.
 * The recording itself (WclSoundManager) and the views are not modelled:
 * `soundManagerSet` says whether the activity holds a sound manager.
 */
module Recorder {
  import opened Wrappers
  import opened Platform
  import Filters
  import TransferRoutes
  import FileTransfer
  import Hub

  /** WclRecorderActivity.STATUS_SUCCESS; the transport's own SUCCESS code is Platform.STATUS_SUCCESS. */
  const RECORDING_SUCCESS: int := 0
  const STATUS_ERROR_NODE_NOT_FOUND: int := 1
  const STATUS_ERROR_IO_EXCEPTION: int := 2
  const STATUS_ERROR_INVALID_CONFIGURATION: int := 3
  const STATUS_ERROR_RECORDER_FAILED: int := 4

  /** The reasons WclSoundManager reports a finished recording with. */
  const SOUND_ERROR_INVALID_CONFIGURATION: int := 6
  const SOUND_ERROR_AUDIO_RECORD_FAILED: int := 7

  const EXTRA_RECORDING_FILE_NAME := "com.google.devrel.wcl.widgets.wclrecorderactivity.EXTRA_RECORDING_FILE_NAME"
  const EXTRA_STREAMING := "com.google.devrel.wcl.widgets.wclrecorderactivity.EXTRA_STREAMING"
  const EXTRA_NODE_CAPABILITY := "com.google.devrel.wcl.widgets.wclrecorderactivity.EXTRA_NODE_CAPABILITY"
  const EXTRA_NODE_ID := "com.google.devrel.wcl.widgets.wclrecorderactivity.EXTRA_NODE_ID"

  /** isNodeSettingsValidForStreaming: exactly one of capability and node id. */
  function StreamSettingsValid(capability: Option<string>, nodeId: Option<string>): (valid: bool)
    ensures valid <==> (capability.Some? && nodeId.None?) || (capability.None? && nodeId.Some?)
  {
    !(capability.Some? && nodeId.Some?) && !(capability.None? && nodeId.None?)
  }

  /** finishWithRecorderError: the status a recorder reason finishes with, if any. */
  function RecorderErrorStatus(reason: int): (status: Option<int>)
    ensures reason == SOUND_ERROR_AUDIO_RECORD_FAILED <==> status == Some(STATUS_ERROR_RECORDER_FAILED)
    ensures reason == SOUND_ERROR_INVALID_CONFIGURATION <==> status == Some(STATUS_ERROR_INVALID_CONFIGURATION)
    ensures status.None? <==> reason != SOUND_ERROR_AUDIO_RECORD_FAILED && reason != SOUND_ERROR_INVALID_CONFIGURATION
  {
    if reason == SOUND_ERROR_AUDIO_RECORD_FAILED then Some(STATUS_ERROR_RECORDER_FAILED)
    else if reason == SOUND_ERROR_INVALID_CONFIGURATION then Some(STATUS_ERROR_INVALID_CONFIGURATION)
    else None
  }

  /** The result handed to the caller: the status and, on success, the recording's file name. */
  datatype Finish = Finish(status: int, hasFileName: bool, fileName: Option<string>)

  /** The single nearby filter getNodeForStream queries with. */
  function StreamFilter(): (f: Filters.NodeSelectionFilter)
    ensures f.SingleNodeFilter? && f.delegate.Some? && f.delegate.value.NearbyFilter?
  {
    Filters.SingleNodeFilter(Some(Filters.NearbyFilter))
  }

  class WclRecorderActivity {
    const hub: Hub.WearManager
    var recording: bool
    var streaming: bool
    var recordingFileName: Option<string>
    var nodeId: Option<string>
    var capability: Option<string>
    var soundManagerSet: bool
    /** mChannelListener, the output-stream listener of the current stream. */
    var channelListener: Option<Listener>
    /** Listeners whose activity reference was cleared: they finish nothing. */
    var detached: set<Listener>
    /** Every finishWithResult, in order. */
    var results: seq<Finish>

    constructor (hub: Hub.WearManager)
      ensures this.hub == hub && !recording && !streaming && !soundManagerSet
      ensures channelListener.None? && detached == {} && results == []
      ensures recordingFileName.None? && nodeId.None? && capability.None?
    {
      this.hub := hub;
      recording := false;
      streaming := false;
      recordingFileName := None;
      nodeId := None;
      capability := None;
      soundManagerSet := false;
      channelListener := None;
      detached := {};
      results := [];
    }

    /** setUpRecording: the settings read from the launch extras; nothing but `streaming` is reset without extras. */
    method SetUpRecording(extras: Option<Bundle>)
      modifies this`streaming, this`recordingFileName, this`nodeId, this`capability
      ensures extras.None? ==> !streaming && recordingFileName == old(recordingFileName)
      ensures extras.None? ==> nodeId == old(nodeId) && capability == old(capability)
      ensures extras.Some? ==> streaming == BundleBool(extras.value, EXTRA_STREAMING, false)
      ensures extras.Some? ==> recordingFileName == BundleString(extras.value, EXTRA_RECORDING_FILE_NAME)
      ensures extras.Some? ==> nodeId == BundleString(extras.value, EXTRA_NODE_ID)
      ensures extras.Some? ==> capability == BundleString(extras.value, EXTRA_NODE_CAPABILITY)
    {
      streaming := false;
      if extras.Some? {
        recordingFileName := BundleString(extras.value, EXTRA_RECORDING_FILE_NAME);
        streaming := BundleBool(extras.value, EXTRA_STREAMING, false);
        nodeId := BundleString(extras.value, EXTRA_NODE_ID);
        capability := BundleString(extras.value, EXTRA_NODE_CAPABILITY);
      }
    }

    /**
     * What getNodeForStream may answer: with a capability, one nearby node
     * providing it or none (an empty capability is refused); with a node id,
     * the connected node of that id or none.
     */
    ghost predicate IsStreamTarget(target: Result<Option<Node>>)
      reads this, hub
    {
      if capability.Some? then
        if capability.value == [] then target == Err(IllegalArgument)
        else
          var stored := if capability.value in hub.capabilityToNodes then hub.capabilityToNodes[capability.value] else {};
          && target.Ok?
          && (target.value.None? <==> forall n :: n in stored ==> !n.isNearby)
          && (target.value.Some? ==> target.value.value in stored && target.value.value.isNearby)
      else
        nodeId.Some? && target.Ok?
        && (target.value.None? <==> forall n :: n in hub.connectedNodes ==> n.id != nodeId.value)
        && (target.value.Some? ==> target.value.value in hub.connectedNodes && target.value.value.id == nodeId.value)
    }

    /** getNodeForStream, called once the settings are valid. */
    method GetNodeForStream() returns (target: Result<Option<Node>>)
      requires StreamSettingsValid(capability, nodeId)
      ensures IsStreamTarget(target)
    {
      if capability.Some? {
        var nodes := hub.GetNodesForCapabilityFiltered(capability, Some(StreamFilter()));
        if nodes.Err? {
          assert capability.value == [];
          return Err(nodes.error);
        }
        assert capability.value != [];
        if capability.value in hub.capabilityToNodes {
          Filters.SingleNearby(hub.capabilityToNodes[capability.value], nodes);
        }
        if nodes.value.None? || nodes.value.value == {} {
          return Ok(None);
        }
        var n :| n in nodes.value.value;
        target := Ok(Some(n));
      } else {
        target := hub.GetNodeById(nodeId);
        assert target.Ok?;
      }
    }

    /** finishWithResult: the sound manager is dropped and the result recorded. */
    method FinishWithResult(status: int, fileName: Option<string>, hasFileName: bool)
      modifies this`soundManagerSet, this`results
      ensures !soundManagerSet && results == old(results) + [Finish(status, hasFileName, fileName)]
    {
      soundManagerSet := false;
      results := results + [Finish(status, hasFileName, fileName)];
    }

    /**
     * toggleRecording. While recording: stop and finish with SUCCESS and the
     * file name (a sound manager already dropped by an earlier finish is a
     * NullPointerException). Otherwise, for a file: start recording. For a
     * stream: invalid settings finish with INVALID_CONFIGURATION, a missing
     * target with NODE_NOT_FOUND; else recording starts and an output stream
     * is requested from the target with a new listener, the previous one
     * being detached.
     */
    method ToggleRecording(freshRequestId: string) returns (r: Outcome, ghost target: Result<Option<Node>>)
      modifies this`recording, this`soundManagerSet, this`results, this`channelListener, this`detached, hub`outbox
      ensures old(recording) ==> !recording && hub.outbox == old(hub.outbox)
      ensures old(recording) && old(soundManagerSet) ==>
        r == Pass && !soundManagerSet && results == old(results) + [Finish(RECORDING_SUCCESS, true, recordingFileName)]
      ensures old(recording) && !old(soundManagerSet) ==> r == Fail(NullPointer) && results == old(results)
      ensures !old(recording) && !streaming ==>
        r == Pass && recording && soundManagerSet && results == old(results) && hub.outbox == old(hub.outbox)
      ensures !old(recording) && streaming && !StreamSettingsValid(capability, nodeId) ==>
        r == Pass && !recording && !soundManagerSet && hub.outbox == old(hub.outbox)
        && results == old(results) + [Finish(STATUS_ERROR_INVALID_CONFIGURATION, false, None)]
      ensures !old(recording) && streaming && StreamSettingsValid(capability, nodeId) ==> IsStreamTarget(target)
      ensures !old(recording) && streaming && StreamSettingsValid(capability, nodeId) && target.Err? ==>
        r == Fail(target.error) && !recording && results == old(results) && hub.outbox == old(hub.outbox)
      ensures !old(recording) && streaming && StreamSettingsValid(capability, nodeId) && target == Ok(None) ==>
        r == Pass && !recording && !soundManagerSet && hub.outbox == old(hub.outbox)
        && results == old(results) + [Finish(STATUS_ERROR_NODE_NOT_FOUND, false, None)]
      ensures !old(recording) && streaming && StreamSettingsValid(capability, nodeId) && target.Ok? && target.value.Some? ==>
        var node := target.value.value;
        && recording && soundManagerSet && results == old(results)
        && channelListener.Some? && fresh(channelListener.value)
        && detached == old(detached) + (if old(channelListener).Some? then {old(channelListener).value} else {})
        && (node.isNearby ==> r == Pass && hub.outbox == old(hub.outbox) + [Hub.TransportCall.OpenChannel(
              node.id, TransferRoutes.StreamPath(freshRequestId), Hub.OutputStreamRequest(channelListener.value))])
        && (!node.isNearby ==> r == Fail(IllegalArgument) && hub.outbox == old(hub.outbox))
    {
      target := Ok(None);
      if recording {
        recording := false;
        if !soundManagerSet {
          return Fail(NullPointer), target;
        }
        FinishWithResult(RECORDING_SUCCESS, recordingFileName, true);
        return Pass, target;
      }
      if !streaming {
        soundManagerSet := true;
        recording := true;
        return Pass, target;
      }
      if !StreamSettingsValid(capability, nodeId) {
        FinishWithResult(STATUS_ERROR_INVALID_CONFIGURATION, None, false);
        return Pass, target;
      }
      var found := GetNodeForStream();
      target := found;
      if found.Err? {
        return Fail(found.error), target;
      }
      if found.value.None? {
        FinishWithResult(STATUS_ERROR_NODE_NOT_FOUND, None, false);
        return Pass, target;
      }
      r := StartStream(found.value.value, freshRequestId);
    }

    /**
     * The streaming start of toggleRecording once a target node is known:
     * recording starts with a new sound manager, the previous output-stream
     * listener is detached, and an output stream is requested from the node
     * for a new listener.
     */
    method StartStream(node: Node, freshRequestId: string) returns (r: Outcome)
      modifies this`recording, this`soundManagerSet, this`channelListener, this`detached, hub`outbox
      ensures recording && soundManagerSet
      ensures channelListener.Some? && fresh(channelListener.value)
      ensures detached == old(detached) + (if old(channelListener).Some? then {old(channelListener).value} else {})
      ensures node.isNearby ==> r == Pass && hub.outbox == old(hub.outbox) + [Hub.TransportCall.OpenChannel(
                node.id, TransferRoutes.StreamPath(freshRequestId), Hub.OutputStreamRequest(channelListener.value))]
      ensures !node.isNearby ==> r == Fail(IllegalArgument) && hub.outbox == old(hub.outbox)
    {
      recording := true;
      soundManagerSet := true;
      if channelListener.Some? {
        detached := detached + {channelListener.value};
      }
      var listener := new Listener();
      channelListener := Some(listener);
      var builder := new FileTransfer.Builder(node);
      var _ := builder.SetOnChannelOutputStreamListener(Some(listener));
      var transfer := builder.Build(freshRequestId);
      r := FileTransfer.RequestOutputStream(transfer, hub);
    }

    /** onStop: the channel listener is detached and dropped, and the sound manager released. */
    method OnStop()
      modifies this`channelListener, this`detached, this`soundManagerSet
      ensures channelListener.None? && !soundManagerSet
      ensures detached == old(detached) + (if old(channelListener).Some? then {old(channelListener).value} else {})
    {
      if channelListener.Some? {
        detached := detached + {channelListener.value};
        channelListener := None;
      }
      soundManagerSet := false;
    }

    /**
     * The sound manager reports the end of a recording; only two reasons
     * finish the activity. A local-file recording (`via` None) reports to the
     * activity directly; a streamed one reports through its channel listener
     * `via`, and a listener that was detached no longer reaches the activity.
     */
    method OnRecordingFinished(via: Option<Listener>, reason: int)
      modifies this`soundManagerSet, this`results
      ensures (via.None? || via.value !in detached) && RecorderErrorStatus(reason).Some? ==>
        !soundManagerSet && results == old(results) + [Finish(RecorderErrorStatus(reason).value, false, None)]
      ensures (via.Some? && via.value in detached) || RecorderErrorStatus(reason).None? ==>
        soundManagerSet == old(soundManagerSet) && results == old(results)
    {
      if via.Some? && via.value in detached {
        return;
      }
      var status := RecorderErrorStatus(reason);
      if status.Some? {
        FinishWithResult(status.value, None, false);
      }
    }

    /**
     * The stream listener hears whether the output stream is ready: a failure
     * finishes with IO_EXCEPTION, unless the listener was detached, and then
     * detaches it; success hands the stream to the sound manager.
     */
    method OnOutputStreamForChannelReady(listener: Listener, statusCode: int)
      modifies this`soundManagerSet, this`results, this`detached
      ensures statusCode == STATUS_SUCCESS ==> results == old(results) && detached == old(detached) && soundManagerSet == old(soundManagerSet)
      ensures statusCode != STATUS_SUCCESS ==> detached == old(detached) + {listener}
      ensures statusCode != STATUS_SUCCESS && listener !in old(detached) ==>
        !soundManagerSet && results == old(results) + [Finish(STATUS_ERROR_IO_EXCEPTION, false, None)]
      ensures statusCode != STATUS_SUCCESS && listener in old(detached) ==>
        results == old(results) && soundManagerSet == old(soundManagerSet)
    {
      if statusCode != STATUS_SUCCESS {
        if listener !in detached {
          FinishWithResult(STATUS_ERROR_IO_EXCEPTION, None, false);
        }
        detached := detached + {listener};
      }
    }
  }

  /** A stream target found by capability is always nearby, so the output-stream request never fails for distance. */
  lemma CapabilityTargetIsNearby(stored: set<Node>, r: Filters.Selection)
    requires Filters.Selects(StreamFilter(), stored, r)
    ensures r.Ok? && r.value.Some?
    ensures forall n :: n in r.value.value ==> n.isNearby && n in stored
    ensures |r.value.value| <= 1
  {
    Filters.SingleNearby(stored, r);
  }
}
