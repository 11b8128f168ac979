/** The static helpers of the library's Utils class that make decisions. */
module Utils {
  import opened Wrappers
  import opened Platform

  const WIFI_DISABLED: int := 1
  const WIFI_NO_CONNECTION: int := 2
  const WIFI_CONNECTED: int := 3

  /**
   * getWifiConnectivityStatus, given what the WifiManager and the
   * ConnectivityManager report.
   */
  function WifiConnectivityStatus(wifiEnabled: bool, wifiConnected: bool): (status: int)
    ensures status in {WIFI_DISABLED, WIFI_NO_CONNECTION, WIFI_CONNECTED}
    ensures status == WIFI_DISABLED <==> !wifiEnabled
    ensures status == WIFI_CONNECTED <==> wifiEnabled && wifiConnected
  {
    if !wifiEnabled then WIFI_DISABLED
    else if !wifiConnected then WIFI_NO_CONNECTION
    else WIFI_CONNECTED
  }

  /**
   * filterForNearby: searches the set and returns the first nearby node the
   * iteration meets, or None for a null, empty or all-remote set.
   */
  method FilterForNearby(nodes: Option<set<Node>>) returns (r: Option<Node>)
    ensures r.Some? ==> nodes.Some? && r.value in nodes.value && r.value.isNearby
    ensures r.None? <==> nodes.None? || forall n :: n in nodes.value ==> !n.isNearby
  {
    if nodes.None? || nodes.value == {} {
      return None;
    }
    var remaining := nodes.value;
    while remaining != {}
      invariant remaining <= nodes.value
      invariant forall n :: n in nodes.value && n !in remaining ==> !n.isNearby
      decreases |remaining|
    {
      var n :| n in remaining;
      if n.isNearby {
        return Some(n);
      }
      remaining := remaining - {n};
    }
    return None;
  }

  /** assertNotNull: the argument itself, or a NullPointerException. */
  function AssertNotNull<T>(x: Option<T>): (r: Result<T>)
    ensures r.Ok? <==> x.Some?
    ensures r.Ok? ==> r.value == x.value
    ensures r.Err? ==> r.error == NullPointer
  {
    if x.Some? then Ok(x.value) else Err(NullPointer)
  }

  /** assertNotEmpty: an IllegalArgumentException exactly for a null or empty string. */
  function AssertNotEmpty(s: Option<string>): (r: Outcome)
    ensures r.Fail? <==> s.None? || |s.value| == 0
    ensures r.Fail? ==> r.error == IllegalArgument
  {
    if IsEmpty(s) then Fail(IllegalArgument) else Pass
  }

  /** assertUiThread, given whether the calling thread is the main looper's. */
  function AssertUiThread(onUiThread: bool): (r: Outcome)
    ensures r.Fail? <==> !onUiThread
    ensures r.Fail? ==> r.error == IllegalState
  {
    if !onUiThread then Fail(IllegalState) else Pass
  }

  /** assertNonUiThread, given whether the calling thread is the main looper's. */
  function AssertNonUiThread(onUiThread: bool): (r: Outcome)
    ensures r.Fail? <==> onUiThread
    ensures r.Fail? ==> r.error == IllegalState
  {
    if onUiThread then Fail(IllegalState) else Pass
  }

  /** On any thread exactly one of the two thread assertions throws. */
  lemma ExactlyOneThreadAssertFails(onUiThread: bool)
    ensures AssertUiThread(onUiThread).Fail? != AssertNonUiThread(onUiThread).Fail?
    ensures AssertUiThread(onUiThread).Fail? ==> AssertUiThread(onUiThread).error == IllegalState
    ensures AssertNonUiThread(onUiThread).Fail? ==> AssertNonUiThread(onUiThread).error == IllegalState
  {
  }
}
