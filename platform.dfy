/**
 * The Android and Play services value types the library handles. Each is
 * modelled by what the library reads from it; none of the platform's
 * behaviour beyond that is modelled.
 */
module Platform {
  import opened Wrappers

  /** A device of the Wear network as the transport reports it. */
  datatype Node = Node(id: string, displayName: string, isNearby: bool)

  /** An open channel: the transport's handle, its peer and its path. */
  datatype Channel = Channel(token: nat, nodeId: string, path: string)

  /** A file of the application's storage. */
  datatype FileRef = FileRef(directory: string, name: string)

  /** A byte stream the transport handed out. */
  datatype StreamRef = StreamRef(token: nat)

  /** A transport status: its code and what `isSuccess()` answered for it. */
  datatype TransportStatus = TransportStatus(code: int, success: bool)

  /** WearableStatusCodes.SUCCESS */
  const STATUS_SUCCESS: int := 0

  /** The values an Android Bundle (or Intent extras) can hold here. */
  datatype BundleValue =
    | BString(s: string)
    | BInt(i: int)
    | BBool(b: bool)
    | BStringArray(strings: seq<string>)
    | BIntArray(ints: seq<int>)
    | BNull

  type Bundle = map<string, BundleValue>

  // Bundle getters: a missing key or a value of another type gives the default.

  function BundleInt(b: Bundle, key: string, default: int): int
  {
    if key in b && b[key].BInt? then b[key].i else default
  }

  function BundleBool(b: Bundle, key: string, default: bool): bool
  {
    if key in b && b[key].BBool? then b[key].b else default
  }

  function BundleString(b: Bundle, key: string): Option<string>
  {
    if key in b && b[key].BString? then Some(b[key].s) else None
  }

  function BundleStringArray(b: Bundle, key: string): Option<seq<string>>
  {
    if key in b && b[key].BStringArray? then Some(b[key].strings) else None
  }

  function BundleIntArray(b: Bundle, key: string): Option<seq<int>>
  {
    if key in b && b[key].BIntArray? then Some(b[key].ints) else None
  }

  /** Stores a possibly-null string, as `putString`/`putExtra` do. */
  function PutBundleString(b: Bundle, key: string, v: Option<string>): Bundle
  {
    b[key := if v.Some? then BString(v.value) else BNull]
  }

  /** The values a Wearable DataMap holds here; a nested map is carried as a Bundle. */
  datatype DataValue =
    | DString(s: string)
    | DInt(i: int)
    | DBool(b: bool)
    | DBundle(bundle: Bundle)
    | DNull

  type DataMap = map<string, DataValue>

  function DataString(m: DataMap, key: string): Option<string>
  {
    if key in m && m[key].DString? then Some(m[key].s) else None
  }

  function DataInt(m: DataMap, key: string, default: int): int
  {
    if key in m && m[key].DInt? then m[key].i else default
  }

  function DataBool(m: DataMap, key: string, default: bool): bool
  {
    if key in m && m[key].DBool? then m[key].b else default
  }

  function DataBundle(m: DataMap, key: string): Option<Bundle>
  {
    if key in m && m[key].DBundle? then Some(m[key].bundle) else None
  }

  function PutDataString(m: DataMap, key: string, v: Option<string>): DataMap
  {
    m[key := if v.Some? then DString(v.value) else DNull]
  }

  /** A message as the transport delivers it; `data` is None for a message without payload. */
  datatype MessageEvent = MessageEvent(path: string, sourceNodeId: string, data: Option<DataMap>)

  /** TextUtils.isEmpty: null or of length zero. */
  predicate IsEmpty(s: Option<string>)
  {
    s.None? || s.value == ""
  }

  /** The identity of a registered WearConsumer. */
  class Consumer {
    constructor () {}
  }

  /** The identity of a single-purpose callback object (a result or stream listener). */
  class Listener {
    constructor () {}
  }
}
