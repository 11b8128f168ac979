/**
 * The channel paths that carry a file transfer's parameters from sender to
 * receiver, and the receiver's decoders for them.
 *
 * A file path is `PATH_FILE_TRANSFER + encode(name) + "/" + size + "/" + requestId`;
 * a stream path is `PATH_STREAM_TRANSFER + requestId`.
 */
module TransferRoutes {
  import opened Wrappers
  import opened JavaStrings
  import opened Constants
  import FormCodec

  const PARAM_NAME := "name"
  const PARAM_SIZE := "size"
  const PARAM_REQUEST_ID := "request-id"
  const PATH_SEPARATOR: char := '/'

  /** The parameters a file path carries; the size is still text. */
  datatype FileParams = FileParams(name: string, size: string, requestId: string)

  /** WearFileTransfer.buildPath */
  function BuildPath(name: string, requestId: string, size: int): (path: string)
    ensures StartsWith(path, PATH_FILE_TRANSFER)
  {
    PATH_FILE_TRANSFER + FormCodec.Encode(name) + [PATH_SEPARATOR] + LongText(size) + [PATH_SEPARATOR] + requestId
  }

  /** The path requestOutputStream opens its channel on. */
  function StreamPath(requestId: string): (path: string)
    ensures StartsWith(path, PATH_STREAM_TRANSFER) && path[|PATH_STREAM_TRANSFER|..] == requestId
  {
    PATH_STREAM_TRANSFER + requestId
  }

  /**
   * WearManager.getFileTransferParams: strips every occurrence of the file
   * prefix, splits on `/`, decodes the first piece and takes the next two.
   */
  function GetFileTransferParams(path: string): (r: Result<FileParams>)
    ensures !StartsWith(path, PATH_FILE_TRANSFER) ==> r == Err(IllegalArgument)
  {
    if !StartsWith(path, PATH_FILE_TRANSFER) then Err(IllegalArgument)
    else
      var pieces := Split(Replace(path, PATH_FILE_TRANSFER, ""), PATH_SEPARATOR);
      if |pieces| == 0 then Err(IndexOutOfBounds)
      else match FormCodec.Decode(pieces[0])
        case None => Err(IllegalArgument)
        case Some(name) =>
          if |pieces| < 3 then Err(IndexOutOfBounds)
          else Ok(FileParams(name, pieces[1], pieces[2]))
  }

  /**
   * WearManager.getStreamTransferParams as written: it checks for the stream
   * prefix but strips the FILE prefix, so the stream prefix stays in place.
   */
  function GetStreamTransferParams(path: string): (r: Result<string>)
    ensures !StartsWith(path, PATH_STREAM_TRANSFER) ==> r == Err(IllegalArgument)
  {
    if !StartsWith(path, PATH_STREAM_TRANSFER) then Err(IllegalArgument)
    else
      var pieces := Split(Replace(path, PATH_FILE_TRANSFER, ""), PATH_SEPARATOR);
      if |pieces| == 0 then Err(IndexOutOfBounds) else Ok(pieces[0])
  }

  /** The stream decoder as evidently intended: it strips the stream prefix it checked for. */
  function GetStreamTransferParamsFixed(path: string): (r: Result<string>)
    ensures !StartsWith(path, PATH_STREAM_TRANSFER) ==> r == Err(IllegalArgument)
  {
    if !StartsWith(path, PATH_STREAM_TRANSFER) then Err(IllegalArgument)
    else
      var pieces := Split(Replace(path, PATH_STREAM_TRANSFER, ""), PATH_SEPARATOR);
      if |pieces| == 0 then Err(IndexOutOfBounds) else Ok(pieces[0])
  }

  lemma FilePrefixSlashes()
    ensures |PATH_FILE_TRANSFER| == 37
    ensures PATH_FILE_TRANSFER[0] == '/' && PATH_FILE_TRANSFER[22] == '/' && PATH_FILE_TRANSFER[31] == '/'
  {
  }

  /** A string with at most two slashes, at a and b, holds no copy of the file prefix. */
  lemma NoFilePrefixIn(s: string, a: int, b: int)
    requires forall j :: 0 <= j < |s| && s[j] == '/' ==> j == a || j == b
    ensures forall i :: 0 <= i <= |s| - |PATH_FILE_TRANSFER| ==> !OccursAt(s, PATH_FILE_TRANSFER, i)
  {
    FilePrefixSlashes();
    forall i | 0 <= i <= |s| - |PATH_FILE_TRANSFER| ensures !OccursAt(s, PATH_FILE_TRANSFER, i) {
      var w := s[i..i + 37];
      assert w[0] == s[i] && w[22] == s[i + 22] && w[31] == s[i + 31];
      assert s[i] != '/' || s[i + 22] != '/' || s[i + 31] != '/';
    }
  }

  /** Slashes of `x + "/" + y + "/" + z` when none of the parts has one. */
  lemma TwoSlashes(x: string, y: string, z: string)
    requires '/' !in x && '/' !in y && '/' !in z
    ensures var s := x + "/" + y + "/" + z;
      forall j :: 0 <= j < |s| && s[j] == '/' ==> j == |x| || j == |x| + 1 + |y|
  {
    var s := x + "/" + y + "/" + z;
    forall j | 0 <= j < |s|
      ensures j < |x| ==> s[j] == x[j]
      ensures |x| < j < |x| + 1 + |y| ==> s[j] == y[j - |x| - 1]
      ensures j > |x| + 1 + |y| ==> s[j] == z[j - |x| - 2 - |y|]
    {
    }
  }

  /** Stripping the file prefix from a built path leaves the three encoded parts and their separators. */
  lemma FileRouteStripped(name: string, requestId: string, size: int)
    requires '/' !in requestId
    ensures var enc, txt := FormCodec.Encode(name), LongText(size);
      Replace(BuildPath(name, requestId, size), PATH_FILE_TRANSFER, "") == enc + "/" + txt + "/" + requestId
    ensures '/' !in FormCodec.Encode(name) && '/' !in LongText(size)
  {
    var enc := FormCodec.Encode(name);
    var txt := LongText(size);
    var rest := enc + "/" + txt + "/" + requestId;
    assert BuildPath(name, requestId, size) == PATH_FILE_TRANSFER + rest;
    FormCodec.EncodeHasNoSlash(name);
    LongTextHasNoSlash(size);
    TwoSlashes(enc, txt, requestId);
    NoFilePrefixIn(rest, |enc|, |enc| + 1 + |txt|);
    ReplaceLeading(PATH_FILE_TRANSFER, rest, "");
    ReplaceAbsent(rest, PATH_FILE_TRANSFER, "");
    assert "" + rest == rest;
  }

  /**
   * The receiver recovers exactly what the sender encoded: the original name,
   * the size text and the request id, for every name of Unicode scalar values
   * and every size, when the request id is non-empty and has no `/`.
   */
  lemma FileRouteRoundTrip(name: string, requestId: string, size: int)
    requires requestId != [] && '/' !in requestId
    ensures GetFileTransferParams(BuildPath(name, requestId, size)) == Ok(FileParams(name, LongText(size), requestId))
  {
    var enc := FormCodec.Encode(name);
    var txt := LongText(size);
    FileRouteStripped(name, requestId, size);
    SplitThree(enc, txt, requestId, '/');
    var pieces := Split(Replace(BuildPath(name, requestId, size), PATH_FILE_TRANSFER, ""), '/');
    assert pieces == [enc, txt, requestId];
    FormCodec.DecodeEncode(name);
  }

  /** The size the receiver parses back is the size the sender wrote. */
  lemma FileRouteSizeRoundTrip(name: string, requestId: string, size: int)
    requires requestId != [] && '/' !in requestId && IsLong(size)
    ensures GetFileTransferParams(BuildPath(name, requestId, size)).Ok?
    ensures ParseLong(GetFileTransferParams(BuildPath(name, requestId, size)).value.size) == Ok(size)
  {
    FileRouteRoundTrip(name, requestId, size);
    LongTextRoundTrip(size);
  }

  /** Two slash-free pieces and a trailing separator split into the two pieces. */
  lemma SplitTrailingSeparator(a: string, b: string)
    requires '/' !in a && '/' !in b && b != []
    ensures Split(a + "/" + b + "/", '/') == [a, b]
  {
    var s := a + "/" + b + "/";
    assert s == a + ['/'] + (b + ['/'] + []);
    assert s[|a|] == '/';
    SplitAllFirst(a, '/', b + ['/'] + []);
    SplitAllFirst(b, '/', []);
    var all := SplitAll(s, '/');
    assert all == [a, b, []];
    assert all[..|all| - 1] == [a, b];
    assert StripTrailingEmpty(all) == StripTrailingEmpty([a, b]);
    assert '/' in s;
  }

  /** An empty request id leaves a trailing empty piece, which split drops: pieces[2] is out of bounds. */
  lemma FileRouteEmptyRequestId(name: string, size: int)
    ensures GetFileTransferParams(BuildPath(name, "", size)) == Err(IndexOutOfBounds)
  {
    var enc := FormCodec.Encode(name);
    var txt := LongText(size);
    FileRouteStripped(name, "", size);
    assert enc + "/" + txt + "/" + "" == enc + "/" + txt + "/";
    SplitTrailingSeparator(enc, txt);
    FormCodec.DecodeEncode(name);
  }

  lemma StreamPrefixFacts()
    ensures |PATH_STREAM_TRANSFER| == 39
    ensures PATH_STREAM_TRANSFER[0] == '/' && PATH_STREAM_TRANSFER[1] == 'c' && PATH_STREAM_TRANSFER[32] == 's'
    ensures PATH_FILE_TRANSFER[32] == 'f' && PATH_FILE_TRANSFER[0] == '/'
  {
  }

  /**
   * As written, the stream decoder yields the empty string as the request id
   * for every path it accepts: the kept leading `/` makes the first piece empty.
   */
  lemma StreamRequestIdAlwaysEmpty(path: string)
    requires StartsWith(path, PATH_STREAM_TRANSFER)
    ensures GetStreamTransferParams(path) == Ok("")
  {
    StreamPrefixFacts();
    assert path[..39] == PATH_STREAM_TRANSFER;
    assert path[0] == '/' && path[1] == 'c' && path[32] == 's';
    assert path[..37][32] == 's';
    assert path[..37] != PATH_FILE_TRANSFER;
    var t := PATH_FILE_TRANSFER;
    assert Replace(path, t, "") == [path[0]] + Replace(path[1..], t, "");
    ReplaceKeepsHead(path[1..], t, "");
    var x := Replace(path[2..], t, "");
    assert path[1..][1..] == path[2..];
    var replaced := Replace(path, t, "");
    assert replaced == ['/'] + (['c'] + x);
    assert replaced[0] == '/';
    assert '/' in replaced;
    var tail := SplitAll(['c'] + x, '/');
    assert (['/'] + (['c'] + x))[1..] == ['c'] + x;
    assert SplitAll(replaced, '/') == [[]] + tail;
    assert tail[0] == ['c'] + SplitAll(x, '/')[0];
    var all := SplitAll(replaced, '/');
    assert all[1] == tail[0] && all[1] != [];
    StripTrailingKeeps(all, 1);
  }

  /** So the request id a sender puts on a stream path is never the one the receiver reports. */
  lemma StreamRouteLosesRequestId(requestId: string)
    requires requestId != []
    ensures GetStreamTransferParams(StreamPath(requestId)) != Ok(requestId)
  {
    StreamRequestIdAlwaysEmpty(StreamPath(requestId));
  }

  /** With the stream prefix stripped, a slash-free request id comes back unchanged. */
  lemma StreamRouteRoundTrip(requestId: string)
    requires '/' !in requestId
    ensures GetStreamTransferParamsFixed(StreamPath(requestId)) == Ok(requestId)
  {
    StreamPrefixFacts();
    var s := PATH_STREAM_TRANSFER;
    assert StreamPath(requestId) == s + requestId;
    ReplaceLeading(s, requestId, "");
    forall i | 0 <= i <= |requestId| - |s| ensures !OccursAt(requestId, s, i) {
      assert requestId[i..i + |s|][0] == requestId[i];
      assert requestId[i] != '/';
    }
    ReplaceAbsent(requestId, s, "");
    assert "" + requestId == requestId;
  }
}
