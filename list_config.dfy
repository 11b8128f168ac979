/**
 * WearableListConfig: the settings of the selectable list activity, kept in a
 * Bundle so that they can travel between activities, and WearableListResult,
 * the choice the activity hands back in its result intent.
 */
module ListConfig {
  import opened Wrappers
  import opened Platform
  import opened Constants

  const KEY_DATA_ARRAY := "data-array"
  const KEY_ICON_RES_ID := "icon-res-id"
  const KEY_ICON_RES_IDS := "icon-res-ids"
  const KEY_REQUEST_CODE := "request-code"
  const KEY_CHECKABLE := "checkable"
  const KEY_CHECKED_ICON_RES_ID := "checked-res-id"
  const KEY_CHECKED_INDEX := "checked-index"
  const KEY_AMBIENT := "ambient"
  const KEY_HEADER := "header"

  const NO_SELECTION: int := -1

  /** A built configuration; the bundle passed `Validate`. */
  datatype WearableListConfig = WearableListConfig(bundle: Bundle)

  /** validate: the data array must be present, and an icon array must be as long as it. */
  function Validate(b: Bundle): (r: Result<Bundle>)
    ensures BundleStringArray(b, KEY_DATA_ARRAY).None? ==> r == Err(NullPointer)
    ensures BundleStringArray(b, KEY_DATA_ARRAY).Some? ==> (r.Ok? <==> IconsMatch(b))
    ensures r.Ok? ==> r.value == b
    ensures r.Err? && BundleStringArray(b, KEY_DATA_ARRAY).Some? ==> r.error == IllegalArgument
  {
    var data := BundleStringArray(b, KEY_DATA_ARRAY);
    var icons := BundleIntArray(b, KEY_ICON_RES_IDS);
    if data.None? then Err(NullPointer)
    else if icons.Some? && |icons.value| != |data.value| then Err(IllegalArgument)
    else Ok(b)
  }

  /** No icon array, or one icon per data item. */
  predicate IconsMatch(b: Bundle) {
    var icons := BundleIntArray(b, KEY_ICON_RES_IDS);
    icons.Some? ==> BundleStringArray(b, KEY_DATA_ARRAY).Some? && |icons.value| == |BundleStringArray(b, KEY_DATA_ARRAY).value|
  }

  predicate Valid(c: WearableListConfig) {
    Validate(c.bundle).Ok?
  }

  // The getters, each with its default for a missing entry.

  function DataArray(c: WearableListConfig): Option<seq<string>> { BundleStringArray(c.bundle, KEY_DATA_ARRAY) }
  function CheckedIconResId(c: WearableListConfig): int { BundleInt(c.bundle, KEY_CHECKED_ICON_RES_ID, NO_SELECTION) }
  function IconResId(c: WearableListConfig): int { BundleInt(c.bundle, KEY_ICON_RES_ID, NO_SELECTION) }
  function IconResIds(c: WearableListConfig): Option<seq<int>> { BundleIntArray(c.bundle, KEY_ICON_RES_IDS) }
  function CheckedIndex(c: WearableListConfig): int { BundleInt(c.bundle, KEY_CHECKED_INDEX, NO_SELECTION) }
  function RequestCode(c: WearableListConfig): int { BundleInt(c.bundle, KEY_REQUEST_CODE, 0) }
  function IsCheckable(c: WearableListConfig): bool { BundleBool(c.bundle, KEY_CHECKABLE, false) }
  function IsAmbient(c: WearableListConfig): bool { BundleBool(c.bundle, KEY_AMBIENT, false) }
  function Header(c: WearableListConfig): Option<string> { BundleString(c.bundle, KEY_HEADER) }

  /** Two configurations no getter can tell apart. */
  predicate SameView(c: WearableListConfig, d: WearableListConfig) {
    && DataArray(c) == DataArray(d)
    && CheckedIconResId(c) == CheckedIconResId(d)
    && IconResId(c) == IconResId(d)
    && IconResIds(c) == IconResIds(d)
    && CheckedIndex(c) == CheckedIndex(d)
    && RequestCode(c) == RequestCode(d)
    && IsCheckable(c) == IsCheckable(d)
    && IsAmbient(c) == IsAmbient(d)
    && Header(c) == Header(d)
  }

  /** The bundle of a new Builder: only the data array, null when the data is. */
  function DataOnly(data: Option<seq<string>>): (b: Bundle)
    ensures BundleStringArray(b, KEY_DATA_ARRAY) == data
  {
    map[KEY_DATA_ARRAY := if data.Some? then BStringArray(data.value) else BNull]
  }

  /** A configuration with nothing but data reads every other getter's default. */
  lemma DataOnlyDefaults(data: seq<string>)
    ensures var c := WearableListConfig(DataOnly(Some(data)));
      && Valid(c) && DataArray(c) == Some(data)
      && CheckedIconResId(c) == NO_SELECTION && IconResId(c) == NO_SELECTION && CheckedIndex(c) == NO_SELECTION
      && IconResIds(c).None? && RequestCode(c) == 0 && !IsCheckable(c) && !IsAmbient(c) && Header(c).None?
  {
  }

  /**
   * Each getter reads back what its setter stored, whatever the bundle held
   * before; the data array is left as it was.
   */
  lemma ReadsWhatWasSet(b: Bundle, checkedIcon: int, checkedIndex: int, icon: int, icons: Option<seq<int>>,
                        requestCode: int, checkable: bool, ambient: bool, header: Option<string>)
    ensures var c := WearableListConfig(PutBundleString(
      b[KEY_CHECKED_ICON_RES_ID := BInt(checkedIcon)]
       [KEY_CHECKED_INDEX := BInt(checkedIndex)]
       [KEY_ICON_RES_ID := BInt(icon)]
       [KEY_ICON_RES_IDS := if icons.Some? then BIntArray(icons.value) else BNull]
       [KEY_REQUEST_CODE := BInt(requestCode)]
       [KEY_CHECKABLE := BBool(checkable)]
       [KEY_AMBIENT := BBool(ambient)],
      KEY_HEADER, header));
      && CheckedIconResId(c) == checkedIcon && CheckedIndex(c) == checkedIndex && IconResId(c) == icon
      && IconResIds(c) == icons && RequestCode(c) == requestCode && IsCheckable(c) == checkable
      && IsAmbient(c) == ambient && Header(c) == header
      && DataArray(c) == BundleStringArray(b, KEY_DATA_ARRAY)
  {
  }

  /** WearableListConfig.Builder: each setter stores one entry. */
  class Builder {
    var bundle: Bundle

    constructor (data: Option<seq<string>>)
      ensures bundle == DataOnly(data)
    {
      bundle := DataOnly(data);
    }

    method SetCheckedIcon(resId: int)
      modifies this
      ensures bundle == old(bundle)[KEY_CHECKED_ICON_RES_ID := BInt(resId)]
    {
      bundle := bundle[KEY_CHECKED_ICON_RES_ID := BInt(resId)];
    }

    method SetCheckedIndex(index: int)
      modifies this
      ensures bundle == old(bundle)[KEY_CHECKED_INDEX := BInt(index)]
    {
      bundle := bundle[KEY_CHECKED_INDEX := BInt(index)];
    }

    method SetIcon(resId: int)
      modifies this
      ensures bundle == old(bundle)[KEY_ICON_RES_ID := BInt(resId)]
    {
      bundle := bundle[KEY_ICON_RES_ID := BInt(resId)];
    }

    /** setIcons: a copy of the array, or null. */
    method SetIcons(resIds: Option<seq<int>>)
      modifies this
      ensures bundle == old(bundle)[KEY_ICON_RES_IDS := if resIds.Some? then BIntArray(resIds.value) else BNull]
    {
      bundle := bundle[KEY_ICON_RES_IDS := if resIds.Some? then BIntArray(resIds.value) else BNull];
    }

    method SetRequestCode(requestCode: int)
      modifies this
      ensures bundle == old(bundle)[KEY_REQUEST_CODE := BInt(requestCode)]
    {
      bundle := bundle[KEY_REQUEST_CODE := BInt(requestCode)];
    }

    method SetCheckable(checkable: bool)
      modifies this
      ensures bundle == old(bundle)[KEY_CHECKABLE := BBool(checkable)]
    {
      bundle := bundle[KEY_CHECKABLE := BBool(checkable)];
    }

    method SetAmbient(ambient: bool)
      modifies this
      ensures bundle == old(bundle)[KEY_AMBIENT := BBool(ambient)]
    {
      bundle := bundle[KEY_AMBIENT := BBool(ambient)];
    }

    method SetHeader(header: Option<string>)
      modifies this
      ensures bundle == PutBundleString(old(bundle), KEY_HEADER, header)
    {
      bundle := PutBundleString(bundle, KEY_HEADER, header);
    }

    /** build(): the configuration over the validated bundle. */
    method Build() returns (r: Result<WearableListConfig>)
      ensures Validate(bundle).Err? ==> r == Err(Validate(bundle).error)
      ensures Validate(bundle).Ok? ==> r == Ok(WearableListConfig(bundle)) && Valid(r.value)
    {
      var v := Validate(bundle);
      if v.Err? {
        return Err(v.error);
      }
      r := Ok(WearableListConfig(v.value));
    }
  }

  /** toBundle: a copy of the bundle; a later change to the copy leaves the configuration as it was. */
  function ToBundle(c: WearableListConfig): (b: Bundle)
    ensures WearableListConfig(b) == c
  {
    c.bundle
  }

  /** The bundle fromBundle's Builder ends up with: every getter's value written back under its key. */
  function Rebuilt(c: WearableListConfig): Bundle {
    PutBundleString(
      DataOnly(DataArray(c))
        [KEY_CHECKED_ICON_RES_ID := BInt(CheckedIconResId(c))]
        [KEY_CHECKED_INDEX := BInt(CheckedIndex(c))]
        [KEY_ICON_RES_ID := BInt(IconResId(c))]
        [KEY_ICON_RES_IDS := if IconResIds(c).Some? then BIntArray(IconResIds(c).value) else BNull]
        [KEY_REQUEST_CODE := BInt(RequestCode(c))]
        [KEY_CHECKABLE := BBool(IsCheckable(c))]
        [KEY_AMBIENT := BBool(IsAmbient(c))],
      KEY_HEADER, Header(c))
  }

  /** Writing every getter's value back gives a bundle that validates alike and reads alike. */
  lemma RebuiltReadsAlike(c: WearableListConfig)
    ensures SameView(c, WearableListConfig(Rebuilt(c)))
    ensures Validate(Rebuilt(c)) == if Validate(c.bundle).Ok? then Ok(Rebuilt(c)) else Err(Validate(c.bundle).error)
  {
    var r := Rebuilt(c);
    assert r[KEY_DATA_ARRAY] == (if DataArray(c).Some? then BStringArray(DataArray(c).value) else BNull);
    assert r[KEY_ICON_RES_IDS] == (if IconResIds(c).Some? then BIntArray(IconResIds(c).value) else BNull);
    assert r[KEY_HEADER] == (if Header(c).Some? then BString(Header(c).value) else BNull);
  }

  /**
   * fromBundle: a new Builder fed with every getter's value read from the
   * bundle. It is built exactly when the bundle itself validates, and the
   * result reads as the bundle does through every getter.
   */
  method FromBundle(b: Option<Bundle>) returns (r: Result<WearableListConfig>)
    ensures b.None? ==> r == Err(NullPointer)
    ensures b.Some? ==> r.Ok? == Validate(b.value).Ok?
    ensures b.Some? && r.Err? ==> r.error == Validate(b.value).error
    ensures r.Ok? ==> Valid(r.value) && SameView(WearableListConfig(b.value), r.value)
  {
    if b.None? {
      return Err(NullPointer);
    }
    var c := WearableListConfig(b.value);
    var builder := new Builder(DataArray(c));
    builder.SetCheckedIcon(CheckedIconResId(c));
    builder.SetCheckedIndex(CheckedIndex(c));
    builder.SetIcon(IconResId(c));
    builder.SetIcons(IconResIds(c));
    builder.SetRequestCode(RequestCode(c));
    builder.SetCheckable(IsCheckable(c));
    builder.SetAmbient(IsAmbient(c));
    builder.SetHeader(Header(c));
    assert builder.bundle == Rebuilt(c);
    RebuiltReadsAlike(c);
    r := builder.Build();
  }

  /** What the list activity returns: the chosen row, its text and whether it came from the list at all. */
  datatype WearableListResult = WearableListResult(selectedIndex: int, selectedValue: Option<string>, handled: bool)

  /**
   * WearableListResult(intent, requestCode): only an intent whose request
   * code (-1 when missing) matches is read; anything else is unhandled with
   * no selection.
   */
  function ParseResult(intent: Option<Bundle>, requestCode: int): (r: WearableListResult)
    ensures intent.None? ==> r == WearableListResult(NO_SELECTION, None, false)
    ensures intent.Some? && BundleInt(intent.value, KEY_LIST_REQUEST_CODE, -1) != requestCode ==>
      r == WearableListResult(NO_SELECTION, None, false)
  {
    if intent.Some? && BundleInt(intent.value, KEY_LIST_REQUEST_CODE, -1) == requestCode then
      var extras := intent.value;
      WearableListResult(BundleInt(extras, KEY_LIST_RESPONSE_POSITION, NO_SELECTION),
                         BundleString(extras, KEY_LIST_RESPONSE_VALUE),
                         BundleBool(extras, KEY_LIST_RESPONSE_HANDLED, false))
    else WearableListResult(NO_SELECTION, None, false)
  }

  /** The result intent of WclWearableListViewActivity.onItemClicked. */
  function ItemClickedIntent(position: int, value: Option<string>, requestCode: int): (extras: Bundle)
    ensures BundleInt(extras, KEY_LIST_REQUEST_CODE, -1) == requestCode
  {
    PutBundleString(map[], KEY_LIST_RESPONSE_VALUE, value)
      [KEY_LIST_RESPONSE_POSITION := BInt(position)]
      [KEY_LIST_RESPONSE_HANDLED := BBool(true)]
      [KEY_LIST_REQUEST_CODE := BInt(requestCode)]
  }

  /** A clicked row read back with the same request code is handled, with that position and value. */
  lemma ItemClickedRoundTrip(position: int, value: Option<string>, requestCode: int)
    ensures ParseResult(Some(ItemClickedIntent(position, value, requestCode)), requestCode)
      == WearableListResult(position, value, true)
  {
  }

  /** Read back with any other request code, the same intent is unhandled. */
  lemma ItemClickedOtherRequest(position: int, value: Option<string>, requestCode: int, other: int)
    requires other != requestCode
    ensures ParseResult(Some(ItemClickedIntent(position, value, requestCode)), other)
      == WearableListResult(NO_SELECTION, None, false)
  {
  }
}
