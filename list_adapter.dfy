/**
 * SelectableWearableListAdapter: the rows of the selectable list. What is
 * modelled is which icon a row's circle shows; text views and inflation are
 * left to the platform.
 */
module ListAdapter {
  import opened Wrappers
  import opened ListConfig

  /**
   * R.drawable.wcl_list_default_checked_icon. The generated resource id is
   * not known here; all that matters is that it is a real id, not NO_SELECTION.
   */
  const DEFAULT_CHECKED_ICON_RES: int := 0x7f02_0000

  /** The icon before the checked state is applied: the single icon, else the row's own icon, else none (0). */
  function BaseIcon(iconResourceId: int, iconResourceIds: Option<seq<int>>, position: int): (r: Result<int>)
    ensures iconResourceId != NO_SELECTION ==> r == Ok(iconResourceId)
    ensures iconResourceId == NO_SELECTION && iconResourceIds.None? ==> r == Ok(0)
    ensures iconResourceId == NO_SELECTION && iconResourceIds.Some? ==>
      if 0 <= position < |iconResourceIds.value| then r == Ok(iconResourceIds.value[position]) else r == Err(IndexOutOfBounds)
  {
    if iconResourceId != NO_SELECTION then Ok(iconResourceId)
    else if iconResourceIds.Some? then
      if 0 <= position < |iconResourceIds.value| then Ok(iconResourceIds.value[position]) else Err(IndexOutOfBounds)
    else Ok(0)
  }

  /**
   * onBindViewHolder's icon for row `position`: the row must exist, then the
   * base icon, replaced by the checked icon on the checked row of a checkable
   * list.
   */
  function RowIcon(dataSize: nat, iconResourceId: int, iconResourceIds: Option<seq<int>>,
                   checkable: bool, checkedPosition: int, checkedIcon: int, position: int): (r: Result<int>)
    ensures !(0 <= position < dataSize) ==> r == Err(IndexOutOfBounds)
    ensures 0 <= position < dataSize && BaseIcon(iconResourceId, iconResourceIds, position).Err? ==> r.Err?
    ensures 0 <= position < dataSize && BaseIcon(iconResourceId, iconResourceIds, position).Ok? ==>
      r == Ok(if checkable && position == checkedPosition then checkedIcon
              else BaseIcon(iconResourceId, iconResourceIds, position).value)
  {
    if !(0 <= position < dataSize) then Err(IndexOutOfBounds)
    else
      var base := BaseIcon(iconResourceId, iconResourceIds, position);
      if base.Err? then base
      else if checkable && position == checkedPosition then Ok(checkedIcon)
      else base
  }

  /**
   * A checked position outside the rows (NO_SELECTION among them) checks no
   * row: every row shows its base icon.
   */
  lemma NoRowCheckedOutOfRange(dataSize: nat, iconResourceId: int, iconResourceIds: Option<seq<int>>,
                               checkable: bool, checkedPosition: int, checkedIcon: int, position: int)
    requires !(0 <= checkedPosition < dataSize)
    ensures RowIcon(dataSize, iconResourceId, iconResourceIds, checkable, checkedPosition, checkedIcon, position)
      == if 0 <= position < dataSize then BaseIcon(iconResourceId, iconResourceIds, position) else Err(IndexOutOfBounds)
  {
  }

  /** A list that is not checkable shows no checked icon anywhere. */
  lemma NotCheckableShowsBase(dataSize: nat, iconResourceId: int, iconResourceIds: Option<seq<int>>,
                              checkedPosition: int, checkedIcon: int, position: int)
    requires 0 <= position < dataSize
    ensures RowIcon(dataSize, iconResourceId, iconResourceIds, false, checkedPosition, checkedIcon, position)
      == BaseIcon(iconResourceId, iconResourceIds, position)
  {
  }

  /** setChecked: NO_SELECTION asks for the default checked icon; any other id is kept. */
  function CheckedIconFor(checkedResourceId: int): (icon: int)
    ensures icon != NO_SELECTION
    ensures checkedResourceId != NO_SELECTION ==> icon == checkedResourceId
  {
    if checkedResourceId == NO_SELECTION then DEFAULT_CHECKED_ICON_RES else checkedResourceId
  }

  class SelectableWearableListAdapter {
    const dataSet: seq<string>
    const iconResourceId: int
    const iconResourceIds: Option<seq<int>>
    var checkedPosition: int
    var checkedIconResourceId: int
    var checkable: bool

    constructor (dataSet: seq<string>, iconResourceId: int, iconResourceIds: Option<seq<int>>)
      ensures this.dataSet == dataSet && this.iconResourceId == iconResourceId && this.iconResourceIds == iconResourceIds
      ensures checkedPosition == NO_SELECTION && checkedIconResourceId == 0 && !checkable
    {
      this.dataSet := dataSet;
      this.iconResourceId := iconResourceId;
      this.iconResourceIds := iconResourceIds;
      checkedPosition := NO_SELECTION;
      checkedIconResourceId := 0;
      checkable := false;
    }

    /** The single-icon constructor: a missing data set is a NullPointerException. */
    static method WithIcon(dataSet: Option<seq<string>>, centerIconResId: int) returns (r: Result<SelectableWearableListAdapter>)
      ensures dataSet.None? ==> r == Err(NullPointer)
      ensures dataSet.Some? ==> r.Ok? && fresh(r.value) && r.value.dataSet == dataSet.value
      ensures dataSet.Some? ==> r.value.iconResourceId == centerIconResId && r.value.iconResourceIds.None?
      ensures dataSet.Some? ==> r.value.checkedPosition == NO_SELECTION && !r.value.checkable
    {
      if dataSet.None? {
        return Err(NullPointer);
      }
      var a := new SelectableWearableListAdapter(dataSet.value, centerIconResId, None);
      r := Ok(a);
    }

    /** The icon-array constructor: a missing data set is a NullPointerException; the single icon is NO_SELECTION. */
    static method WithIcons(dataSet: Option<seq<string>>, centerIconResIds: Option<seq<int>>) returns (r: Result<SelectableWearableListAdapter>)
      ensures dataSet.None? ==> r == Err(NullPointer)
      ensures dataSet.Some? ==> r.Ok? && fresh(r.value) && r.value.dataSet == dataSet.value
      ensures dataSet.Some? ==> r.value.iconResourceId == NO_SELECTION && r.value.iconResourceIds == centerIconResIds
      ensures dataSet.Some? ==> r.value.checkedPosition == NO_SELECTION && !r.value.checkable
    {
      if dataSet.None? {
        return Err(NullPointer);
      }
      var a := new SelectableWearableListAdapter(dataSet.value, NO_SELECTION, centerIconResIds);
      r := Ok(a);
    }

    method SetChecked(checkedPosition: int, checkedResourceId: int)
      modifies this`checkedPosition, this`checkedIconResourceId
      ensures this.checkedPosition == checkedPosition && checkedIconResourceId == CheckedIconFor(checkedResourceId)
    {
      this.checkedPosition := checkedPosition;
      checkedIconResourceId := checkedResourceId;
      if checkedIconResourceId == NO_SELECTION {
        checkedIconResourceId := DEFAULT_CHECKED_ICON_RES;
      }
    }

    method SetCheckable(checkable: bool)
      modifies this`checkable
      ensures this.checkable == checkable
    {
      this.checkable := checkable;
    }

    /** getItemCount: one row per data item. */
    function ItemCount(): (n: nat)
      reads this
      ensures n == |dataSet|
    {
      |dataSet|
    }

    /**
     * The icon row `position` shows: no such row is an error; the checked row
     * of a checkable list shows the checked icon; every other row its base icon.
     */
    function Icon(position: int): (r: Result<int>)
      reads this
      ensures !(0 <= position < |dataSet|) ==> r == Err(IndexOutOfBounds)
      ensures 0 <= position < |dataSet| && checkable && position == checkedPosition && r.Ok? ==> r.value == checkedIconResourceId
      ensures 0 <= position < |dataSet| && !(checkable && position == checkedPosition) ==>
        r == BaseIcon(iconResourceId, iconResourceIds, position)
    {
      RowIcon(|dataSet|, iconResourceId, iconResourceIds, checkable, checkedPosition, checkedIconResourceId, position)
    }
  }
}
