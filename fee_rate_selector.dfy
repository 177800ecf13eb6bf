/** The fee-rate picker (src/components/FeeRateSelector.tsx). The selected rate belongs to
    the parent and arrives as an argument; a handler's call of onFeeRateChange is its
    returned `change`. The 60-second poll is a discrete refresh event. */
module FeeRateSelector {
  import opened JsBuiltins
  import opened BitcoinFees

  /** The three preset buttons. */
  datatype Preset = Economy | Medium | Fast

  function TierOf(rates: FeeRates, p: Preset): int
  {
    match p
    case Economy => rates.economyFee
    case Medium => rates.halfHourFee
    case Fast => rates.fastestFee
  }

  /** The selection shows as custom when custom text was typed or it matches no preset. */
  function IsCustom(rates: FeeRates, selected: int, custom: string): (isCustom: bool)
    ensures isCustom <==> custom != "" || forall p :: selected != TierOf(rates, p)
  {
    assert rates.economyFee == TierOf(rates, Economy) && rates.halfHourFee == TierOf(rates, Medium)
           && rates.fastestFee == TierOf(rates, Fast);
    custom != "" || (selected != rates.economyFee && selected != rates.halfHourFee && selected != rates.fastestFee)
  }

  /** A preset button is highlighted when the selection is its tier and not custom. */
  function Highlighted(rates: FeeRates, selected: int, custom: string, p: Preset): (highlighted: bool)
    ensures custom != "" ==> !highlighted
    ensures custom == "" ==> (highlighted <==> selected == TierOf(rates, p))
  {
    selected == TierOf(rates, p) && !IsCustom(rates, selected, custom)
  }

  /** The custom box's text: the typed text, else the selection when it is custom, else ''. */
  function CustomBoxText(rates: FeeRates, selected: int, custom: string): (r: string)
    ensures custom != "" ==> r == custom
    ensures custom == "" && IsCustom(rates, selected, custom) ==> ParseInt(r) == Some(selected)
    ensures custom == "" && !IsCustom(rates, selected, custom) ==> r == ""
  {
    ParseIntOfString(selected);
    if custom != "" then custom else if IsCustom(rates, selected, custom) then IntToString(selected) else ""
  }

  /** The first load's rule: a loaded answer replaces a selection of 0 or 1 by the
      half-hour tier and leaves any other selection alone. */
  function LoadChange(selected: int, rates: Option<FeeRates>): (change: Option<int>)
    ensures change.Some? <==> rates.Some? && (selected == 0 || selected == 1)
    ensures change.Some? ==> change.value == rates.value.halfHourFee
  {
    if rates.Some? && (selected == 0 || selected == 1) then Some(rates.value.halfHourFee) else None
  }

  /** The custom box's onChange: only text that parseInt reads as an integer of at least 1
      changes the selection. */
  function CustomChange(text: string): (change: Option<int>)
    ensures change.Some? <==> ParseInt(text).Some? && ParseInt(text).value >= 1
    ensures change.Some? ==> change == ParseInt(text) && change.value >= 1
  {
    var numValue := ParseInt(text);
    if numValue.Some? && numValue.value >= 1 then numValue else None
  }

  class FeeRateSelector {
    var feeRates: Option<FeeRates>
    var loading: bool
    var customFeeRate: string

    constructor ()
      ensures feeRates.None? && loading && customFeeRate == ""
    {
      feeRates := None;
      loading := true;
      customFeeRate := "";
    }

    /** The panel renders its buttons only once rates are loaded. */
    predicate Ready()
      reads this
    {
      !loading && feeRates.Some?
    }

    /** loadFeeRates on mount. */
    method Load(selected: int, response: FeeResponse) returns (change: Option<int>)
      modifies this
      ensures change == LoadChange(selected, GetCurrentFeeRates(response))
      ensures !loading && customFeeRate == old(customFeeRate)
      ensures feeRates == if GetCurrentFeeRates(response).Some? then GetCurrentFeeRates(response) else old(feeRates)
    {
      loading := true;
      change := None;
      var rates := GetCurrentFeeRates(response);
      if rates.Some? {
        feeRates := rates;
        if selected == 0 || selected == 1 {
          change := Some(rates.value.halfHourFee);
        }
      }
      loading := false;
    }

    /** The periodic poll: a non-null answer replaces the rates; the selection is never
        touched (no change is returned). */
    method Refresh(response: FeeResponse)
      modifies this
      ensures feeRates == if GetCurrentFeeRates(response).Some? then GetCurrentFeeRates(response) else old(feeRates)
      ensures loading == old(loading) && customFeeRate == old(customFeeRate)
    {
      var rates := GetCurrentFeeRates(response);
      if rates.Some? {
        feeRates := rates;
      }
    }

    /** A preset button: selects its tier and clears the custom text. */
    method ChoosePreset(p: Preset) returns (change: Option<int>)
      requires Ready()
      modifies this
      ensures feeRates == old(feeRates) && loading == old(loading)
      ensures change == Some(TierOf(feeRates.value, p)) && customFeeRate == ""
      ensures Highlighted(feeRates.value, change.value, customFeeRate, p)
    {
      change := Some(TierOf(feeRates.value, p));
      customFeeRate := "";
    }

    /** The custom box: the raw text is always kept; the selection changes only for an
        integer of at least 1. */
    method EnterCustom(text: string) returns (change: Option<int>)
      requires Ready()
      modifies this
      ensures customFeeRate == text && change == CustomChange(text)
      ensures feeRates == old(feeRates) && loading == old(loading)
    {
      customFeeRate := text;
      var numValue := ParseInt(text);
      change := None;
      if numValue.Some? && numValue.value >= 1 {
        change := Some(numValue.value);
      }
    }
  }

  // ---------------------------------------------------------------- what the picker promises

  /** Inside the item card the selection starts at 10, so the first load never replaces it. */
  lemma FirstLoadInCardKeepsSelection(response: FeeResponse)
    ensures LoadChange(10, GetCurrentFeeRates(response)).None?
  {
  }

  /** After the user typed '1' in the custom box, a later mount with a loaded answer
      replaces that 1 by the half-hour tier. */
  lemma RemountReplacesCustomOne(rates: FeeRates)
    ensures CustomChange("1") == Some(1)
    ensures LoadChange(1, Some(rates)) == Some(rates.halfHourFee)
  {
    assert SkipWhitespace("1") == "1";
    assert DigitPrefix("1") == "1";
  }

  /** No custom text ever sets the selection to 0, so the 0 case of the load rule can only
      come from the parent. */
  lemma CustomNeverSelectsZero(text: string)
    ensures CustomChange(text) != Some(0)
  {
  }
}
