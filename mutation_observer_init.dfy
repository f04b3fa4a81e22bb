/**
 * The configuration record a mutation observer is registered with
 * (AngleSharp.DOM.MutationObserverInit).
 */
module Dom {
  import opened Wrappers

  /**
   * The value held by a MutationObserverInit, keyed by the option names
   * under which the record is exposed to scripts (childList, subtree, ...).
   * A tri-state option is `None` while it is unset; an unset filter is `None`.
   */
  datatype Options = Options(
    childList: bool,
    subtree: bool,
    attributes: Option<bool>,
    characterData: Option<bool>,
    attributeOldValue: Option<bool>,
    characterDataOldValue: Option<bool>,
    attributeFilter: Option<seq<string>>)

  /** What a freshly constructed record holds: both plain flags false, everything else unset. */
  const DefaultOptions := Options(false, false, None, None, None, None, None)

  /** The exceptions `new MutationObserverInit(original)` can throw. */
  datatype CopyError =
    | NullReference  // the original itself is null (reading its first property fails)
    | ArgumentNull   // the original's filter is unset, and ToArray refuses a null source

  /**
   * An attribute name is selected by a filter when the filter is unset (every
   * attribute is observed) or when the name occurs in it.
   */
  function Selects(filter: Option<seq<string>>, name: string): (b: bool)
    ensures filter.None? ==> b
    ensures filter.Some? ==> (b <==> name in filter.value)
  {
    filter.None? || Contains(filter.value, name)
  }

  /** Helper for Selects: linear search of a filter for an attribute name. */
  function Contains(names: seq<string>, name: string): (b: bool)
    ensures b <==> name in names
  {
    if names == [] then false
    else names[0] == name || Contains(names[1..], name)
  }

  /** Enumerable.ToArray on an array: a new array with the same elements in the same order. */
  method ToArray(source: array<string>) returns (r: array<string>)
    ensures fresh(r)
    ensures r[..] == source[..]
  {
    r := new string[source.Length];
    var i := 0;
    while i < source.Length
      invariant 0 <= i <= source.Length
      invariant r[..i] == source[..i]
    {
      r[i] := source[i];
      i := i + 1;
    }
    assert r[..] == r[..i];
  }

  class MutationObserverInit {
    var observeTargetChildNodes: bool
    var observeTargetDescendents: bool
    var observeTargetAttributes: Option<bool>
    var observeTargetData: Option<bool>
    var storePreviousAttributeValue: Option<bool>
    var storePreviousDataValue: Option<bool>
    /** The filter; `null` while unset. The setter stores the caller's array itself. */
    var attributeFilters: array?<string>

    /** The record's value, each property under its script-facing option name. */
    function View(): (v: Options)
      reads this, attributeFilters
    {
      Options(
        observeTargetChildNodes,
        observeTargetDescendents,
        observeTargetAttributes,
        observeTargetData,
        storePreviousAttributeValue,
        storePreviousDataValue,
        if attributeFilters == null then None else Some(attributeFilters[..]))
    }

    /** Default construction: only the two plain flags are assigned; the rest stay null. */
    constructor ()
      ensures !observeTargetChildNodes && !observeTargetDescendents
      ensures observeTargetAttributes.None? && observeTargetData.None?
      ensures storePreviousAttributeValue.None? && storePreviousDataValue.None?
      ensures attributeFilters == null
      ensures View() == DefaultOptions
    {
      observeTargetChildNodes := false;
      observeTargetDescendents := false;
      // auto-properties that the constructor leaves alone hold null
      observeTargetAttributes := None;
      observeTargetData := None;
      storePreviousAttributeValue := None;
      storePreviousDataValue := None;
      attributeFilters := null;
    }

    /**
     * Copy construction. The filter goes through ToArray, so the copy owns a
     * new array; ToArray throws on an unset filter, which this constructor's
     * callers must therefore rule out (TryCopy models the throwing call).
     */
    constructor Copy(original: MutationObserverInit)
      requires original.attributeFilters != null
      ensures View() == original.View()
      ensures observeTargetAttributes == original.observeTargetAttributes
      ensures observeTargetData == original.observeTargetData
      ensures storePreviousAttributeValue == original.storePreviousAttributeValue
      ensures storePreviousDataValue == original.storePreviousDataValue
      ensures fresh(attributeFilters)
      ensures attributeFilters[..] == original.attributeFilters[..]
    {
      observeTargetAttributes := original.observeTargetAttributes;
      var filters := ToArray(original.attributeFilters);
      attributeFilters := filters;
      observeTargetChildNodes := original.observeTargetChildNodes;
      observeTargetData := original.observeTargetData;
      observeTargetDescendents := original.observeTargetDescendents;
      storePreviousAttributeValue := original.storePreviousAttributeValue;
      storePreviousDataValue := original.storePreviousDataValue;
    }

    /**
     * Copy construction as evidently intended: an unset filter stays unset in
     * the copy instead of making the copy fail; a set filter is duplicated.
     */
    constructor CopyKeepingUnset(original: MutationObserverInit)
      ensures View() == original.View()
      ensures original.attributeFilters == null ==> attributeFilters == null
      ensures original.attributeFilters != null ==> fresh(attributeFilters)
      ensures original.attributeFilters != null ==>
                attributeFilters != null && attributeFilters[..] == original.attributeFilters[..]
    {
      observeTargetAttributes := original.observeTargetAttributes;
      if original.attributeFilters == null {
        attributeFilters := null;
      } else {
        var filters := ToArray(original.attributeFilters);
        attributeFilters := filters;
      }
      observeTargetChildNodes := original.observeTargetChildNodes;
      observeTargetData := original.observeTargetData;
      observeTargetDescendents := original.observeTargetDescendents;
      storePreviousAttributeValue := original.storePreviousAttributeValue;
      storePreviousDataValue := original.storePreviousDataValue;
    }

    /**
     * The expression `new MutationObserverInit(original)` as its caller sees it:
     * a NullReference failure for a null original, an ArgumentNull failure when
     * the original's filter is unset, otherwise a new record equal to the
     * original that shares no filter storage with it.
     */
    static method TryCopy(original: MutationObserverInit?) returns (r: Result<MutationObserverInit, CopyError>)
      ensures r == Failure(NullReference) <==> original == null
      ensures r == Failure(ArgumentNull) <==> original != null && original.attributeFilters == null
      ensures r.Success? ==> original != null && original.attributeFilters != null
      ensures r.Success? ==> fresh(r.value) && fresh(r.value.attributeFilters)
      ensures r.Success? ==> r.value.View() == original.View()
    {
      if original == null {
        r := Failure(NullReference);
      } else if original.attributeFilters == null {
        r := Failure(ArgumentNull);
      } else {
        var copy := new MutationObserverInit.Copy(original);
        r := Success(copy);
      }
    }

    method SetObserveTargetChildNodes(value: bool)
      modifies this`observeTargetChildNodes
      ensures View() == old(View()).(childList := value)
    {
      observeTargetChildNodes := value;
    }

    method SetObserveTargetDescendents(value: bool)
      modifies this`observeTargetDescendents
      ensures View() == old(View()).(subtree := value)
    {
      observeTargetDescendents := value;
    }

    method SetObserveTargetAttributes(value: Option<bool>)
      modifies this`observeTargetAttributes
      ensures View() == old(View()).(attributes := value)
    {
      observeTargetAttributes := value;
    }

    method SetObserveTargetData(value: Option<bool>)
      modifies this`observeTargetData
      ensures View() == old(View()).(characterData := value)
    {
      observeTargetData := value;
    }

    method SetStorePreviousAttributeValue(value: Option<bool>)
      modifies this`storePreviousAttributeValue
      ensures View() == old(View()).(attributeOldValue := value)
    {
      storePreviousAttributeValue := value;
    }

    method SetStorePreviousDataValue(value: Option<bool>)
      modifies this`storePreviousDataValue
      ensures View() == old(View()).(characterDataOldValue := value)
    {
      storePreviousDataValue := value;
    }

    /** The setter keeps a reference to the caller's array; it does not copy it. */
    method SetAttributeFilters(value: array?<string>)
      modifies this`attributeFilters
      ensures attributeFilters == value
      ensures View() == old(View()).(attributeFilter := if value == null then None else Some(value[..]))
    {
      attributeFilters := value;
    }
  }

  /** A record whose filter was never set cannot be copied. */
  method CopyOfDefaultFails() returns (r: Result<MutationObserverInit, CopyError>)
    ensures r == Failure(ArgumentNull)
  {
    var init := new MutationObserverInit();
    r := MutationObserverInit.TryCopy(init);
  }

  /** With the corrected copy, a default record copies to a default record. */
  method CorrectedCopyOfDefault() returns (copy: MutationObserverInit)
    ensures copy.View() == DefaultOptions
  {
    var init := new MutationObserverInit();
    copy := new MutationObserverInit.CopyKeepingUnset(init);
  }

  /** Writing into a copy's filter leaves the original's filter as it was. */
  method WriteToCopyKeepsOriginal(original: MutationObserverInit, i: nat, name: string)
      returns (copy: MutationObserverInit)
    requires original.attributeFilters != null && i < original.attributeFilters.Length
    ensures fresh(copy)
    ensures original.View() == old(original.View())
    ensures copy.View() == original.View().(attributeFilter := Some(original.attributeFilters[..][i := name]))
  {
    copy := new MutationObserverInit.Copy(original);
    copy.attributeFilters[i] := name;
  }

  /** Writing into the original's filter after copying leaves the copy's filter as it was. */
  method WriteToOriginalKeepsCopy(original: MutationObserverInit, i: nat, name: string)
      returns (copy: MutationObserverInit)
    requires original.attributeFilters != null && i < original.attributeFilters.Length
    modifies original.attributeFilters
    ensures fresh(copy)
    ensures copy.View() == old(original.View())
    ensures original.attributeFilters[..] == old(original.attributeFilters[..])[i := name]
  {
    copy := new MutationObserverInit.Copy(original);
    original.attributeFilters[i] := name;
  }
}
