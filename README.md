# MutationObserverInit in Dafny

A model of AngleSharp's `MutationObserverInit`, the configuration record a
mutation observer is registered with. The record holds two plain flags
(`childList`, `subtree`), four tri-state flags that may be unset
(`attributes`, `characterData`, `attributeOldValue`,
`characterDataOldValue`) and an optional ordered attribute filter
(`attributeFilter`).

- `wrappers.dfy`: `Option` and `Result`.
- `mutation_observer_init.dfy` (module `Dom`): the class
  `MutationObserverInit`. It has the seven mutable properties as fields
  (C# `Boolean?` becomes `Option<bool>`, and the filter becomes an `array?<string>` that is `null` while unset).
  It also has the default and copy constructors and one setter per property.
  `View()` gives the record's value as the datatype `Options`, keyed by the
  script-facing option names that the `[DomName]` annotations give. The
  module also holds the meaning of the filter (`Selects`) and `ToArray`, the
  effect of LINQ's `ToArray` on the filter.
- `observe_check.dfy` (module `ObserveCheck`): the argument check that
  `MutationObserver.observe(target, options)` runs on such a record. It
  follows section 4.3.1 ("Interface MutationObserver") of the WHATWG DOM
  Living Standard, not the record's file. That check lives in the observer
  engine, which is not part of this model, so it is kept apart and works
  on `Options` values. It does three things in order: it infers omitted
  `attributes`/`characterData`, then rejects a request that observes
  nothing, then rejects a request where an explicit false conflicts with
  something that needs that category.

The copy constructor calls `ToArray()` on the filter without a null check,
so copying a record whose filter was never set throws. The model
follows the code (`Copy` requires a set filter; `TryCopy` returns the
`ArgumentNull` failure, and a `NullReference` failure for a null
original). It records the mismatch under "## Findings".

The standard sets an omitted `attributes` to true when `attributeOldValue`
or `attributeFilter` exists, and an omitted `characterData` to true when
`characterDataOldValue` exists. The standard raises a
`TypeError` for every rejection; the model tells `NothingToObserve` and
`Conflict` apart.

## Model

| member | source | states |
|---|---|---|
| `Dom.MutationObserverInit.constructor` | AngleSharp/DOM/MutationObserverInit.cs:18-22 | childList and subtree are false; the four tri-state flags and the filter are unset (the value is `DefaultOptions`) |
| `Dom.MutationObserverInit.Copy` | AngleSharp/DOM/MutationObserverInit.cs:24-33 | for an original with a set filter: every scalar and tri-state field equals the original's, unset staying unset; the filter is a freshly allocated array with the same elements in the same order |
| `Dom.MutationObserverInit.TryCopy` | AngleSharp/DOM/MutationObserverInit.cs:24-27 | copying fails with NullReference exactly when the original is null, and with ArgumentNull exactly when the original's filter is unset; otherwise it yields a fresh record with a fresh filter and the same value |
| `Dom.ToArray` | AngleSharp/DOM/MutationObserverInit.cs:27 | the result is a newly allocated array holding the source's elements in order |
| `Dom.CopyOfDefaultFails` | AngleSharp/DOM/MutationObserverInit.cs:18-27 | copying a default-constructed record fails with ArgumentNull |
| `Dom.MutationObserverInit.CopyKeepingUnset` | AngleSharp/DOM/MutationObserverInit.cs:24-33 | corrected copy: for every original the copy has the same value; an unset filter stays unset, a set one is duplicated into a fresh array |
| `Dom.CorrectedCopyOfDefault` | AngleSharp/DOM/MutationObserverInit.cs:18-33 | with the corrected copy, a default record copies to a record equal to the default |
| `Dom.WriteToCopyKeepsOriginal` | AngleSharp/DOM/MutationObserverInit.cs:24-33 | after copying with `Copy`, writing an element of the copy's filter leaves the original's whole value unchanged |
| `Dom.WriteToOriginalKeepsCopy` | AngleSharp/DOM/MutationObserverInit.cs:24-33 | after copying with `Copy`, writing an element of the original's filter leaves the copy's value equal to the original's value before the write |
| `Dom.MutationObserverInit.SetObserveTargetChildNodes` | AngleSharp/DOM/MutationObserverInit.cs:40-44 | childList takes the new value; every other field keeps its value |
| `Dom.MutationObserverInit.SetObserveTargetDescendents` | AngleSharp/DOM/MutationObserverInit.cs:51-55 | subtree takes the new value; every other field keeps its value |
| `Dom.MutationObserverInit.SetObserveTargetAttributes` | AngleSharp/DOM/MutationObserverInit.cs:61-65 | attributes takes the new tri-state value; every other field keeps its value |
| `Dom.MutationObserverInit.SetObserveTargetData` | AngleSharp/DOM/MutationObserverInit.cs:71-75 | characterData takes the new tri-state value; every other field keeps its value |
| `Dom.MutationObserverInit.SetStorePreviousAttributeValue` | AngleSharp/DOM/MutationObserverInit.cs:82-86 | attributeOldValue takes the new tri-state value; every other field keeps its value |
| `Dom.MutationObserverInit.SetStorePreviousDataValue` | AngleSharp/DOM/MutationObserverInit.cs:93-97 | characterDataOldValue takes the new tri-state value; every other field keeps its value |
| `Dom.MutationObserverInit.SetAttributeFilters` | AngleSharp/DOM/MutationObserverInit.cs:104-108 | the filter becomes the caller's own array, or unset for null; every other field keeps its value |
| `Dom.Selects` | AngleSharp/DOM/MutationObserverInit.cs:99-104 | an unset filter selects every attribute name; a set filter selects a name iff it occurs in the filter |
| `ObserveCheck.Infer` | AngleSharp/DOM/MutationObserverInit.cs:77-104 | following the DOM Standard: attributes becomes set iff it was set or an old attribute value or a filter was requested, and characterData likewise with its old value; an explicit choice is never changed, an upgrade is always to true, and all other options are kept |
| `ObserveCheck.Validate` | AngleSharp/DOM/MutationObserverInit.cs:57-104 | following the DOM Standard: an accepted request is the inferred one and meets the invariant (something observed; no old value or filter for a category not effectively observed); Conflict is reported only for an explicit false the caller contradicted |
| `ObserveCheck.ValidateSucceedsIff` | AngleSharp/DOM/MutationObserverInit.cs:57-104 | a request is accepted iff its inferred options meet the invariant |
| `ObserveCheck.ExplicitConflictRejected` | AngleSharp/DOM/MutationObserverInit.cs:77-104 | an explicit false with a dependent request is always rejected; Conflict is reported iff such a conflict exists and something is observed |
| `ObserveCheck.NothingToObserveIff` | AngleSharp/DOM/MutationObserverInit.cs:36-104 | NothingToObserve iff childList is false and neither attributes nor characterData is true or inferred |
| `ObserveCheck.ValidateKeepsExplicitChoices` | AngleSharp/DOM/MutationObserverInit.cs:57-104 | on success childList, subtree, both old-value flags and the filter are unchanged, and explicit attributes/characterData choices are kept |
| `ObserveCheck.ValidateIdempotent` | AngleSharp/DOM/MutationObserverInit.cs:57-104 | checking an accepted configuration again accepts it unchanged |
| `ObserveCheck.DefaultObservesNothing` | AngleSharp/DOM/MutationObserverInit.cs:18-22 | a default-constructed record is rejected with NothingToObserve |
| `ObserveCheck.OldValueImpliesAttributes` | AngleSharp/DOM/MutationObserverInit.cs:77-86 | requesting only old attribute values is accepted with attributes turned on |
| `ObserveCheck.FilterImpliesAttributes` | AngleSharp/DOM/MutationObserverInit.cs:99-108 | a filter ["id", "class"] alone is accepted with attributes on and the filter kept in order |
| `ObserveCheck.EmptyFilterConflicts` | AngleSharp/DOM/MutationObserverInit.cs:61-65 | an empty but present filter with attributes explicitly false is a Conflict |

## Left out

- The `[DomName]` annotations are reflection metadata with no behaviour to verify. Their property-to-key mapping is what `View()` spells out.
- The mutation-observer engine that consumes the record is not part of this model. That covers change detection, record queuing, callback delivery and the node tree. Only its argument check is modelled, in `ObserveCheck`.
- The filter property has type `IEnumerable<String>`, which may be a lazy sequence. It is modelled as an array. `ToArray` is modelled by its observable effect: a new array with the same elements in order. Re-enumeration side effects of lazy sources are not modelled.
- The copy constructor has already assigned `attributes` on the half-built object when it throws. Nobody can observe that object, so the model does not represent it.
- Dom.MutationObserverInit.Copy: takes a non-null original and requires a set filter instead of throwing, because a Dafny constructor cannot fail. Both throwing calls are modelled by `TryCopy` (NullReference, ArgumentNull).
- Dom.MutationObserverInit.CopyKeepingUnset: takes a non-null original; a null original throws NullReference, as `TryCopy` models for `Copy`.
- The filter's elements are Dafny strings, which cannot be null. A C# filter may hold null names, which `ToArray()` copies like any other element; null names are not modelled.
- The documentation URL in the class comment and any scripting-host binding are left out.

## Findings

| source | as written | input that shows it | evidently intended | confidence | as-written member | corrected member |
|---|---|---|---|---|---|---|
| AngleSharp/DOM/MutationObserverInit.cs:27 | `ToArray()` is called on the filter without a null check, so copying throws ArgumentNull | a default-constructed record, whose filter is unset (unset is documented as "observe all attributes") | an unset filter stays unset in the copy | medium, not executed | `Dom.CopyOfDefaultFails` | `Dom.MutationObserverInit.CopyKeepingUnset` |
