/**
 * The argument check of MutationObserver.observe(target, options), following
 * the steps of section 4.3.1 ("Interface MutationObserver") of the WHATWG DOM
 * Living Standard. The check belongs to the observer engine, not to the
 * record: it is kept apart from the class and works on the record's value.
 */
module ObserveCheck {
  import opened Wrappers
  import opened Dom

  /** Both are a TypeError in the standard; they are told apart here. */
  datatype ObserveError =
    | NothingToObserve  // no category among childList, attributes, characterData is true
    | Conflict          // an explicit false contradicts an old-value or filter request

  /** The value a tri-state option takes for every consumer: unset counts as false. */
  function Effective(flag: Option<bool>): (b: bool)
  {
    flag == Some(true)
  }

  /** A tri-state option is unset, explicitly true or explicitly false. */
  lemma TriStateCases(flag: Option<bool>)
    ensures flag == None || flag == Some(true) || flag == Some(false)
  {
    match flag
    case None =>
    case Some(b) =>
      if b { assert flag == Some(true); } else { assert flag == Some(false); }
  }

  /**
   * Steps 1 and 2: an omitted `attributes` becomes true when attributeOldValue
   * or attributeFilter is present, and an omitted `characterData` becomes true
   * when characterDataOldValue is present. Only unset options are upgraded.
   */
  function Infer(o: Options): (n: Options)
    ensures n.childList == o.childList && n.subtree == o.subtree
    ensures n.attributeOldValue == o.attributeOldValue
    ensures n.characterDataOldValue == o.characterDataOldValue
    ensures n.attributeFilter == o.attributeFilter
    ensures o.attributes.Some? ==> n.attributes == o.attributes
    ensures o.characterData.Some? ==> n.characterData == o.characterData
    ensures n.attributes != o.attributes ==> n.attributes == Some(true)
    ensures n.characterData != o.characterData ==> n.characterData == Some(true)
    ensures n.attributes.Some? <==>
              o.attributes.Some? || o.attributeOldValue.Some? || o.attributeFilter.Some?
    ensures n.characterData.Some? <==> o.characterData.Some? || o.characterDataOldValue.Some?
  {
    var attributes :=
      if o.attributes.None? && (o.attributeOldValue.Some? || o.attributeFilter.Some?)
      then Some(true) else o.attributes;
    var characterData :=
      if o.characterData.None? && o.characterDataOldValue.Some?
      then Some(true) else o.characterData;
    o.(attributes := attributes, characterData := characterData)
  }

  /**
   * The invariant of an accepted configuration: something is observed, and
   * neither an old value nor a filter is requested for a category that is not
   * effectively observed.
   */
  predicate Accepted(n: Options)
  {
    && (n.childList || Effective(n.attributes) || Effective(n.characterData))
    && (Effective(n.attributeOldValue) ==> Effective(n.attributes))
    && (n.attributeFilter.Some? ==> Effective(n.attributes))
    && (Effective(n.characterDataOldValue) ==> Effective(n.characterData))
  }

  /** The caller explicitly disabled a category and asked for something that needs it. */
  predicate ExplicitConflict(o: Options)
  {
    || (o.attributes == Some(false) && (o.attributeOldValue == Some(true) || o.attributeFilter.Some?))
    || (o.characterData == Some(false) && o.characterDataOldValue == Some(true))
  }

  /**
   * Steps 1 to 6 of observe(): infer, then reject a request that observes
   * nothing, then reject the three conflicts, in that order. On success the
   * inferred options are what the engine registers.
   */
  function Validate(o: Options): (r: Result<Options, ObserveError>)
    ensures r.Success? ==> Accepted(r.value)
    ensures r.Success? ==> r.value == Infer(o)
    ensures r == Failure(Conflict) ==> ExplicitConflict(o)
  {
    var n := Infer(o);
    if !n.childList && !Effective(n.attributes) && !Effective(n.characterData) then
      Failure(NothingToObserve)
    else if n.attributeOldValue == Some(true) && n.attributes == Some(false) then
      Failure(Conflict)
    else if n.attributeFilter.Some? && n.attributes == Some(false) then
      Failure(Conflict)
    else if n.characterDataOldValue == Some(true) && n.characterData == Some(false) then
      Failure(Conflict)
    else
      TriStateCases(n.attributes);
      TriStateCases(n.characterData);
      Success(n)
  }

  /** The check accepts exactly the requests whose inferred options meet the invariant. */
  lemma ValidateSucceedsIff(o: Options)
    ensures Validate(o).Success? <==> Accepted(Infer(o))
  {
  }

  /** A conflict among explicit choices is always rejected; when something is observed, as Conflict. */
  lemma ExplicitConflictRejected(o: Options)
    ensures ExplicitConflict(o) ==> Validate(o).Failure?
    ensures Validate(o) == Failure(Conflict) <==>
              ExplicitConflict(o) && Validate(o) != Failure(NothingToObserve)
  {
  }

  /** NothingToObserve is decided by the caller's choices alone, before any conflict. */
  lemma NothingToObserveIff(o: Options)
    ensures Validate(o) == Failure(NothingToObserve) <==>
              && !o.childList
              && !Effective(o.attributes)
              && !Effective(o.characterData)
              && !(o.attributes.None? && (o.attributeOldValue.Some? || o.attributeFilter.Some?))
              && !(o.characterData.None? && o.characterDataOldValue.Some?)
  {
  }

  /** Success never overrides an explicit choice, and leaves every other option as given. */
  lemma ValidateKeepsExplicitChoices(o: Options)
    requires Validate(o).Success?
    ensures Validate(o).value.childList == o.childList
    ensures Validate(o).value.subtree == o.subtree
    ensures Validate(o).value.attributeOldValue == o.attributeOldValue
    ensures Validate(o).value.characterDataOldValue == o.characterDataOldValue
    ensures Validate(o).value.attributeFilter == o.attributeFilter
    ensures o.attributes.Some? ==> Validate(o).value.attributes == o.attributes
    ensures o.characterData.Some? ==> Validate(o).value.characterData == o.characterData
  {
  }

  /** An accepted configuration is a fixed point of the check. */
  lemma ValidateIdempotent(o: Options)
    requires Validate(o).Success?
    ensures Validate(Validate(o).value) == Validate(o)
  {
  }

  /** A default-constructed record observes nothing, so observe() rejects it. */
  lemma DefaultObservesNothing()
    ensures Validate(DefaultOptions) == Failure(NothingToObserve)
  {
  }

  /** Asking only for old attribute values turns attribute observation on. */
  lemma OldValueImpliesAttributes()
    ensures Validate(DefaultOptions.(attributeOldValue := Some(true)))
            == Success(DefaultOptions.(attributes := Some(true), attributeOldValue := Some(true)))
  {
  }

  /** A filter alone turns attribute observation on and is kept as given, order included. */
  lemma FilterImpliesAttributes()
    ensures Validate(DefaultOptions.(attributeFilter := Some(["id", "class"])))
            == Success(DefaultOptions.(attributes := Some(true), attributeFilter := Some(["id", "class"])))
  {
  }

  /** An empty filter is still a filter: with attributes explicitly false it conflicts. */
  lemma EmptyFilterConflicts()
    ensures Validate(DefaultOptions.(childList := true, attributes := Some(false), attributeFilter := Some([])))
            == Failure(Conflict)
  {
  }
}
