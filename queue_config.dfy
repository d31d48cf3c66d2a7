/**
 * The configuration check a concrete queue runs at construction
 * (`checkInheritanceIsCorrect`). A concrete queue supplies a default priority,
 * the name of the "iterated" field and a collection name; each may be any
 * PHP value because subclasses set them as untyped properties or constants.
 */
module QueueConfig {
  import opened Wrappers
  import opened PhpValues

  /** What a subclass provides: `$_defaultPriority`, `ITERATED_FIELD`, `$_collectionName`. */
  datatype Definition = Definition(
    defaultPriority: PhpValue,
    iteratedField: PhpValue,
    collectionName: PhpValue)

  /** The three `LogicException`s, in the order they are tested. */
  datatype ConfigError =
    | DefaultPriorityNotInt
    | IteratedFieldNotNonEmptyString
    | CollectionNameNotNonEmptyString

  /**
   * A definition the queue accepts, stated without PHP's `empty()`: an integer
   * default priority, a non-empty field name, and a collection name that is a
   * string other than "" and "0".
   */
  predicate WellFormed(d: Definition) {
    d.defaultPriority.PInt?
    && d.iteratedField.PString? && d.iteratedField.s != ""
    && d.collectionName.PString? && d.collectionName.s != "" && d.collectionName.s != "0"
  }

  /**
   * `checkInheritanceIsCorrect`: the first failing case of the `switch (true)`,
   * or None when every case passes.
   */
  function CheckInheritance(d: Definition): (r: Option<ConfigError>)
    ensures r.None? <==> WellFormed(d)
    ensures r == Some(DefaultPriorityNotInt) <==> !d.defaultPriority.PInt?
    ensures r == Some(IteratedFieldNotNonEmptyString) <==>
      d.defaultPriority.PInt? && !(d.iteratedField.PString? && d.iteratedField.s != "")
    ensures r == Some(CollectionNameNotNonEmptyString) <==>
      d.defaultPriority.PInt? && d.iteratedField.PString? && d.iteratedField.s != ""
      && !(d.collectionName.PString? && d.collectionName.s !in {"", "0"})
  {
    if !d.defaultPriority.PInt? then Some(DefaultPriorityNotInt)
    else if !d.iteratedField.PString? || d.iteratedField.s == "" then Some(IteratedFieldNotNonEmptyString)
    else if PhpEmpty(d.collectionName) || !d.collectionName.PString? then Some(CollectionNameNotNonEmptyString)
    else None
  }

  /** The queue used by the test suite: collection "test_queue", default priority 7. */
  const TestQueue := Definition(PInt(7), PString("iterated"), PString("test_queue"))

  /** The e-mail queue of the examples: collection "emails", default priority 7. */
  const EmailsQueue := Definition(PInt(7), PString("iterated"), PString("emails"))

  lemma ShippedDefinitionsPass()
    ensures CheckInheritance(TestQueue).None?
    ensures CheckInheritance(EmailsQueue).None?
  {
  }

  /**
   * The order matters: a definition that breaks every rule reports the default
   * priority, and "0" is refused as a collection name because PHP's `empty("0")` holds.
   */
  lemma FailureOrder()
    ensures CheckInheritance(Definition(PString("7"), PString(""), PNull)) == Some(DefaultPriorityNotInt)
    ensures CheckInheritance(Definition(PInt(7), PInt(1), PNull)) == Some(IteratedFieldNotNonEmptyString)
    ensures CheckInheritance(Definition(PInt(7), PString("iterated"), PString("0"))) == Some(CollectionNameNotNonEmptyString)
    ensures CheckInheritance(Definition(PInt(7), PString("iterated"), PInt(5))) == Some(CollectionNameNotNonEmptyString)
  {
  }
}
