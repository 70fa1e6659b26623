/** What the checks of `Ensure` promise: which inputs pass, which fail,
    and with which message and cause a failure is raised. */
module EnsureProperties {
  import opened JavaObjects
  import opened Failure
  import opened Ensure

  // ---- Boolean conditions ----

  lemma BooleanChecks(value: bool, explanation: string, args: Args)
    ensures BooleanCondition(value).IsTrueWith(explanation, args).Ok? <==> value
    ensures BooleanCondition(value).IsFalseWith(explanation, args).Ok? <==> !value
    ensures !value ==> Raises(BooleanCondition(value).IsTrueWith(explanation, args), explanation, args)
    ensures value ==> Raises(BooleanCondition(value).IsFalseWith(explanation, args), explanation, args)
    ensures !value ==> Raises(BooleanCondition(value).IsTrue(), VALUE_NOT_TRUE, [])
    ensures value ==> Raises(BooleanCondition(value).IsFalse(), VALUE_NOT_FALSE, [])
  {
  }

  /** `isTrue` on a value behaves as `isFalse` on its negation. */
  lemma IsTrueIsFalseDual(value: bool, explanation: string, args: Args)
    ensures BooleanCondition(value).IsTrueWith(explanation, args) == BooleanCondition(!value).IsFalseWith(explanation, args)
  {
  }

  // ---- Object conditions ----

  lemma IsNotNullFailsIffSomeNull(c: ObjectCondition, explanation: string, args: Args)
    ensures c.IsNotNullWith(explanation, args).Fail? <==>
      c.value.None? || exists i :: 0 <= i < |c.additionalValues| && c.additionalValues[i].None?
    ensures c.IsNotNullWith(explanation, args).Fail? ==> Raises(c.IsNotNullWith(explanation, args), explanation, args)
    ensures c.IsNotNull().Fail? ==> Raises(c.IsNotNull(), OBJECT_IS_NULL, [])
  {
  }

  /** `isNull` ignores the additional values; `isNotNull` does not. */
  lemma IsNullIgnoresAdditionalValues(value: Option<Object>, additionalValues: seq<Option<Object>>, explanation: string, args: Args)
    ensures ObjectCondition(value, additionalValues).IsNullWith(explanation, args).Fail? <==> value.Some?
    ensures ObjectCondition(value, additionalValues).IsNullWith(explanation, args)
         == ObjectCondition(value, []).IsNullWith(explanation, args)
    ensures value.Some? ==> Raises(ObjectCondition(value, additionalValues).IsNullWith(explanation, args), explanation, args)
    ensures value.Some? ==> Raises(ObjectCondition(value, additionalValues).IsNull(), OBJECT_NOT_NULL, [])
  {
  }

  /** Without additional values exactly one of `isNull` and `isNotNull`
      passes; with them, both can fail, but both never pass. */
  lemma NullChecksAreExclusive(c: ObjectCondition, explanation: string, args: Args)
    ensures !(c.IsNullWith(explanation, args).Ok? && c.IsNotNullWith(explanation, args).Ok?)
    ensures c.additionalValues == [] ==> (c.IsNullWith(explanation, args).Ok? <==> c.IsNotNullWith(explanation, args).Fail?)
  {
  }

  lemma ObjectConditionExamples(explanation: string)
    ensures ObjectCondition(Some(Str("")), []).IsNotNull().Ok?
    ensures ObjectCondition(Some(Str("")), [Some(Str(""))]).IsNotNull().Ok?
    ensures ObjectCondition(None, [None]).IsNull().Ok?
    ensures ObjectCondition(Some(Str("")), []).IsNullWith(explanation, []).Fail?
    ensures ObjectCondition(Some(Str("")), [Some(Str(""))]).IsNullWith(explanation, []).Fail?
    ensures ObjectCondition(None, []).IsNotNullWith(explanation, []).Fail?
    ensures ObjectCondition(Some(Str("")), [None]).IsNotNullWith(explanation, []).Fail?
    ensures ObjectCondition(None, [Some(Str(""))]).IsNotNullWith(explanation, []).Fail?
    ensures ObjectCondition(None, [None]).IsNotNullWith(explanation, []).Fail?
  {
    var onlyNull: seq<Option<Object>> := [None];
    assert onlyNull[0].None?;
  }

  /** The type-list overload passes iff the value and every additional
      value are present and the value is an instance of a listed type; a
      null fails with the default null message, a type mismatch with the
      wrong-type message naming the value and the list. */
  lemma IsInstanceOfOutcome(c: ObjectCondition, firstType: Class, additionalTypes: seq<Class>,
                            isInstance: (Class, Object) -> bool)
    ensures c.IsInstanceOf(firstType, additionalTypes, isInstance).Ok? <==>
      c.value.Some? && AllPresent(c.additionalValues) &&
      exists t :: t in [firstType] + additionalTypes && isInstance(t, c.value.value)
    ensures c.IsNotNull().Fail? ==> Raises(c.IsInstanceOf(firstType, additionalTypes, isInstance), OBJECT_IS_NULL, [])
    ensures c.IsNotNull().Ok? && c.IsInstanceOf(firstType, additionalTypes, isInstance).Fail? ==>
      Raises(c.IsInstanceOf(firstType, additionalTypes, isInstance), WRONG_TYPE,
             [c.value, Some(ClassList([firstType] + additionalTypes))])
  {
  }

  /** The explanation overload: a null fails with the explanation but
      without its arguments, a type mismatch with both. */
  lemma IsInstanceOfWithOutcome(c: ObjectCondition, expectedType: Class, explanation: string, args: Args,
                                isInstance: (Class, Object) -> bool)
    ensures c.IsInstanceOfWith(expectedType, explanation, args, isInstance).Ok? <==>
      c.value.Some? && AllPresent(c.additionalValues) && isInstance(expectedType, c.value.value)
    ensures c.IsNotNull().Fail? ==> Raises(c.IsInstanceOfWith(expectedType, explanation, args, isInstance), explanation, [])
    ensures c.IsNotNull().Ok? && !isInstance(expectedType, c.value.value) ==>
      Raises(c.IsInstanceOfWith(expectedType, explanation, args, isInstance), explanation, args)
  {
  }

  /** Passing `isInstanceOf` implies passing `isNotNull`. */
  lemma IsInstanceOfImpliesNotNull(c: ObjectCondition, firstType: Class, additionalTypes: seq<Class>,
                                   isInstance: (Class, Object) -> bool, explanation: string, args: Args)
    ensures c.IsInstanceOf(firstType, additionalTypes, isInstance).Ok? ==> c.IsNotNullWith(explanation, args).Ok?
  {
  }

  lemma IsInstanceOfExamples(isInstance: (Class, Object) -> bool, explanation: string)
    requires isInstance(Class("java.lang.String"), Str(""))
    requires !isInstance(Class("java.lang.Integer"), Str(""))
    ensures ObjectCondition(Some(Str("")), []).IsInstanceOf(Class("java.lang.String"), [], isInstance).Ok?
    ensures ObjectCondition(Some(Str("")), []).IsInstanceOfWith(Class("java.lang.Integer"), explanation, [], isInstance).Fail?
    ensures ObjectCondition(Some(Str("")), []).IsInstanceOfWith(
              Class("java.lang.Integer"), "This error uses '%s' to print the number %d.",
              [Some(Str("String.format")), Some(Int(42))], isInstance)
         == Fail(Formatted("This error uses '%s' to print the number %d.",
                           [Some(Str("String.format")), Some(Int(42))]), None)
  {
    var types: seq<Class> := [Class("java.lang.String")] + [];
    assert isInstance(types[0], Str(""));
  }

  // ---- String conditions ----

  lemma StringIsNotEmptyOutcome(value: Option<string>, explanation: string, args: Args)
    ensures StringCondition(value).IsNotEmptyWith(explanation, args).Fail? <==> value.None? || |value.value| == 0
    ensures value.None? ==> Raises(StringCondition(value).IsNotEmptyWith(explanation, args), explanation, [])
    ensures value == Some("") ==> Raises(StringCondition(value).IsNotEmptyWith(explanation, args), explanation, args)
    ensures StringCondition(value).IsNotEmpty().Fail? ==> Raises(StringCondition(value).IsNotEmpty(), STRING_EMPTY, [])
  {
  }

  lemma StringIsNotBlankOutcome(value: Option<string>, explanation: string, args: Args, isWhitespace: char -> bool)
    ensures StringCondition(value).IsNotBlankWith(explanation, args, isWhitespace).Fail? <==>
      value.None? || forall i :: 0 <= i < |value.value| ==> isWhitespace(value.value[i])
    ensures value.None? ==> Raises(StringCondition(value).IsNotBlankWith(explanation, args, isWhitespace), OBJECT_IS_NULL, [])
    ensures value.Some? && StringCondition(value).IsNotBlankWith(explanation, args, isWhitespace).Fail? ==>
      Raises(StringCondition(value).IsNotBlankWith(explanation, args, isWhitespace), explanation, args)
  {
  }

  lemma EmptyStringIsBlank(isWhitespace: char -> bool)
    ensures StringCondition(Some("")).IsBlank(isWhitespace)
    ensures StringCondition(Some("")).IsNotBlank(isWhitespace) == ThrowException(STRING_BLANK, [])
  {
  }

  /** A string that is not blank is not empty; for a present, non-empty
      string `isNotEmpty` passes and `isNotBlank` passes iff some
      character is not whitespace. */
  lemma NotBlankImpliesNotEmpty(value: Option<string>, explanation: string, args: Args, isWhitespace: char -> bool)
    ensures StringCondition(value).IsNotBlankWith(explanation, args, isWhitespace).Ok? ==>
      StringCondition(value).IsNotEmptyWith(explanation, args).Ok?
    ensures value.Some? && |value.value| > 0 ==>
      StringCondition(value).IsNotEmptyWith(explanation, args).Ok? &&
      (StringCondition(value).IsNotBlankWith(explanation, args, isWhitespace).Ok? <==>
       exists i :: 0 <= i < |value.value| && !isWhitespace(value.value[i]))
  {
    if StringCondition(value).IsNotBlankWith(explanation, args, isWhitespace).Ok? {
      var i :| 0 <= i < |value.value| && !isWhitespace(value.value[i]);
    }
  }

  lemma StringConditionExamples(isWhitespace: char -> bool, explanation: string)
    requires isWhitespace(' ') && !isWhitespace('-')
    ensures StringCondition(Some("-")).IsNotEmpty().Ok?
    ensures StringCondition(Some("-")).IsNotBlank(isWhitespace).Ok?
    ensures StringCondition(Some(" ")).IsNotBlankWith(explanation, [], isWhitespace).Fail?
    ensures StringCondition(Some("")).IsNotEmptyWith(explanation, []).Fail?
    ensures StringCondition(None).IsNotEmptyWith(explanation, []).Fail?
  {
    assert !isWhitespace("-"[0]);
  }

  // ---- Array and iterable conditions ----

  lemma ArrayIsNotEmptyOutcome(value: Option<seq<Option<Object>>>, explanation: string, args: Args)
    ensures ArrayCondition(value).IsNotEmptyWith(explanation, args).Fail? <==>
      value.None? || |value.value| == 0 || exists i :: 0 <= i < |value.value| && value.value[i].None?
    ensures value.None? ==> Raises(ArrayCondition(value).IsNotEmptyWith(explanation, args), explanation, [])
    ensures value.Some? && ArrayCondition(value).IsNotEmptyWith(explanation, args).Fail? ==>
      Raises(ArrayCondition(value).IsNotEmptyWith(explanation, args), explanation, args)
    ensures ArrayCondition(value).IsNotEmpty().Fail? ==> Raises(ArrayCondition(value).IsNotEmpty(), ARRAY_EMPTY, [])
  {
  }

  lemma IterableIsNotEmptyOutcome(value: Option<seq<Option<Object>>>, explanation: string, args: Args)
    ensures IterableCondition(value).IsNotEmptyWith(explanation, args).Fail? <==>
      value.None? || |value.value| == 0 || exists i :: 0 <= i < |value.value| && value.value[i].None?
    ensures value.None? ==> Raises(IterableCondition(value).IsNotEmptyWith(explanation, args), explanation, [])
    ensures value.Some? && IterableCondition(value).IsNotEmptyWith(explanation, args).Fail? ==>
      Raises(IterableCondition(value).IsNotEmptyWith(explanation, args), explanation, args)
    ensures IterableCondition(value).IsNotEmpty().Fail? ==> Raises(IterableCondition(value).IsNotEmpty(), ITERABLE_EMPTY, [])
  {
  }

  /** Arrays and iterables are checked alike; only their default messages
      differ, from each other and from the string one. */
  lemma ArrayAndIterableAgree(value: Option<seq<Option<Object>>>, explanation: string, args: Args)
    ensures ArrayCondition(value).IsNotEmptyWith(explanation, args) == IterableCondition(value).IsNotEmptyWith(explanation, args)
    ensures ARRAY_EMPTY != ITERABLE_EMPTY && ARRAY_EMPTY != STRING_EMPTY && ITERABLE_EMPTY != STRING_EMPTY
  {
  }

  lemma ContainerExamples(explanation: string)
    ensures ArrayCondition(Some([Some(Str(""))])).IsNotEmpty().Ok?
    ensures ArrayCondition(Some([Some(Str("")), None, Some(Str(""))])).IsNotEmptyWith(explanation, []).Fail?
    ensures IterableCondition(Some([Some(Str("")), None, Some(Str(""))])).IsNotEmptyWith(explanation, []).Fail?
    ensures ArrayCondition(Some([])).IsNotEmptyWith(explanation, []).Fail?
    ensures ArrayCondition(None).IsNotEmptyWith(explanation, []).Fail?
  {
    var withNull: seq<Option<Object>> := [Some(Str("")), None, Some(Str(""))];
    assert withNull[1].None?;
  }

  // ---- Unconditional failures ----

  lemma IsNeverThrownAlwaysFails(c: ExceptionCondition, explanation: string, args: Args)
    ensures c.IsNeverThrown(explanation, args).Fail?
    ensures c.IsNeverThrown(explanation, args).message == Formatted(explanation, args)
    ensures c.IsNeverThrown(explanation, args).cause == c.value
  {
  }

  lemma NeverReachedAlwaysFails(explanation: string, args: Args)
    ensures Raises(ThatStatementIsNeverReached(), NEVER_REACHED, [])
    ensures Raises(ThatStatementIsNeverReachedWith(explanation, args), explanation, args)
    ensures ThrowException(explanation, args).Fail? && ThrowException(explanation, args).cause.None?
  {
  }
}
