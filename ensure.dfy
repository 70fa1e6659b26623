/** The fluent contract checks of `Ensure`. Each `that(...)` entry point
    becomes the constructor of one condition datatype; the captured values
    are immutable fields. Every check is a pure function returning an
    `Outcome`; a check whose Java method loops over elements also has a
    `Check...` method that runs that loop and is proved to return the same
    outcome. */
module Ensure {
  import opened JavaObjects
  import opened Failure

  /** The varargs `Object... args` handed to the formatter. */
  type Args = seq<Option<Object>>

  const NEVER_REACHED := "This statement should never be reached."
  const ITERABLE_EMPTY := "Iterable is empty or NULL"
  const ARRAY_EMPTY := "Array is empty or NULL"
  const STRING_EMPTY := "The string is empty or NULL"
  const STRING_BLANK := "The string is blank"
  const OBJECT_IS_NULL := "Object is NULL"
  const OBJECT_NOT_NULL := "Object is not NULL"
  const WRONG_TYPE := "Object is of wrong type. Actual: %s. Expected one of: %s"
  const VALUE_NOT_FALSE := "Value is not FALSE"
  const VALUE_NOT_TRUE := "Value is not TRUE"

  /** The single raise path: format the message and raise it without a cause. */
  function ThrowException(message: string, args: Args): Outcome
  {
    Fail(Formatted(message, args), None)
  }

  /** `r` is the failure that `ThrowException(message, args)` raises. */
  predicate Raises(r: Outcome, message: string, args: Args)
  {
    r == ThrowException(message, args)
  }

  function ThatStatementIsNeverReached(): Outcome
  {
    ThrowException(NEVER_REACHED, [])
  }

  function ThatStatementIsNeverReachedWith(explanation: string, args: Args): Outcome
  {
    ThrowException(explanation, args)
  }

  datatype BooleanCondition = BooleanCondition(value: bool)
  {
    function IsFalse(): Outcome
    {
      IsFalseWith(VALUE_NOT_FALSE, [])
    }

    function IsFalseWith(explanation: string, args: Args): Outcome
    {
      if value then ThrowException(explanation, args) else Ok
    }

    function IsTrue(): Outcome
    {
      IsTrueWith(VALUE_NOT_TRUE, [])
    }

    function IsTrueWith(explanation: string, args: Args): Outcome
    {
      if !value then ThrowException(explanation, args) else Ok
    }
  }

  /** An object condition: a primary value and the additional values
      passed alongside it. */
  datatype ObjectCondition = ObjectCondition(value: Option<Object>, additionalValues: seq<Option<Object>>)
  {
    function IsNotNull(): Outcome
    {
      IsNotNullWith(OBJECT_IS_NULL, [])
    }

    function IsNotNullWith(explanation: string, args: Args): Outcome
    {
      if value.None? || !AllPresent(additionalValues) then ThrowException(explanation, args) else Ok
    }

    /** The loop of `ObjectCondition.isNotNull`: the primary value, then each additional value
        in order, raising at the first null. */
    method CheckIsNotNull(explanation: string, args: Args) returns (r: Outcome)
      ensures r == IsNotNullWith(explanation, args)
    {
      if value.None? {
        return ThrowException(explanation, args);
      }
      for i := 0 to |additionalValues|
        invariant forall j :: 0 <= j < i ==> additionalValues[j].Some?
      {
        if additionalValues[i].None? {
          return ThrowException(explanation, args);
        }
      }
      return Ok;
    }

    function IsNull(): Outcome
    {
      IsNullWith(OBJECT_NOT_NULL, [])
    }

    /** Only the primary value is inspected. */
    function IsNullWith(explanation: string, args: Args): Outcome
    {
      if value.Some? then ThrowException(explanation, args) else Ok
    }

    /** `isInstanceOf(type, additionalTypes...)`: the default not-null
        check, then a search of `[firstType] + additionalTypes`. */
    function IsInstanceOf(firstType: Class, additionalTypes: seq<Class>, isInstance: (Class, Object) -> bool): Outcome
    {
      var nullCheck := IsNotNull();
      if nullCheck.Fail? then nullCheck
      else
        var types := [firstType] + additionalTypes;
        if exists j :: 0 <= j < |types| && isInstance(types[j], value.value) then Ok
        else ThrowException(WRONG_TYPE, [value, Some(ClassList(types))])
    }

    method CheckIsInstanceOf(firstType: Class, additionalTypes: seq<Class>, isInstance: (Class, Object) -> bool)
      returns (r: Outcome)
      ensures r == IsInstanceOf(firstType, additionalTypes, isInstance)
    {
      r := CheckIsNotNull(OBJECT_IS_NULL, []);
      if r.Fail? {
        return;
      }
      var types := [firstType] + additionalTypes;
      for k := 0 to |types|
        invariant forall j :: 0 <= j < k ==> !isInstance(types[j], value.value)
      {
        if isInstance(types[k], value.value) {
          return Ok;
        }
      }
      r := ThrowException(WRONG_TYPE, [value, Some(ClassList(types))]);
    }

    /** `isInstanceOf(type, explanation, args...)`: the inner not-null
        check gets the explanation but not its arguments. */
    function IsInstanceOfWith(expectedType: Class, explanation: string, args: Args, isInstance: (Class, Object) -> bool): Outcome
    {
      var nullCheck := IsNotNullWith(explanation, []);
      if nullCheck.Fail? then nullCheck
      else if !isInstance(expectedType, value.value) then ThrowException(explanation, args)
      else Ok
    }
  }

  datatype StringCondition = StringCondition(value: Option<string>)
  {
    /** The object condition this string condition extends. */
    function AsObject(): ObjectCondition
    {
      ObjectCondition(if value.Some? then Some(Str(value.value)) else None, [])
    }

    function IsNotEmpty(): Outcome
    {
      IsNotEmptyWith(STRING_EMPTY, [])
    }

    function IsNotEmptyWith(explanation: string, args: Args): Outcome
    {
      var nullCheck := AsObject().IsNotNullWith(explanation, []);
      if nullCheck.Fail? then nullCheck
      else if |value.value| == 0 then ThrowException(explanation, args)
      else Ok
    }

    function IsNotBlank(isWhitespace: char -> bool): Outcome
    {
      IsNotBlankWith(STRING_BLANK, [], isWhitespace)
    }

    /** The inner not-null check uses the default message. */
    function IsNotBlankWith(explanation: string, args: Args, isWhitespace: char -> bool): Outcome
    {
      var nullCheck := AsObject().IsNotNull();
      if nullCheck.Fail? then nullCheck
      else if IsBlank(isWhitespace) then ThrowException(explanation, args)
      else Ok
    }

    /** Every character is whitespace (so the empty string is blank). */
    predicate IsBlank(isWhitespace: char -> bool)
      requires value.Some?
    {
      forall i :: 0 <= i < |value.value| ==> isWhitespace(value.value[i])
    }

    method CheckIsBlank(isWhitespace: char -> bool) returns (blank: bool)
      requires value.Some?
      ensures blank == IsBlank(isWhitespace)
    {
      var s := value.value;
      if |s| == 0 {
        return true;
      }
      for i := 0 to |s|
        invariant forall j :: 0 <= j < i ==> isWhitespace(s[j])
      {
        if !isWhitespace(s[i]) {
          return false;
        }
      }
      return true;
    }
  }

  datatype ArrayCondition = ArrayCondition(value: Option<seq<Option<Object>>>)
  {
    function AsObject(): ObjectCondition
    {
      ObjectCondition(if value.Some? then Some(ObjectArray(value.value)) else None, [])
    }

    function IsNotEmpty(): Outcome
    {
      IsNotEmptyWith(ARRAY_EMPTY, [])
    }

    function IsNotEmptyWith(explanation: string, args: Args): Outcome
    {
      var nullCheck := AsObject().IsNotNullWith(explanation, []);
      if nullCheck.Fail? then nullCheck
      else if |value.value| == 0 || !AllPresent(value.value) then ThrowException(explanation, args)
      else Ok
    }

    /** The order of `ArrayCondition.isNotEmpty`: null check, length check, element scan. */
    method CheckIsNotEmpty(explanation: string, args: Args) returns (r: Outcome)
      ensures r == IsNotEmptyWith(explanation, args)
    {
      r := AsObject().CheckIsNotNull(explanation, []);
      if r.Fail? {
        return;
      }
      var elements := value.value;
      if |elements| == 0 {
        return ThrowException(explanation, args);
      }
      for i := 0 to |elements|
        invariant forall j :: 0 <= j < i ==> elements[j].Some?
      {
        if elements[i].None? {
          return ThrowException(explanation, args);
        }
      }
    }
  }

  datatype IterableCondition = IterableCondition(value: Option<seq<Option<Object>>>)
  {
    function AsObject(): ObjectCondition
    {
      ObjectCondition(if value.Some? then Some(Collection(value.value)) else None, [])
    }

    function IsNotEmpty(): Outcome
    {
      IsNotEmptyWith(ITERABLE_EMPTY, [])
    }

    function IsNotEmptyWith(explanation: string, args: Args): Outcome
    {
      var nullCheck := AsObject().IsNotNullWith(explanation, []);
      if nullCheck.Fail? then nullCheck
      else if |value.value| != 0 && AllPresent(value.value) then Ok
      else ThrowException(explanation, args)
    }

    /** The order of `IterableCondition.isNotEmpty`: null check, then a scan if the iterator has a
        first element, otherwise a failure. */
    method CheckIsNotEmpty(explanation: string, args: Args) returns (r: Outcome)
      ensures r == IsNotEmptyWith(explanation, args)
    {
      r := AsObject().CheckIsNotNull(explanation, []);
      if r.Fail? {
        return;
      }
      var elements := value.value;
      if |elements| > 0 {
        for i := 0 to |elements|
          invariant forall j :: 0 <= j < i ==> elements[j].Some?
        {
          if elements[i].None? {
            return ThrowException(explanation, args);
          }
        }
      } else {
        r := ThrowException(explanation, args);
      }
    }
  }

  /** Wraps a caught throwable (possibly null). */
  datatype ExceptionCondition = ExceptionCondition(value: Option<Object>)
  {
    /** Always raises, with the captured throwable as the cause. */
    function IsNeverThrown(explanation: string, args: Args): Outcome
    {
      Fail(Formatted(explanation, args), value)
    }
  }
}
