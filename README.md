# Contract checks of `edu.hm.hafner.util`

This project models the design-by-contract helper `Ensure` and two small
utilities, `MathUtils.max` and `StringUtils.isEmpty`, and proves what they
promise.

`Ensure.that(...)` captures a value in a condition object; a check on that
condition either returns normally or raises an `AssertionFailedException`
carrying a formatted message and an optional cause. In the model:

- each `that(...)` overload is the constructor of one condition datatype
  (`BooleanCondition`, `ObjectCondition`, `StringCondition`,
  `ArrayCondition`, `IterableCondition`, `ExceptionCondition`); the
  captured values are immutable fields, so no check can change them;
- a Java `null` is `Option.None`; strings are `seq<char>`; arrays and
  iterables are `seq<Option<Object>>`; Java objects are the datatype
  `JavaObjects.Object`;
- a check is a pure function returning `Outcome = Ok | Fail(message, cause)`.
  For each check that has a default-message overload there are two Dafny names:
  the default-message overload (`IsNotNull()`) and the explanation overload
  (`IsNotNullWith(explanation, args)`); `isNeverThrown` and the private `isBlank`
  have one form each (`IsNeverThrown`, `IsBlank`);
- the checks whose source loops (`isNotNull`, `isInstanceOf` over a type list,
  the private `isBlank`, the array and iterable `isNotEmpty`) also have a
  `Check...` method that runs the source's loop with its early exits and is
  proved to return exactly the function's outcome;
- the string and array/iterable conditions extend the object condition in
  the source; in the model `AsObject()` gives that object condition (the
  value as an object, no additional values), and their checks call its
  `IsNotNull`;
- `String.format(template, args)` is not interpreted: a message is
  `Formatted(template, args)`, so the lemmas state which template and which
  arguments each failure is formatted from, not the resulting text.
  `Class.isInstance` and `Character.isWhitespace` are likewise parameters
  (`isInstance`, `isWhitespace`) about which nothing is assumed.

Edge cases the lemmas pin down: `isNull` inspects only the primary value
while `isNotNull` also checks the additional values; the inner null checks
of the string, array and iterable `isNotEmpty` and of `isInstanceOf(type,
explanation, args)` pass the explanation without its arguments;
`isNotBlank` uses the default "Object is NULL" message for a null string;
`isInstanceOf` also fails when an additional value is null, because its
first step is the full `isNotNull()`; `isNeverThrown` is the only check
whose failure carries a cause, the captured throwable.

`MathUtils.max` is a method over `array<Int32>` (Java's `int`), proved to
return `MaxOf(values[..])`, an upper bound that occurs in the array; it
has no `modifies` clause, so the array is only read. `StringUtils.isEmpty`
is proved to agree with the failure of `Ensure`'s string `isNotEmpty`.

## Model

| member | source | states |
|---|---|---|
| `Ensure.ObjectCondition.CheckIsNotNull` | src/main/java/edu/hm/hafner/util/Ensure.java:460-469 | the loop over the primary value and then each additional value returns exactly the outcome of `isNotNull`: a failure formatted from the explanation and args when any of them is null, otherwise normal return |
| `Ensure.ObjectCondition.CheckIsInstanceOf` | src/main/java/edu/hm/hafner/util/Ensure.java:512-522 | the default null check followed by the search of `[type] + additionalTypes`, with early return at the first matching type, returns exactly the outcome of `isInstanceOf` |
| `Ensure.StringCondition.CheckIsBlank` | src/main/java/edu/hm/hafner/util/Ensure.java:391-401 | the scan with early return yields true exactly when every character is whitespace (including the empty string) |
| `Ensure.ArrayCondition.CheckIsNotEmpty` | src/main/java/edu/hm/hafner/util/Ensure.java:289-302 | null check, length check and element scan in the source's order return exactly the outcome of the array `isNotEmpty` |
| `Ensure.IterableCondition.CheckIsNotEmpty` | src/main/java/edu/hm/hafner/util/Ensure.java:223-236 | null check, then an element scan when the iterator has a first element and a failure otherwise, return exactly the outcome of the iterable `isNotEmpty` |
| `EnsureProperties.BooleanChecks` | src/main/java/edu/hm/hafner/util/Ensure.java:582-626 | `isTrue` passes iff the value is true and `isFalse` iff it is false; a failure is formatted from the explanation and args, or from "Value is not TRUE" / "Value is not FALSE" with no args, and has no cause |
| `EnsureProperties.IsTrueIsFalseDual` | src/main/java/edu/hm/hafner/util/Ensure.java:582-616 | `isTrue` on a value has the same outcome as `isFalse` on its negation |
| `EnsureProperties.IsNotNullFailsIffSomeNull` | src/main/java/edu/hm/hafner/util/Ensure.java:442-469 | `isNotNull` fails iff the primary value or some additional value is null; the failure uses the explanation and args, or "Object is NULL" |
| `EnsureProperties.IsNullIgnoresAdditionalValues` | src/main/java/edu/hm/hafner/util/Ensure.java:477-499 | `isNull` fails iff the primary value is present, its outcome does not depend on the additional values, and its default message is "Object is not NULL" |
| `EnsureProperties.NullChecksAreExclusive` | src/main/java/edu/hm/hafner/util/Ensure.java:460-499 | `isNull` and `isNotNull` never both pass; without additional values exactly one of them passes |
| `EnsureProperties.ObjectConditionExamples` | src/test/java/edu/hm/hafner/util/EnsureTest.java:27-120 | `("")` and `("", "")` pass `isNotNull`, `(null, null)` passes `isNull`, `("")` and `("", "")` fail `isNull`, and `(null)`, `("", null)`, `(null, "")`, `(null, null)` fail `isNotNull` |
| `EnsureProperties.IsInstanceOfOutcome` | src/main/java/edu/hm/hafner/util/Ensure.java:512-522 | the type-list `isInstanceOf` passes iff the value and all additional values are present and the value is an instance of some listed type; a null fails with "Object is NULL", a mismatch with the wrong-type template and the args `[value, [type] + additionalTypes]` |
| `EnsureProperties.IsInstanceOfWithOutcome` | src/main/java/edu/hm/hafner/util/Ensure.java:541-547 | the explanation `isInstanceOf` passes iff all values are present and the value is an instance of the type; a null fails with the explanation and no args, a mismatch with the explanation and the args |
| `EnsureProperties.IsInstanceOfImpliesNotNull` | src/main/java/edu/hm/hafner/util/Ensure.java:512-513 | passing `isInstanceOf` implies passing `isNotNull` with any message |
| `EnsureProperties.IsInstanceOfExamples` | src/test/java/edu/hm/hafner/util/EnsureTest.java:33-200 | when `""` is a String and not an Integer, `isInstanceOf(String)` passes, `isInstanceOf(Integer, msg)` fails, and the failure of the message-format test is formatted from its template with the args "String.format" and 42 |
| `EnsureProperties.StringIsNotEmptyOutcome` | src/main/java/edu/hm/hafner/util/Ensure.java:330-355 | string `isNotEmpty` fails iff the string is null or has length 0; null fails with the explanation and no args, `""` with the explanation and args; the default message is "The string is empty or NULL" |
| `EnsureProperties.StringIsNotBlankOutcome` | src/main/java/edu/hm/hafner/util/Ensure.java:364-389 | `isNotBlank` fails iff the string is null or every character is whitespace; null fails with "Object is NULL" and no args, a blank string with the explanation and args |
| `EnsureProperties.EmptyStringIsBlank` | src/main/java/edu/hm/hafner/util/Ensure.java:391-394 | the empty string is blank, so `isNotBlank()` on it fails with "The string is blank" |
| `EnsureProperties.NotBlankImpliesNotEmpty` | src/main/java/edu/hm/hafner/util/Ensure.java:349-401 | a string passing `isNotBlank` passes `isNotEmpty`; a present non-empty string passes `isNotEmpty`, and passes `isNotBlank` iff some character is not whitespace |
| `EnsureProperties.StringConditionExamples` | src/test/java/edu/hm/hafner/util/EnsureTest.java:31-176 | `"-"` passes `isNotEmpty` and `isNotBlank`, `" "` fails `isNotBlank`, `""` and null fail `isNotEmpty` |
| `EnsureProperties.ArrayIsNotEmptyOutcome` | src/main/java/edu/hm/hafner/util/Ensure.java:268-302 | array `isNotEmpty` fails iff the array is null, empty, or holds a null element; null fails with the explanation and no args, the other cases with the explanation and args; the default message is "Array is empty or NULL" |
| `EnsureProperties.IterableIsNotEmptyOutcome` | src/main/java/edu/hm/hafner/util/Ensure.java:202-236 | iterable `isNotEmpty` fails iff the iterable is null, empty, or yields a null element, with the same messages as the array check and the default "Iterable is empty or NULL" |
| `EnsureProperties.ArrayAndIterableAgree` | src/main/java/edu/hm/hafner/util/Ensure.java:203-302 | the array and iterable `isNotEmpty` give the same outcome on the same elements; the three default emptiness messages are distinct |
| `EnsureProperties.ContainerExamples` | src/test/java/edu/hm/hafner/util/EnsureTest.java:30-152 | `[""]` passes; `["", null, ""]` fails as array and as iterable; `[]` and null fail |
| `EnsureProperties.IsNeverThrownAlwaysFails` | src/main/java/edu/hm/hafner/util/Ensure.java:664-666 | `isNeverThrown` always fails, formatted from the explanation and args, with the captured throwable as the cause |
| `EnsureProperties.NeverReachedAlwaysFails` | src/main/java/edu/hm/hafner/util/Ensure.java:125-169 | both `thatStatementIsNeverReached` forms always fail, the no-arg form with "This statement should never be reached."; `throwException` always fails without a cause |
| `MathUtils.Max` | src/main/java/edu/hm/hafner/util/MathUtils.java:13-19 | for a non-empty array the loop returns `MaxOf` of its contents, which is at least every element and equal to one of them; the array is not modified |
| `MathUtils.MaxOfIsUpperBound` | src/main/java/edu/hm/hafner/util/MathUtils.java:13-19 | the left fold of `Math.max` over a non-empty sequence is at least every element |
| `MathUtils.MaxOfIsElement` | src/main/java/edu/hm/hafner/util/MathUtils.java:14-17 | the left fold of `Math.max` over a non-empty sequence is one of its elements |
| `MathUtils.MaxWithSeveralValues` | src/test/java/edu/hm/hafner/util/MathUtilsTest.java:13-21 | `max(1, -2, 0)` returns 1 |
| `StringUtils.IsEmptyCases` | src/main/java/edu/hm/hafner/util/StringUtils.java:17-19 | `isEmpty(null)` and `isEmpty("")` hold; a string with at least one character is not empty |
| `StringUtils.IsEmptyAgreesWithEnsure` | src/main/java/edu/hm/hafner/util/StringUtils.java:17-19 | `isEmpty(s)` holds exactly when `Ensure.that(s).isNotEmpty(...)` fails, for the default and for any explanation and args |

## Left out

- Logging: the `AssertionFailedException` constructors write a warning record through `java.util.logging` (the constructor with a cause logs the cause rather than the exception itself); logging is an I/O side effect and is not modelled. The exception is only the `Fail(message, cause)` outcome.
- `String.format`: a foreign call, kept symbolic as `Formatted(template, args)`. Two different templates may format to the same text; the model does not see that.
- Inputs where the Java code raises an exception other than `AssertionFailedException`: a null `explanation` (`String.format(null, ...)` raises a `NullPointerException`, so e.g. `that((Object) null).isNotNull(null)` does); a null `type` reached in either `isInstanceOf` overload (a `NullPointerException` from calling `isInstance` on the null `type` or `clazz` reference once the not-null check passes; `Class.isInstance` itself returns false for a null argument); and a malformed template, e.g. `%d` given a String (`IllegalFormatConversionException`), an unknown conversion, or more specifiers than arguments (`MissingFormatArgumentException`, possible on the inner null checks that drop the args). The model's `explanation` is a non-null `string` and its `Class` is never null, and in the template cases its `Fail(Formatted(...), None)` stands in for the formatter's different exception.
- `Class.isInstance` and `Character.isWhitespace`: library behaviour, passed as parameters with no assumptions; the examples state the facts they need (`""` is a String, `' '` is whitespace) as preconditions.
- Static overload dispatch of `Ensure.that(...)`: Java overload resolution; each overload is the constructor of its own condition datatype.
- Iterable laziness: an iterable is the finite sequence it yields; iterator side effects and infinite iterables are not modelled.
- Aliasing of captured containers: `ArrayCondition` stores the caller's array, `ObjectCondition` its `additionalValues` array and `IterableCondition` its iterable, each without a copy, so a caller that mutates one between `that(...)` and the check changes the result; the model captures their contents as values, as they are when the check runs.
- A `null` varargs array, passed as `(Object[]) null`; the model's sequences are never null. For `args`, `String.format` treats a null array as all-null arguments, so the check still raises `AssertionFailedException`, with "null" printed for each specifier; the model does not represent a null `args` at all. For `additionalValues`, `isNotNull` and `isInstanceOf` raise a `NullPointerException` when the primary value is not null (the primary value is checked first), while `isNull` never reads them. For `additionalTypes`, `isInstanceOf` raises a `NullPointerException` from `Lists.asList`.
- Strings: Java strings are UTF-16 code units, Dafny strings are sequences of Unicode scalar values; the emptiness and blankness checks are unaffected because a surrogate pair is never whitespace and never empty.
- `MathUtils.Max`: requires at least one value, as its documentation demands; `MathUtils.max` raises an index-out-of-bounds error for an empty array and a `NullPointerException` for `null`, neither of which is modelled.
- `EuroConverter` (floating-point arithmetic), `PropertyChangeAware` and `IPropertyChangeAware` (delegation to `java.beans.PropertyChangeSupport`) are not part of this model; the `Singleton` class tested by `SingletonTest` is not part of this model.
