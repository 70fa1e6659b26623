/** The Java values the contract checks look at. A Java reference may be
    null, which is modelled by `Option.None`; a check only ever inspects
    whether a value is present, its runtime class, and the characters or
    elements of strings, arrays and iterables. */
module JavaObjects {

  datatype Option<+T> = None | Some(value: T)

  /** A `java.lang.Class`, identified by its fully qualified name. */
  datatype Class = Class(name: string)

  /** A non-null Java object. */
  datatype Object =
    | Str(chars: string)                         // a java.lang.String
    | Int(intValue: int)                         // a boxed java.lang.Integer
    | ObjectArray(elements: seq<Option<Object>>) // an Object[]
    | Collection(elements: seq<Option<Object>>)  // an Iterable, as the finite sequence it yields
    | ClassList(classes: seq<Class>)             // a List<Class<?>>
    | Other(runtimeClass: Class, identity: nat)  // any other object, e.g. a Throwable

  /** Every element of `s` is a non-null reference. */
  predicate AllPresent<T>(s: seq<Option<T>>)
  {
    forall i :: 0 <= i < |s| ==> s[i].Some?
  }
}
