/** `StringUtils.isEmpty`: a null-or-empty test on strings. */
module StringUtils {
  import opened JavaObjects
  import Ensure

  predicate IsEmpty(value: Option<string>)
  {
    value.None? || |value.value| == 0
  }

  lemma IsEmptyCases(s: string)
    ensures IsEmpty(None)
    ensures IsEmpty(Some(""))
    ensures |s| >= 1 ==> !IsEmpty(Some(s))
  {
  }

  /** `isEmpty(s)` holds exactly when `Ensure.that(s).isNotEmpty(...)`
      fails, whatever explanation and arguments it is given. */
  lemma IsEmptyAgreesWithEnsure(value: Option<string>, explanation: string, args: Ensure.Args)
    ensures IsEmpty(value) <==> Ensure.StringCondition(value).IsNotEmptyWith(explanation, args).Fail?
    ensures IsEmpty(value) <==> Ensure.StringCondition(value).IsNotEmpty().Fail?
  {
  }
}
