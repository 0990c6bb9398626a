/**
 The choice-type names the parameters use, and the defaulting both
 parameter classes apply to the choice type given at construction.
 */
module ChoiceTypes {
  import opened Nullable
  import opened JavaStrings

  /** `PARAMETER_TYPE_SINGLE_SELECT` of the abstract base parameter class,
      which is not part of this model; its value is the plugin's. The proofs
      use only that it is not blank and is not `FormattedHtml`. */
  const SingleSelect: string := "PT_SINGLE_SELECT"

  /** The one choice type whose rendered form the reference parameter patches. */
  const FormattedHtml: string := "ET_FORMATTED_HTML"

  /** `StringUtils.defaultIfBlank(choiceType, PARAMETER_TYPE_SINGLE_SELECT)`:
      a null or blank choice type becomes the single-select type, any other
      one is stored verbatim. The stored type is therefore never null or
      blank, so comparing it with a constant cannot fail. */
  function ChoiceTypeOrDefault(choiceType: Option<string>): (r: string)
    ensures !IsBlank(Some(r))
    ensures IsBlank(choiceType) ==> r == SingleSelect
    ensures !IsBlank(choiceType) ==> Some(r) == choiceType
    ensures r == FormattedHtml ==> choiceType == Some(FormattedHtml)
  {
    assert !IsWhitespace(SingleSelect[0]);
    DefaultIfBlank(choiceType, SingleSelect)
  }
}
