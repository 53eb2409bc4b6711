/**
 * The dream-entry box of the main page: a text field, a character counter
 * and a submit button. Its text lives only in the component; nothing is
 * written to the browser store.
 */
module DreamInputComponent {

  import opened Wrappers
  import opened JsText
  import opened SubmitGuard

  class DreamInput {
    var dreamText: string
    const isLoading: bool

    constructor (isLoading: bool)
      ensures dreamText == "" && this.isLoading == isLoading
    {
      dreamText := "";
      this.isLoading := isLoading;
    }

    /** The field's `onChange`: the text becomes the new value. */
    method HandleChange(newText: string)
      modifies this
      ensures dreamText == newText
    {
      dreamText := newText;
    }

    /** `handleSubmit`: the argument `onSubmit` receives, or `None` when the click does nothing. */
    method HandleSubmit() returns (submitted: Option<string>)
      ensures submitted == SubmitArgument(dreamText)
      ensures submitted.Some? ==> JsLength(submitted.value) >= MinLength && Trim(submitted.value) == submitted.value
    {
      var text := dreamText;
      var trimmed := Trim(text);
      if JsLength(trimmed) < MinLength {
        return None;
      }
      submitted := Some(trimmed);
    }

    /** The submit button's `disabled` attribute. */
    function ButtonDisabled(): (d: bool)
      reads this
      ensures d <==> isLoading || SubmitArgument(dreamText).None?
    {
      SubmitDisabled(isLoading, dreamText)
    }

    /** The counter under the field: the untrimmed length in code units, never less than the trimmed one. */
    function CharacterCount(): (n: nat)
      reads this
      ensures n == JsLength(dreamText)
      ensures |dreamText| <= n <= 2 * |dreamText|
      ensures JsLength(Trim(dreamText)) <= n
    {
      TrimShortens(dreamText);
      JsLength(dreamText)
    }
  }
}
