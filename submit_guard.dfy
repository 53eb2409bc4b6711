/**
 * The guard both dream-entry components put in front of `onSubmit`, and the
 * matching condition that disables their submit button.
 */
module SubmitGuard {

  import opened Wrappers
  import opened JsText

  /** Fewest UTF-16 code units a trimmed dream may have. */
  const MinLength := 10

  /**
   * What `handleSubmit` passes to `onSubmit`: the trimmed text, or nothing at
   * all when the trimmed text is shorter than the minimum.
   */
  function SubmitArgument(text: string): (arg: Option<string>)
    ensures arg.Some? <==> JsLength(Trim(text)) >= MinLength
    ensures arg.Some? ==> arg.value == Trim(text) && JsLength(arg.value) >= MinLength
    ensures arg.Some? ==> IsTrimmed(arg.value) && Trim(arg.value) == arg.value
  {
    var trimmed := Trim(text);
    if JsLength(trimmed) < MinLength then None
    else
      TrimIdempotent(text);
      Some(trimmed)
  }

  /** `disabled={isLoading || dreamText.trim().length < 10}` */
  function SubmitDisabled(isLoading: bool, text: string): bool
  {
    isLoading || JsLength(Trim(text)) < MinLength
  }

  /** The button is enabled exactly when it is not loading and a click would submit. */
  lemma DisabledIffSubmitIsNoOp(isLoading: bool, text: string)
    ensures SubmitDisabled(isLoading, text) <==> isLoading || SubmitArgument(text).None?
  {
  }

  /** A text shorter than ten code units is never submitted. */
  lemma ShortTextNeverSubmitted(text: string)
    requires JsLength(text) < MinLength
    ensures SubmitArgument(text) == None
  {
    TrimShortens(text);
  }
}
