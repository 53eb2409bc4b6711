/**
 * The dashboard's dream-entry panel. Unlike the main page's box it keeps
 * the draft in the browser store: it restores the draft when it mounts and
 * writes it back on every keystroke.
 */
module CommandCenterComponent {

  import opened Wrappers
  import opened JsText
  import opened BrowserStorage
  import opened SubmitGuard
  import DreamService

  class CommandCenter {
    var dreamText: string
    const isLoading: bool

    constructor (isLoading: bool)
      ensures dreamText == "" && this.isLoading == isLoading
    {
      dreamText := "";
      this.isLoading := isLoading;
    }

    /** The field shows exactly the draft the store holds. */
    predicate InSyncWith(store: LocalStorage)
      reads this, store
    {
      Lookup(store.items, DreamService.DraftKey) == Some(dreamText)
    }

    /** The mount effect: a saved, non-empty draft replaces the text; otherwise it is kept. */
    method RestoreDraft(store: LocalStorage)
      modifies this
      ensures match Lookup(store.items, DreamService.DraftKey)
              case Some(saved) => dreamText == (if saved != "" then saved else old(dreamText))
              case None => dreamText == old(dreamText)
      ensures Lookup(store.items, DreamService.DraftKey).Some? && old(dreamText) == "" ==> InSyncWith(store)
    {
      var saved := DreamService.GetSavedDreamText(store);
      if saved.Some? && saved.value != "" {
        dreamText := saved.value;
      }
    }

    /** `handleTextChange`: the field and the stored draft both become the new text, nothing else changes. */
    method HandleTextChange(store: LocalStorage, newText: string)
      modifies this, store
      ensures dreamText == newText
      ensures store.items == old(store.items)[DreamService.DraftKey := newText]
      ensures InSyncWith(store)
    {
      dreamText := newText;
      DreamService.SaveDreamText(store, newText);
    }

    /** `handleSubmit`: the argument `onSubmit` receives, or `None` when the click does nothing. */
    method HandleSubmit() returns (submitted: Option<string>)
      ensures submitted == SubmitArgument(dreamText)
      ensures submitted.Some? ==> JsLength(submitted.value) >= MinLength && Trim(submitted.value) == submitted.value
    {
      var text := dreamText;
      var trimmed := Trim(text);
      if JsLength(trimmed) < MinLength {
        return None;
      }
      submitted := Some(trimmed);
    }

    /** The Visualize button's `disabled` attribute. */
    function ButtonDisabled(): (d: bool)
      reads this
      ensures d <==> isLoading || SubmitArgument(dreamText).None?
    {
      SubmitDisabled(isLoading, dreamText)
    }

    /** The counter: the untrimmed length in code units, never less than the trimmed one. */
    function CharacterCount(): (n: nat)
      reads this
      ensures n == JsLength(dreamText)
      ensures |dreamText| <= n <= 2 * |dreamText|
      ensures JsLength(Trim(dreamText)) <= n
    {
      TrimShortens(dreamText);
      JsLength(dreamText)
    }
  }

  /**
   * Mounting a fresh panel over a store: the text is the saved draft when one
   * exists and is non-empty, and empty otherwise.
   */
  method Mount(store: LocalStorage, isLoading: bool) returns (panel: CommandCenter)
    ensures fresh(panel) && panel.isLoading == isLoading
    ensures panel.dreamText == match Lookup(store.items, DreamService.DraftKey)
                               case Some(saved) => saved
                               case None => ""
  {
    panel := new CommandCenter(isLoading);
    panel.RestoreDraft(store);
  }
}
