/**
 * The main page: a three-state machine (entering text, waiting for the
 * analysis, showing the result) over the browser store.
 */
module IndexPage {

  import opened Wrappers
  import opened BrowserStorage
  import opened DreamService
  import SubmitGuard
  import DreamInputComponent

  /** `"input" | "processing" | "result"` */
  datatype AppState = Input | Processing | ShowingResult

  /** What the main area renders. */
  datatype Screen = EntryBox | ProcessingScreen | ResultCard(result: DreamAnalysisResult) | Nothing

  class Index {
    var appState: AppState
    var dreamResult: Option<DreamAnalysisResult>
    /**
     * The entry box currently mounted. It is rendered only in `input`, so
     * every return to `input` mounts a new, empty one.
     */
    var entry: DreamInputComponent.DreamInput
    /** Every state the page has been put in, oldest first. */
    ghost var shown: seq<AppState>

    /** A result is on hand whenever the page is in the result state. */
    ghost predicate Valid()
      reads this
    {
      && (appState == ShowingResult ==> dreamResult.Some?)
      && shown != [] && shown[|shown| - 1] == appState
      && !entry.isLoading
    }

    constructor ()
      ensures Valid()
      ensures appState == Input && dreamResult == None && shown == [Input]
      ensures fresh(entry) && entry.dreamText == ""
    {
      appState := Input;
      dreamResult := None;
      shown := [Input];
      entry := new DreamInputComponent.DreamInput(false);
    }

    method SetAppState(next: AppState)
      modifies this
      ensures appState == next && shown == old(shown) + [next]
      ensures dreamResult == old(dreamResult) && entry == old(entry)
    {
      appState := next;
      shown := shown + [next];
    }

    /**
     * The page and the store after `handleDreamSubmit(text)` from the given
     * store, result and history: the session id is taken from the old store,
     * the store is that store with the analysis effects carried out in order,
     * `processing` was shown before the final state, and the final state is
     * `result` with the returned record on success and `input` with the old
     * result on failure.
     */
    ghost predicate SubmittedFrom(before: map<string, string>, resultBefore: Option<DreamAnalysisResult>,
                                  shownBefore: seq<AppState>, items: map<string, string>,
                                  text: string, env: Environment, minted: Uuid)
      reads this
    {
      var minting := SessionIdOf(before, minted);
      var a := AnalyzeDreamSpec(text, minting.0, env);
      && items == Replay(minting.1, a.effects)
      && shown == shownBefore + [Processing, appState]
      && (a.outcome.Success? ==> appState == ShowingResult && dreamResult == Some(a.outcome.result))
      && (a.outcome.Failure? ==> appState == Input && dreamResult == resultBefore)
    }

    /**
     * `handleDreamSubmit`: show the processing screen, fetch the session id,
     * run the analysis, then show the result or go back to a new, empty
     * entry box.
     */
    method HandleDreamSubmit(store: LocalStorage, text: string, env: Environment, minted: Uuid)
      requires Valid()
      modifies this, store
      ensures Valid()
      ensures SubmittedFrom(old(store.items), old(dreamResult), old(shown), store.items, text, env, minted)
      ensures appState == Input ==> fresh(entry) && entry.dreamText == ""
      ensures appState != Input ==> entry == old(entry)
    {
      SetAppState(Processing);
      var sessionId := GetSessionId(store, minted);
      var outcome := AnalyzeDream(store, text, sessionId, env);
      match outcome {
        case Success(result) =>
          dreamResult := Some(result);
          SetAppState(ShowingResult);
        case Failure(_) =>
          SetAppState(Input);
          entry := new DreamInputComponent.DreamInput(false);
      }
    }

    /**
     * `handleReset`: forget the stored result and draft, drop the result,
     * return to a new, empty entry box.
     */
    method HandleReset(store: LocalStorage)
      requires Valid()
      modifies this, store
      ensures Valid()
      ensures store.items == old(store.items) - {ResultKey, DraftKey}
      ensures appState == Input && dreamResult == None && shown == old(shown) + [Input]
      ensures fresh(entry) && entry.dreamText == ""
    {
      ClearSavedResult(store);
      ClearSavedDreamText(store);
      dreamResult := None;
      SetAppState(Input);
      entry := new DreamInputComponent.DreamInput(false);
    }

    /** The main area: the entry box, the processing screen, or the result card. */
    function View(): (s: Screen)
      reads this
      ensures Valid() ==> !s.Nothing?
      ensures Valid() ==> (s.ResultCard? <==> appState == ShowingResult)
      ensures s.ResultCard? ==> dreamResult == Some(s.result)
      ensures appState == Input <==> s == EntryBox
      ensures appState == Processing <==> s == ProcessingScreen
    {
      match appState
      case Input => EntryBox
      case Processing => ProcessingScreen
      case ShowingResult => if dreamResult.Some? then ResultCard(dreamResult.value) else Nothing
    }

    /**
     * A click on the mounted entry box's button, which exists only in
     * `input`: a text too short once trimmed changes nothing at all;
     * otherwise the trimmed text is submitted, and a failure comes back to a
     * new, empty entry box.
     */
    method SubmitFromEntryBox(store: LocalStorage, env: Environment, minted: Uuid)
      requires Valid() && appState == Input
      modifies this, store
      ensures Valid()
      ensures match SubmitGuard.SubmitArgument(old(entry.dreamText))
              case None =>
                appState == old(appState) && dreamResult == old(dreamResult) && shown == old(shown)
                && entry == old(entry) && store.items == old(store.items)
              case Some(text) =>
                && SubmittedFrom(old(store.items), old(dreamResult), old(shown), store.items, text, env, minted)
                && (appState == Input ==> fresh(entry) && entry.dreamText == "")
                && (appState != Input ==> entry == old(entry))
    {
      var submitted := entry.HandleSubmit();
      if submitted.Some? {
        HandleDreamSubmit(store, submitted.value, env, minted);
      }
    }
  }
}
