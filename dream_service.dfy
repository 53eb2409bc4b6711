/**
 * The dream service: the rate-limit gate, the browser-storage helpers for
 * the session id, the draft and the last result, and the control flow of
 * one analysis request.
 *
 * Everything the service asks of the outside world is an input here: the
 * signed-in user, the profile row the backend returns, the current time in
 * milliseconds, what the network call produced, and the token
 * `crypto.randomUUID` returned.  The writes to the browser store are real
 * updates of a `LocalStorage` object; the backend writes appear in the trace
 * of effects that `AnalyzeDreamSpec` returns.
 */
module DreamService {

  import opened Wrappers
  import opened JsText
  import Json
  import opened BrowserStorage

  // ---------------------------------------------------------------------------
  // Data model

  /** The record shown to the user and kept in the browser for recovery. */
  datatype DreamAnalysisResult = DreamAnalysisResult(
    id: Option<string>,
    title: string,
    hookText: string,
    fullAnalysis: string,
    imageUrl: string)

  /** What `crypto.randomUUID` returns: 36 characters, never empty. */
  type Uuid = s: string | |s| == 36 witness "00000000-0000-0000-0000-000000000000"

  const SessionKey := "visura_session_id"
  const DraftKey := "current_dream_text"
  const ResultKey := "current_dream_result"

  // ---------------------------------------------------------------------------
  // Rate-limit gate

  const HourMs: nat := 3_600_000
  const DayMs: nat := 86_400_000

  /** `last_generation_date` once read: null or empty, a string `Date` cannot parse, or an instant. */
  datatype LastGeneration = NoDate | InvalidDate | At(ms: int)

  datatype Profile = Profile(isPro: bool, lastGenerationDate: LastGeneration)

  /** The outcome of reading the user's profile row. */
  datatype ProfileFetch = FetchFailed | NoProfile | Found(profile: Profile)

  datatype RateLimitError = RateLimitError(hoursRemaining: nat, message: string)

  datatype GateDecision = Allowed | Rejected(error: RateLimitError)

  const MessageHead := "You've used your free dream for today. Come back in "
  const MessageTail := " or upgrade to Pro for unlimited dreams."

  function RateLimitMessage(hours: nat): string
  {
    MessageHead + NatToString(hours) + " hour" + (if hours != 1 then "s" else "") + MessageTail
  }

  /** Whole hours left in the 24-hour window: the least h with h hours covering the time left. */
  function HoursRemaining(elapsed: int): (h: nat)
    requires elapsed < DayMs
    ensures h >= 1
    ensures (h - 1) * HourMs < DayMs - elapsed <= h * HourMs
  {
    (DayMs - elapsed + HourMs - 1) / HourMs
  }

  /**
   * `checkUserLimit`: a failed read, a missing row, a pro user, a row without
   * a usable date and a free user whose last generation is at least 24 hours
   * old are all let through; only a free user inside the window is refused.
   */
  function CheckUserLimit(fetch: ProfileFetch, now: int): (d: GateDecision)
    ensures d.Rejected? <==>
      && fetch.Found?
      && !fetch.profile.isPro
      && fetch.profile.lastGenerationDate.At?
      && now - fetch.profile.lastGenerationDate.ms < DayMs
    ensures d.Rejected? ==>
      var elapsed := now - fetch.profile.lastGenerationDate.ms;
      && d.error.hoursRemaining >= 1
      && (d.error.hoursRemaining - 1) * HourMs < DayMs - elapsed <= d.error.hoursRemaining * HourMs
      && d.error.message == RateLimitMessage(d.error.hoursRemaining)
  {
    match fetch
    case FetchFailed => Allowed
    case NoProfile => Allowed
    case Found(profile) =>
      if profile.isPro then Allowed
      else match profile.lastGenerationDate
        case NoDate => Allowed
        case InvalidDate => Allowed
        case At(last) =>
          var elapsed := now - last;
          if elapsed < DayMs then
            var hours := HoursRemaining(elapsed);
            Rejected(RateLimitError(hours, RateLimitMessage(hours)))
          else Allowed
  }

  /** With a last generation that is not in the future, the wait is between 1 and 24 hours. */
  lemma HoursRemainingAtMostADay(elapsed: int)
    requires 0 <= elapsed < DayMs
    ensures 1 <= HoursRemaining(elapsed) <= 24
  {
    var h := HoursRemaining(elapsed);
    assert (h - 1) * HourMs < 24 * HourMs;
  }

  /**
   * At exactly 24 hours a free user is let through; at 23.99 hours one hour
   * is left; two hours after a generation 22 hours are left.
   */
  lemma GateBoundaries(last: int)
    ensures CheckUserLimit(Found(Profile(false, At(last))), last + DayMs) == Allowed
    ensures CheckUserLimit(Found(Profile(false, At(last))), last + DayMs - 36_000)
              == Rejected(RateLimitError(1, RateLimitMessage(1)))
    ensures CheckUserLimit(Found(Profile(false, At(last))), last + 2 * HourMs)
              == Rejected(RateLimitError(22, RateLimitMessage(22)))
  {
  }

  /** The unit that follows the count: "hour", with an "s" unless the count is one. */
  function HourUnit(hours: nat): string
  {
    " hour" + (if hours != 1 then "s" else "")
  }

  lemma RateLimitMessageParts(hours: nat)
    ensures RateLimitMessage(hours) == MessageHead + (NatToString(hours) + (HourUnit(hours) + MessageTail))
  {
  }

  /** The message names the unit in the singular exactly when one hour is left. */
  lemma RateLimitMessagePlural(hours: nat)
    ensures var m := RateLimitMessage(hours);
            var k := |MessageHead| + |NatToString(hours)|;
            && k + 6 <= |m|
            && m[k..k + 5] == " hour"
            && (m[k + 5] == 's' <==> hours != 1)
  {
    RateLimitMessageParts(hours);
    UnitAt(MessageHead, NatToString(hours), HourUnit(hours), MessageTail);
  }

  lemma UnitAt(head: string, digits: string, unit: string, tail: string)
    requires |unit| >= 5 && |tail| >= 1
    ensures var m := head + (digits + (unit + tail));
            var k := |head| + |digits|;
            && k + 6 <= |m|
            && m[k..k + 5] == unit[..5]
            && m[k + 5] == (unit + tail)[5]
  {
    var m := head + (digits + (unit + tail));
    var k := |head| + |digits|;
    assert m[k..] == unit + tail;
  }

  /** Two decimal numerals each followed by a non-digit split only one way. */
  lemma DigitPrefixUnique(d1: string, x1: string, d2: string, x2: string)
    requires IsDigits(d1) && IsDigits(d2)
    requires x1 != [] && !IsDigit(x1[0]) && x2 != [] && !IsDigit(x2[0])
    requires d1 + x1 == d2 + x2
    ensures d1 == d2
  {
    var s := d1 + x1;
    assert !IsDigit(s[|d1|]);
    assert !IsDigit(s[|d2|]);
    assert forall i :: 0 <= i < |d1| ==> IsDigit(s[i]);
    assert forall i :: 0 <= i < |d2| ==> IsDigit(s[i]);
    assert |d1| == |d2|;
    assert d1 == s[..|d1|];
    assert d2 == s[..|d2|];
  }

  lemma CancelHead(head: string, x: string, y: string)
    requires head + x == head + y
    ensures x == y
  {
    assert x == (head + x)[|head|..];
    assert y == (head + y)[|head|..];
  }

  /** The message determines the hour count it was built from. */
  lemma RateLimitMessageInjective(a: nat, b: nat)
    requires RateLimitMessage(a) == RateLimitMessage(b)
    ensures a == b
  {
    RateLimitMessageParts(a);
    RateLimitMessageParts(b);
    var xa := HourUnit(a) + MessageTail;
    var xb := HourUnit(b) + MessageTail;
    CancelHead(MessageHead, NatToString(a) + xa, NatToString(b) + xb);
    DigitPrefixUnique(NatToString(a), xa, NatToString(b), xb);
    NatToStringInjective(a, b);
  }

  // ---------------------------------------------------------------------------
  // The stored result: `JSON.stringify` on the way in, `JSON.parse` on the way out

  function Member(name: string, value: string): string
  {
    "\"" + name + "\":" + Json.Quote(value)
  }

  /** The `id` member, which `JSON.stringify` leaves out when the id is undefined. */
  function IdMember(id: Option<string>): string
  {
    match id
    case None => ""
    case Some(i) => Member("id", i) + ","
  }

  /** The text `JSON.stringify` produces for a result, members in declaration order. */
  function SerializeResult(r: DreamAnalysisResult): string
  {
    "{" + (IdMember(r.id) + (Member("title", r.title)
      + ("," + Member("hook_text", r.hookText)
      + ("," + Member("full_analysis", r.fullAnalysis)
      + ("," + Member("image_url", r.imageUrl) + "}")))))
  }

  /** The text after `lit`, when `t` starts with it. */
  function Expect(lit: string, t: string): (r: Option<string>)
    ensures r.Some? <==> |lit| <= |t| && t[..|lit|] == lit
    ensures r.Some? ==> t == lit + r.value
  {
    if |lit| <= |t| && t[..|lit|] == lit then Some(t[|lit|..]) else None
  }

  function ParseMember(name: string, t: string): Option<(string, string)>
  {
    match Expect("\"" + name + "\":", t)
    case None => None
    case Some(t') => Json.ParseString(t')
  }

  function ParseNextMember(name: string, t: string): Option<(string, string)>
  {
    match Expect(",", t)
    case None => None
    case Some(t') => ParseMember(name, t')
  }

  function ParseIdMember(t: string): Option<(Option<string>, string)>
  {
    if Expect("\"id\":", t).None? then Some((None, t))
    else match ParseMember("id", t)
      case None => None
      case Some((id, t')) =>
        match Expect(",", t')
        case None => None
        case Some(t'') => Some((Some(id), t''))
  }

  /**
   * `JSON.parse` of a stored result, read in the layout `SerializeResult`
   * writes; any other text reads as unusable.
   */
  function ParseResult(t: string): Option<DreamAnalysisResult>
  {
    match Expect("{", t)
    case None => None
    case Some(t0) =>
      match ParseIdMember(t0)
      case None => None
      case Some((id, t1)) =>
        match ParseMember("title", t1)
        case None => None
        case Some((title, t2)) =>
          match ParseNextMember("hook_text", t2)
          case None => None
          case Some((hook, t3)) =>
            match ParseNextMember("full_analysis", t3)
            case None => None
            case Some((full, t4)) =>
              match ParseNextMember("image_url", t4)
              case None => None
              case Some((image, t5)) =>
                if t5 == "}" then Some(DreamAnalysisResult(id, title, hook, full, image)) else None
  }

  lemma ParseMemberRoundTrip(name: string, value: string, rest: string)
    ensures ParseMember(name, Member(name, value) + rest) == Some((value, rest))
    ensures ParseNextMember(name, "," + Member(name, value) + rest) == Some((value, rest))
  {
    var lit := "\"" + name + "\":";
    assert Member(name, value) + rest == lit + (Json.Quote(value) + rest);
    assert Expect(lit, lit + (Json.Quote(value) + rest)) == Some(Json.Quote(value) + rest);
    Json.QuoteRoundTrip(value, rest);
    assert "," + Member(name, value) + rest == "," + (Member(name, value) + rest);
    assert Expect(",", "," + (Member(name, value) + rest)) == Some(Member(name, value) + rest);
  }

  lemma ParseIdMemberRoundTrip(id: Option<string>, after: string)
    requires |after| >= 2 && after[1] == 't'
    ensures ParseIdMember(IdMember(id) + after) == Some((id, after))
  {
    match id
    case None =>
      assert IdMember(id) + after == after;
    case Some(i) =>
      assert IdMember(id) + after == Member("id", i) + ("," + after);
      ParseMemberRoundTrip("id", i, "," + after);
      assert Expect(",", "," + after) == Some(after);
  }

  /** Saving a result and reading it back gives the same record (the JSON round trip). */
  lemma SerializeResultRoundTrip(r: DreamAnalysisResult)
    ensures ParseResult(SerializeResult(r)) == Some(r)
  {
    var m4 := Member("image_url", r.imageUrl);
    var t4 := "," + m4 + "}";
    var m3 := Member("full_analysis", r.fullAnalysis);
    var t3 := "," + m3 + t4;
    var m2 := Member("hook_text", r.hookText);
    var t2 := "," + m2 + t3;
    var t1 := Member("title", r.title) + t2;
    var t0 := IdMember(r.id) + t1;
    assert SerializeResult(r) == "{" + t0;
    assert Expect("{", "{" + t0) == Some(t0);
    assert t1[1] == 't';
    ParseIdMemberRoundTrip(r.id, t1);
    ParseMemberRoundTrip("title", r.title, t2);
    ParseMemberRoundTrip("hook_text", r.hookText, t3);
    ParseMemberRoundTrip("full_analysis", r.fullAnalysis, t4);
    ParseMemberRoundTrip("image_url", r.imageUrl, "}");
    assert ParseIdMember(t0) == Some((r.id, t1));
    assert ParseMember("title", t1) == Some((r.title, t2));
    assert ParseNextMember("hook_text", t2) == Some((r.hookText, t3));
    assert ParseNextMember("full_analysis", t3) == Some((r.fullAnalysis, t4));
    assert ParseNextMember("image_url", t4) == Some((r.imageUrl, "}"));
  }

  // ---------------------------------------------------------------------------
  // Browser-storage helpers

  /** `getSessionId` on a snapshot of the store: the id it returns and the store afterwards. */
  function SessionIdOf(items: map<string, string>, minted: Uuid): (r: (string, map<string, string>))
    ensures r.0 != ""
    ensures Lookup(r.1, SessionKey) == Some(r.0)
    ensures r.1 - {SessionKey} == items - {SessionKey}
    ensures Lookup(items, SessionKey).Some? && items[SessionKey] != "" ==> r == (items[SessionKey], items)
    ensures Lookup(items, SessionKey).None? || items[SessionKey] == "" ==> r.0 == minted
  {
    if SessionKey in items && items[SessionKey] != "" then (items[SessionKey], items)
    else (minted, items[SessionKey := minted])
  }

  /** Once an id is stored, later calls return it whatever token they would have minted. */
  lemma SessionIdStable(items: map<string, string>, first: Uuid, second: Uuid)
    ensures var (id, after) := SessionIdOf(items, first);
            SessionIdOf(after, second) == (id, after)
  {
  }

  /** `getSessionId`: reuse the stored id, or store and return a freshly minted one. */
  method GetSessionId(store: LocalStorage, minted: Uuid) returns (id: string)
    modifies store
    ensures (id, store.items) == SessionIdOf(old(store.items), minted)
  {
    var stored := store.GetItem(SessionKey);
    if stored.None? || stored.value == "" {
      id := minted;
      store.SetItem(SessionKey, id);
    } else {
      id := stored.value;
    }
  }

  method SaveDreamText(store: LocalStorage, text: string)
    modifies store
    ensures store.items == old(store.items)[DraftKey := text]
  {
    store.SetItem(DraftKey, text);
  }

  method GetSavedDreamText(store: LocalStorage) returns (text: Option<string>)
    ensures text == Lookup(store.items, DraftKey)
  {
    text := store.GetItem(DraftKey);
  }

  method ClearSavedDreamText(store: LocalStorage)
    modifies store
    ensures store.items == old(store.items) - {DraftKey}
  {
    store.RemoveItem(DraftKey);
  }

  method SaveDreamResult(store: LocalStorage, result: DreamAnalysisResult)
    modifies store
    ensures store.items == old(store.items)[ResultKey := SerializeResult(result)]
  {
    store.SetItem(ResultKey, SerializeResult(result));
  }

  /** What `getSavedDreamResult` yields: null, the parsed record, or a `JSON.parse` failure. */
  datatype SavedResult = NoSavedResult | Restored(result: DreamAnalysisResult) | Unparseable

  /** `getSavedDreamResult` on a snapshot: a missing or empty entry reads as null. */
  function SavedDreamResult(items: map<string, string>): (s: SavedResult)
    ensures s.NoSavedResult? <==> Lookup(items, ResultKey).None? || items[ResultKey] == ""
    ensures s.Restored? ==> ParseResult(items[ResultKey]) == Some(s.result)
    ensures !s.NoSavedResult? ==> (s.Restored? <==> ParseResult(items[ResultKey]).Some?)
  {
    if ResultKey !in items || items[ResultKey] == "" then NoSavedResult
    else match ParseResult(items[ResultKey])
      case Some(r) => Restored(r)
      case None => Unparseable
  }

  method GetSavedDreamResult(store: LocalStorage) returns (saved: SavedResult)
    ensures saved == SavedDreamResult(store.items)
  {
    var text := store.GetItem(ResultKey);
    if text.None? || text.value == "" {
      saved := NoSavedResult;
    } else {
      match ParseResult(text.value)
      case Some(r) =>
        saved := Restored(r);
      case None =>
        saved := Unparseable;
    }
  }

  method ClearSavedResult(store: LocalStorage)
    modifies store
    ensures store.items == old(store.items) - {ResultKey}
  {
    store.RemoveItem(ResultKey);
  }

  /** Reading the result back after saving it gives the saved record. */
  lemma SaveThenGetResult(items: map<string, string>, result: DreamAnalysisResult)
    ensures SavedDreamResult(items[ResultKey := SerializeResult(result)]) == Restored(result)
  {
    SerializeResultRoundTrip(result);
  }

  // ---------------------------------------------------------------------------
  // One analysis request

  /** The `data` object of the webhook's reply; `interpretation_full` may be absent. */
  datatype ApiData = ApiData(title: string, hook: string, interpretationFull: Option<string>, imageUrl: string)

  datatype ApiResponse = ApiResponse(success: bool, data: Option<ApiData>)

  /** What `response.json()` gave: the parsed reply, or the `SyntaxError` it threw. */
  datatype ReplyBody = Parsed(reply: ApiResponse) | NotJson(syntaxError: string)

  /**
   * How the webhook call ended: aborted by the 120-second timer, rejected by
   * `fetch` itself, or answered with a status and a body that `response.json()`
   * either parsed or could not parse.
   */
  datatype NetworkOutcome =
    | Aborted
    | FetchRejected(reason: string)
    | Responded(status: nat, statusText: string, body: ReplyBody)

  /** Whether the profile update reported an error; the service only logs it. */
  datatype ProfileWrite = Written | WriteFailed

  /** Everything `analyzeDream` learns from outside the browser store. */
  datatype Environment = Environment(
    user: Option<string>,
    profile: ProfileFetch,
    now: int,
    network: NetworkOutcome,
    minted: Uuid,
    timestampWrite: ProfileWrite)

  /** The JSON body posted to the webhook: `user_id` is null for a guest. */
  datatype ApiRequest = ApiRequest(text: string, sessionId: string, userId: Option<string>)

  /** The ways `analyzeDream` rejects. */
  datatype AnalysisError =
    | RateLimited(limit: RateLimitError)
    | TimedOut
    | HttpError(status: nat, statusText: string)
    | InvalidFormat
    | NetworkFailure(reason: string)
    | BodyNotJson(syntaxError: string)

  datatype Outcome = Success(result: DreamAnalysisResult) | Failure(error: AnalysisError)

  /** A side effect of `analyzeDream`, in the order it happens. */
  datatype Effect =
    | DraftSaved(text: string)
    | LimitChecked(userId: string)
    | RequestSent(request: ApiRequest)
    | ResultSaved(result: DreamAnalysisResult)
    | TimestampUpdated(userId: string)

  datatype Analysis = Analysis(outcome: Outcome, effects: seq<Effect>)

  /** The message each error carries. */
  function ErrorMessage(e: AnalysisError): string
  {
    match e
    case RateLimited(limit) => limit.message
    case TimedOut => "Request timed out. The AI is taking longer than expected. Please try again."
    case HttpError(status, statusText) => "API error: " + NatToString(status) + " " + statusText
    case InvalidFormat => "Invalid API response format"
    case NetworkFailure(reason) => reason
    case BodyNotJson(syntaxError) => syntaxError
  }

  /** An HTTP failure's message determines the status and status text it reports. */
  lemma HttpErrorMessageInjective(a: nat, textA: string, b: nat, textB: string)
    requires ErrorMessage(HttpError(a, textA)) == ErrorMessage(HttpError(b, textB))
    ensures a == b && textA == textB
  {
    var head := "API error: ";
    var xa, xb := " " + textA, " " + textB;
    assert ErrorMessage(HttpError(a, textA)) == head + (NatToString(a) + xa);
    assert ErrorMessage(HttpError(b, textB)) == head + (NatToString(b) + xb);
    CancelHead(head, NatToString(a) + xa, NatToString(b) + xb);
    DigitPrefixUnique(NatToString(a), xa, NatToString(b), xb);
    NatToStringInjective(a, b);
    CancelHead(NatToString(a), xa, xb);
    CancelHead(" ", textA, textB);
  }

  /** `response.ok`: a status in the 2xx range. */
  predicate IsOk(status: nat)
  {
    200 <= status <= 299
  }

  /** JavaScript truthiness of an optional string: present and non-empty. */
  predicate Truthy(s: Option<string>)
  {
    s.Some? && s.value != ""
  }

  /** The record built from a valid reply; the full analysis falls back to the hook. */
  function MapResponse(data: ApiData, minted: Uuid): (r: DreamAnalysisResult)
    ensures r.id == Some(minted)
    ensures r.title == data.title && r.hookText == data.hook && r.imageUrl == data.imageUrl
    ensures Truthy(data.interpretationFull) ==> r.fullAnalysis == data.interpretationFull.value
    ensures !Truthy(data.interpretationFull) ==> r.fullAnalysis == data.hook
  {
    DreamAnalysisResult(
      Some(minted),
      data.title,
      data.hook,
      if Truthy(data.interpretationFull) then data.interpretationFull.value else data.hook,
      data.imageUrl)
  }

  /**
   * `analyzeDream` as a value: its outcome and the effects it causes, in order.
   * The draft is saved first; a signed-in user's profile is read and the gate
   * applied; the webhook is called; the reply is checked and mapped; the result
   * is saved; and a signed-in user's generation date is written last.
   */
  function AnalyzeDreamSpec(text: string, sessionId: string, env: Environment): Analysis
  {
    var saved := [DraftSaved(text)];
    var checked := if env.user.Some? then saved + [LimitChecked(env.user.value)] else saved;
    var gate := if env.user.Some? then CheckUserLimit(env.profile, env.now) else Allowed;
    if gate.Rejected? then Analysis(Failure(RateLimited(gate.error)), checked)
    else
      var sent := checked + [RequestSent(ApiRequest(text, sessionId, env.user))];
      match env.network
      case Aborted => Analysis(Failure(TimedOut), sent)
      case FetchRejected(reason) => Analysis(Failure(NetworkFailure(reason)), sent)
      case Responded(status, statusText, body) =>
        if !IsOk(status) then Analysis(Failure(HttpError(status, statusText)), sent)
        else if body.NotJson? then Analysis(Failure(BodyNotJson(body.syntaxError)), sent)
        else if !body.reply.success || body.reply.data.None? then Analysis(Failure(InvalidFormat), sent)
        else
          var result := MapResponse(body.reply.data.value, env.minted);
          var stored := sent + [ResultSaved(result)];
          Analysis(Success(result), if env.user.Some? then stored + [TimestampUpdated(env.user.value)] else stored)
  }

  /** What one effect does to the browser store; backend effects leave it alone. */
  function ApplyEffect(items: map<string, string>, e: Effect): map<string, string>
  {
    match e
    case DraftSaved(text) => items[DraftKey := text]
    case ResultSaved(result) => items[ResultKey := SerializeResult(result)]
    case _ => items
  }

  /** The browser store after a sequence of effects. */
  function Replay(items: map<string, string>, effects: seq<Effect>): map<string, string>
    decreases |effects|
  {
    if effects == [] then items else Replay(ApplyEffect(items, effects[0]), effects[1..])
  }

  /** Effects that do not touch `key` leave its entry as it was. */
  lemma {:induction false} ReplayKeeps(items: map<string, string>, effects: seq<Effect>, key: string)
    requires key == DraftKey ==> forall e :: e in effects ==> !e.DraftSaved?
    requires key == ResultKey ==> forall e :: e in effects ==> !e.ResultSaved?
    ensures Lookup(Replay(items, effects), key) == Lookup(items, key)
    decreases |effects|
  {
    if effects != [] {
      assert effects[0] in effects;
      assert forall e :: e in effects[1..] ==> e in effects;
      ReplayKeeps(ApplyEffect(items, effects[0]), effects[1..], key);
    }
  }

  /** `analyzeDream`: the effects of `AnalyzeDreamSpec`, carried out on the browser store in order. */
  method AnalyzeDream(store: LocalStorage, text: string, sessionId: string, env: Environment)
    returns (outcome: Outcome)
    modifies store
    ensures outcome == AnalyzeDreamSpec(text, sessionId, env).outcome
    ensures store.items == Replay(old(store.items), AnalyzeDreamSpec(text, sessionId, env).effects)
  {
    // `trace` is the list of effects so far; the store always equals its replay.
    ghost var trace: seq<Effect> := [DraftSaved(text)];
    SaveDreamText(store, text);
    assert [DraftSaved(text)][1..] == [];
    if env.user.Some? {
      var gate := CheckUserLimit(env.profile, env.now);
      ReplayAppend(old(store.items), trace, LimitChecked(env.user.value));
      trace := trace + [LimitChecked(env.user.value)];
      if gate.Rejected? {
        return Failure(RateLimited(gate.error));
      }
    }
    ReplayAppend(old(store.items), trace, RequestSent(ApiRequest(text, sessionId, env.user)));
    trace := trace + [RequestSent(ApiRequest(text, sessionId, env.user))];
    match env.network {
      case Aborted =>
        return Failure(TimedOut);
      case FetchRejected(reason) =>
        return Failure(NetworkFailure(reason));
      case Responded(status, statusText, body) =>
        if !IsOk(status) {
          return Failure(HttpError(status, statusText));
        }
        if body.NotJson? {
          return Failure(BodyNotJson(body.syntaxError));
        }
        if !body.reply.success || body.reply.data.None? {
          return Failure(InvalidFormat);
        }
        var result := MapResponse(body.reply.data.value, env.minted);
        SaveDreamResult(store, result);
        ReplayAppend(old(store.items), trace, ResultSaved(result));
        trace := trace + [ResultSaved(result)];
        if env.user.Some? {
          // The profile write: its failure is logged and swallowed, so it cannot fail the call.
          ReplayAppend(old(store.items), trace, TimestampUpdated(env.user.value));
          trace := trace + [TimestampUpdated(env.user.value)];
        }
        return Success(result);
    }
  }

  lemma {:induction false} ReplayAppend(items: map<string, string>, effects: seq<Effect>, e: Effect)
    ensures Replay(items, effects + [e]) == ApplyEffect(Replay(items, effects), e)
    decreases |effects|
  {
    if effects == [] {
      assert effects + [e] == [e];
      assert [e][1..] == [];
    } else {
      assert (effects + [e])[1..] == effects[1..] + [e];
      ReplayAppend(ApplyEffect(items, effects[0]), effects[1..], e);
    }
  }

  /** The draft is written before anything else and nothing later overwrites or removes it. */
  lemma AnalyzeDreamSavesDraftFirst(text: string, sessionId: string, env: Environment, items: map<string, string>)
    ensures var a := AnalyzeDreamSpec(text, sessionId, env);
            && a.effects != [] && a.effects[0] == DraftSaved(text)
            && (forall i :: 0 < i < |a.effects| ==> !a.effects[i].DraftSaved?)
            && Lookup(Replay(items, a.effects), DraftKey) == Some(text)
  {
    var a := AnalyzeDreamSpec(text, sessionId, env);
    var rest := a.effects[1..];
    assert forall e :: e in rest ==> !e.DraftSaved?;
    ReplayKeeps(items[DraftKey := text], rest, DraftKey);
  }

  /**
   * The gate runs only for a signed-in user and before the request; a
   * rejection happens exactly when the gate refuses, and then nothing is sent.
   */
  lemma AnalyzeDreamGatesBeforeRequest(text: string, sessionId: string, env: Environment)
    ensures var a := AnalyzeDreamSpec(text, sessionId, env);
            var requestAt := if env.user.Some? then 2 else 1;
            && (env.user.Some? ==> |a.effects| >= 2 && a.effects[1] == LimitChecked(env.user.value))
            && (env.user.None? ==> forall e :: e in a.effects ==> !e.LimitChecked?)
            && (forall i :: 0 <= i < |a.effects| && a.effects[i].RequestSent? ==>
                  i == requestAt && a.effects[i].request == ApiRequest(text, sessionId, env.user))
            && ((a.outcome.Failure? && a.outcome.error.RateLimited?) <==>
                  env.user.Some? && CheckUserLimit(env.profile, env.now).Rejected?)
            && (a.outcome.Failure? && a.outcome.error.RateLimited? ==> forall e :: e in a.effects ==> !e.RequestSent?)
  {
  }

  /**
   * A result is saved exactly when the call succeeds, and reads back as the
   * returned record; on every failure the stored result is left as it was.
   */
  lemma AnalyzeDreamSavesResultOnSuccess(text: string, sessionId: string, env: Environment, items: map<string, string>)
    ensures var a := AnalyzeDreamSpec(text, sessionId, env);
            && (a.outcome.Success? <==> exists e :: e in a.effects && e.ResultSaved?)
            && (a.outcome.Success? ==> SavedDreamResult(Replay(items, a.effects)) == Restored(a.outcome.result))
            && (a.outcome.Failure? ==> Lookup(Replay(items, a.effects), ResultKey) == Lookup(items, ResultKey))
  {
    var a := AnalyzeDreamSpec(text, sessionId, env);
    if a.outcome.Success? {
      SuccessSavesResult(text, sessionId, env, items);
    } else {
      FailureSavesNoResult(text, sessionId, env);
      ReplayKeeps(items, a.effects, ResultKey);
    }
  }

  /** The effects before the request: the draft, then the limit check for a signed-in user. */
  function EffectsBeforeRequest(text: string, env: Environment): seq<Effect>
  {
    if env.user.Some? then [DraftSaved(text), LimitChecked(env.user.value)] else [DraftSaved(text)]
  }

  lemma SuccessSavesResult(text: string, sessionId: string, env: Environment, items: map<string, string>)
    requires AnalyzeDreamSpec(text, sessionId, env).outcome.Success?
    ensures var a := AnalyzeDreamSpec(text, sessionId, env);
            && ResultSaved(a.outcome.result) in a.effects
            && SavedDreamResult(Replay(items, a.effects)) == Restored(a.outcome.result)
  {
    var a := AnalyzeDreamSpec(text, sessionId, env);
    var r := a.outcome.result;
    var sent := EffectsBeforeRequest(text, env) + [RequestSent(ApiRequest(text, sessionId, env.user))];
    var stored := sent + [ResultSaved(r)];
    assert a.effects == if env.user.Some? then stored + [TimestampUpdated(env.user.value)] else stored;
    assert stored[|sent|] == ResultSaved(r);
    ReplayAppend(items, sent, ResultSaved(r));
    if env.user.Some? {
      ReplayAppend(items, stored, TimestampUpdated(env.user.value));
      assert a.effects[|sent|] == ResultSaved(r);
    }
    SaveThenGetResult(Replay(items, sent), r);
  }

  lemma FailureSavesNoResult(text: string, sessionId: string, env: Environment)
    requires AnalyzeDreamSpec(text, sessionId, env).outcome.Failure?
    ensures forall e :: e in AnalyzeDreamSpec(text, sessionId, env).effects ==> !e.ResultSaved?
  {
  }

  /**
   * The generation date is written only for a signed-in user and only after a
   * successful mapping, as the last step after the result is saved; whether
   * that write fails makes no difference to the outcome.
   */
  lemma AnalyzeDreamUpdatesTimestamp(text: string, sessionId: string, env: Environment, userId: string, write: ProfileWrite)
    ensures var a := AnalyzeDreamSpec(text, sessionId, env);
            && (TimestampUpdated(userId) in a.effects <==> env.user == Some(userId) && a.outcome.Success?)
            && (env.user.Some? && a.outcome.Success? ==>
                  |a.effects| >= 2
                  && a.effects[|a.effects| - 1] == TimestampUpdated(env.user.value)
                  && a.effects[|a.effects| - 2] == ResultSaved(a.outcome.result))
            && AnalyzeDreamSpec(text, sessionId, env.(timestampWrite := write)) == a
  {
  }

  /**
   * Once the gate lets the call through, the outcome is decided by the network
   * alone: an abort is the timeout error, a non-2xx status the API error, a
   * reply without `success` or `data` the format error, and a valid reply the
   * mapped record with a freshly minted id.
   */
  lemma AnalyzeDreamClassifiesReply(text: string, sessionId: string, env: Environment)
    requires env.user.None? || CheckUserLimit(env.profile, env.now).Allowed?
    ensures var o := AnalyzeDreamSpec(text, sessionId, env).outcome;
            && (env.network.Aborted? <==> o == Failure(TimedOut))
            && (env.network.Responded? && !IsOk(env.network.status) ==>
                  o == Failure(HttpError(env.network.status, env.network.statusText)))
            && (o.Failure? && o.error.HttpError? ==> env.network.Responded? && !IsOk(env.network.status))
            && (o.Failure? && o.error.InvalidFormat? <==>
                  env.network.Responded? && IsOk(env.network.status) && env.network.body.Parsed?
                  && (!env.network.body.reply.success || env.network.body.reply.data.None?))
            && (o.Success? <==>
                  env.network.Responded? && IsOk(env.network.status) && env.network.body.Parsed?
                  && env.network.body.reply.success && env.network.body.reply.data.Some?)
            && (o.Success? ==> o.result == MapResponse(env.network.body.reply.data.value, env.minted))
  {
  }

  /**
   * Once the backend has recorded a free user's successful generation, that
   * user's next request within 24 hours is refused before anything is sent.
   * The recorded instant `written` is the clock reading taken by the write
   * itself, after the reply arrived, so it lies between the two requests.
   */
  lemma SecondRequestWithinADayRefused(text: string, sessionId: string, env: Environment, written: int,
                                       text2: string, sessionId2: string, env2: Environment)
    requires env.user.Some? && AnalyzeDreamSpec(text, sessionId, env).outcome.Success?
    requires env2.user == env.user
    requires env2.profile == Found(Profile(false, At(written)))
    requires env.now <= written <= env2.now < written + DayMs
    ensures TimestampUpdated(env.user.value) in AnalyzeDreamSpec(text, sessionId, env).effects
    ensures var a2 := AnalyzeDreamSpec(text2, sessionId2, env2);
            && a2.outcome.Failure? && a2.outcome.error.RateLimited?
            && 1 <= a2.outcome.error.limit.hoursRemaining <= 24
            && forall e :: e in a2.effects ==> !e.RequestSent?
  {
    AnalyzeDreamUpdatesTimestamp(text, sessionId, env, env.user.value, env.timestampWrite);
    HoursRemainingAtMostADay(env2.now - written);
  }
}
