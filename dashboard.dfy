/** The dashboard: the morning checklist with its optimistic toggle, the
    mood picker, the daily intention, the sleep summary and the streak. */
module Dashboard {
  import opened Common
  import opened Strings
  import opened Session
  import SleepInput

  // ----- Checklist ----------------------------------------------------------------

  datatype ChecklistKey = Hydrate | Meditate | StretchMove

  datatype Checklist = Checklist(hydrate: bool, meditate: bool, stretchMove: bool)

  const EmptyChecklist := Checklist(false, false, false)

  /** `checklist[key]`. */
  function Get(c: Checklist, k: ChecklistKey): bool {
    match k
    case Hydrate => c.hydrate
    case Meditate => c.meditate
    case StretchMove => c.stretchMove
  }

  /** Two checklists that agree on every key are the same checklist. */
  lemma ChecklistExtensional(a: Checklist, b: Checklist)
    requires forall k :: Get(a, k) == Get(b, k)
    ensures a == b
  {
    assert Get(a, Hydrate) == Get(b, Hydrate);
    assert Get(a, Meditate) == Get(b, Meditate);
    assert Get(a, StretchMove) == Get(b, StretchMove);
  }

  /** `{ ...checklist, [key]: !checklist[key] }`: the named item flips, the
      others keep their value. */
  function Toggle(c: Checklist, k: ChecklistKey): (r: Checklist)
    ensures Get(r, k) == !Get(c, k)
    ensures forall j :: j != k ==> Get(r, j) == Get(c, j)
  {
    match k
    case Hydrate => c.(hydrate := !c.hydrate)
    case Meditate => c.(meditate := !c.meditate)
    case StretchMove => c.(stretchMove := !c.stretchMove)
  }

  /** Toggling the same item twice gives back the checklist, and toggles of
      different items commute. */
  lemma ToggleInvolution(c: Checklist, k: ChecklistKey, j: ChecklistKey)
    ensures Toggle(Toggle(c, k), k) == c
    ensures Toggle(Toggle(c, k), j) == Toggle(Toggle(c, j), k)
  {
    ChecklistExtensional(Toggle(Toggle(c, k), k), c);
    ChecklistExtensional(Toggle(Toggle(c, k), j), Toggle(Toggle(c, j), k));
  }

  // ----- Mood -------------------------------------------------------------------------

  /** The backend's mood 1..5 stored as the picker's index 0..4. */
  function MoodIndex(serverMood: int): (index: int)
    ensures MoodValue(index) == serverMood
  {
    serverMood - 1
  }

  /** The picker's index sent to the backend as `moodIndex + 1`. */
  function MoodValue(index: int): int {
    index + 1
  }

  const MoodWords := ["great", "good", "neutral", "down", "sad"]

  /** The caption under the picker; an index outside the five words reads
      as `undefined` in the template literal. */
  function MoodCaption(mood: Option<int>): (caption: string)
    ensures mood.None? ==> caption == "How are you feeling right now?"
    ensures mood.Some? && 0 <= mood.value < 5 ==>
      caption == "You're feeling " + MoodWords[mood.value] + " today!"
    ensures mood.Some? && !(0 <= mood.value < 5) ==> caption == "You're feeling undefined today!"
  {
    match mood
    case None => "How are you feeling right now?"
    case Some(i) => "You're feeling " + (if 0 <= i < 5 then MoodWords[i] else "undefined") + " today!"
  }

  /** A backend mood in 1..5 loads to an index the picker shows, whose
      caption names the word of that mood; sending that index back gives the
      same backend mood. */
  lemma MoodLoadThenSend(serverMood: int)
    requires 1 <= serverMood <= 5
    ensures 0 <= MoodIndex(serverMood) < |MoodWords|
    ensures MoodCaption(Some(MoodIndex(serverMood))) ==
      "You're feeling " + MoodWords[serverMood - 1] + " today!"
    ensures MoodValue(MoodIndex(serverMood)) == serverMood
  {
  }

  /** Sending an index and loading it back gives the same index. */
  lemma MoodSendThenLoad(index: int)
    ensures MoodIndex(MoodValue(index)) == index
  {
  }

  // ----- Sleep summary ------------------------------------------------------------

  datatype Quality = Good | Fair | Poor

  /** The 7 and 6 hour thresholds shared by the summary and the history tiles. */
  function QualityOf(hours: real): (q: Quality)
    ensures q == Good <==> hours >= 7.0
    ensures q == Fair <==> 6.0 <= hours < 7.0
    ensures q == Poor <==> hours < 6.0
  {
    if hours >= 7.0 then Good else if hours >= 6.0 then Fair else Poor
  }

  function QualityLabel(q: Quality): string {
    match q
    case Good => "😊 Good"
    case Fair => "😐 Fair"
    case Poor => "😔 Poor"
  }

  /** `getSleepQuality`: a falsy value has no data; otherwise the tier. */
  function SleepQuality(hours: Option<real>): (shown: string)
    ensures shown == "No data" <==> !TruthyNumber(hours)
    ensures shown == "😊 Good" <==> TruthyNumber(hours) && hours.value >= 7.0
    ensures shown == "😐 Fair" <==> TruthyNumber(hours) && 6.0 <= hours.value < 7.0
    ensures shown == "😔 Poor" <==> TruthyNumber(hours) && hours.value < 6.0
  {
    if !TruthyNumber(hours) then "No data" else QualityLabel(QualityOf(hours.value))
  }

  /** More sleep never gives a worse label. */
  lemma SleepQualityMonotone(a: real, b: real)
    requires a != 0.0 && b != 0.0 && a <= b
    ensures SleepQuality(Some(a)) == "😊 Good" ==> SleepQuality(Some(b)) == "😊 Good"
    ensures SleepQuality(Some(b)) == "😔 Poor" ==> SleepQuality(Some(a)) == "😔 Poor"
  {
  }

  /** `formatSleepHours`: "0h" for a falsy value, else the number then "h". */
  function FormatSleepHours(hours: Option<real>, show: real -> string): (text: string)
    ensures |text| > 0 && text[|text| - 1] == 'h'
    ensures !TruthyNumber(hours) ==> text == "0h"
    ensures TruthyNumber(hours) ==> text[..|text| - 1] == show(hours.value)
  {
    if !TruthyNumber(hours) then "0h" else show(hours.value) + "h"
  }

  /** One day of `sleepHistory`. */
  datatype HistoryDay = HistoryDay(totalHours: Option<real>, date: string)

  /** The colour tier of one preview tile: `day.total_hours >= 7` and `>= 6`
      are false for a missing value, so a day without hours is Poor. */
  function TileQuality(day: HistoryDay): Quality {
    if day.totalHours.Some? then QualityOf(day.totalHours.value) else Poor
  }

  /** `sleepHistory.slice(0, 5)` with each day's tier. */
  function RecentSleep(history: seq<HistoryDay>): (tiles: seq<Quality>)
    ensures |tiles| == if |history| < 5 then |history| else 5
    ensures forall i :: 0 <= i < |tiles| ==> tiles[i] == TileQuality(history[i])
  {
    var shown := if |history| < 5 then history else history[..5];
    seq(|shown|, i requires 0 <= i < |shown| => TileQuality(shown[i]))
  }

  /** The tiles use the summary's thresholds: a day with a truthy total gets
      the label the summary would give it, while a zero or missing total is
      a Poor tile although the summary shows "No data". */
  lemma TilesAgreeWithSummary(day: HistoryDay)
    ensures TruthyNumber(day.totalHours) ==> QualityLabel(TileQuality(day)) == SleepQuality(day.totalHours)
    ensures !TruthyNumber(day.totalHours) ==> TileQuality(day) == Poor && SleepQuality(day.totalHours) == "No data"
  {
  }

  // ----- Streak -------------------------------------------------------------------------

  datatype Streak = Streak(current: int, longest: int)

  const StreakLabels := ["7 Day Streak", "7 days to next milestone", "7 days to Silver Medal", "🏆 Achieved!"]

  /** The number of weekly milestones of a streak, capped at three. */
  function StreakTier(current: int): (t: nat)
    ensures t <= 3
    ensures t > 0 ==> current >= 7 * t
    ensures t < 3 ==> current < 7 * (t + 1)
  {
    if current >= 21 then 3 else if current >= 14 then 2 else if current >= 7 then 1 else 0
  }

  /** The "Next Milestone" text of the streak card. */
  function StreakLabel(current: int): (shown: string)
    ensures shown == "🏆 Achieved!" <==> current >= 21
    ensures shown == "7 days to Silver Medal" <==> 14 <= current < 21
    ensures shown == "7 days to next milestone" <==> 7 <= current < 14
    ensures shown == "7 Day Streak" <==> current < 7
  {
    StreakLabels[StreakTier(current)]
  }

  /** A longer streak never shows an earlier label. */
  lemma StreakTierMonotone(a: int, b: int)
    requires a <= b
    ensures StreakTier(a) <= StreakTier(b)
  {
  }

  // ----- Greeting ---------------------------------------------------------------------

  /** `user?.name?.split(" ")[0] || "Alex"`. */
  function GreetingName(user: Option<UserRecord>): (name: string)
    ensures name != ""
    ensures UserName(user).None? ==> name == "Alex"
    ensures UserName(user).Some? ==>
      var full := UserName(user).value;
      if BeforeFirst(full, ' ') == "" then name == "Alex" else name == BeforeFirst(full, ' ')
  {
    var w := if UserName(user).Some? then BeforeFirst(UserName(user).value, ' ') else "";
    if w == "" then "Alex" else w
  }

  /** The greeting is the stored name when it is one word. */
  lemma GreetingOfOneWord(user: UserRecord)
    requires "name" in user && user["name"] != "" && ' ' !in user["name"]
    ensures GreetingName(Some(user)) == user["name"]
  {
  }

  /** A name that starts with a space has an empty first word, so the
      greeting falls back to "Alex". */
  lemma GreetingOfLeadingSpace(user: UserRecord, rest: string)
    requires "name" in user && user["name"] == " " + rest
    ensures GreetingName(Some(user)) == "Alex"
  {
    BeforeFirstOf("", rest, ' ');
    assert " " + rest == "" + [' '] + rest;
  }

  // ----- Requests ---------------------------------------------------------------------

  /** The fields of `GET /api/dashboard` the screen reads. A falsy field is
      None, except `mood`, which is None only when absent or null: a mood of
      0 is read. */
  datatype DashboardBody = DashboardBody(
    checklist: Option<Checklist>,
    mood: Option<int>,
    dailyIntention: Option<string>,
    streak: Option<Streak>,
    sleep: Option<SleepRecord>)

  /** `data.dailyIntention` read for truthiness. */
  predicate HasIntention(body: DashboardBody) {
    body.dailyIntention.Some? && body.dailyIntention.value != ""
  }

  /** The reply of `PUT /api/dashboard/sleep`: `result.sleep`. */
  datatype SaveResult = SaveResult(sleep: Option<SleepRecord>)

  /** The reply of the sleep history request: `data.sleepHistory`. */
  datatype HistoryBody = HistoryBody(sleepHistory: Option<seq<HistoryDay>>)

  const IntentionSaved := "Intention saved successfully!"
  const IntentionFailed := "Failed to save intention. Please try again."

  // ----- The component ---------------------------------------------------------------

  /** The Dashboard component's state hooks. */
  class DashboardView {
    var checklist: Checklist
    var mood: Option<int>
    var dailyIntention: string
    var streak: Streak
    var sleep: Option<SleepRecord>
    var loading: bool
    var user: Option<UserRecord>
    var saving: bool
    var sleepHistory: seq<HistoryDay>
    const storage: LocalStorage

    /** The initial state, and the stored user read on mount. */
    constructor (storage: LocalStorage)
      ensures this.storage == storage
      ensures checklist == EmptyChecklist && mood.None? && dailyIntention == ""
      ensures streak == Streak(0, 0) && sleep.None? && loading && !saving && sleepHistory == []
      ensures user == if UserKey in storage.items && storage.items[UserKey].UserJson?
        then Some(storage.items[UserKey].user) else None
    {
      this.storage := storage;
      checklist := EmptyChecklist;
      mood := None;
      dailyIntention := "";
      streak := Streak(0, 0);
      sleep := None;
      loading := true;
      saving := false;
      sleepHistory := [];
      var stored := storage.GetItem(UserKey);
      user := if stored.Some? && stored.value.UserJson? then Some(stored.value.user) else None;
    }

    /** `fetchDashboardData`: each field present in a decoded reply replaces
      the one on screen (the mood shifted to an index); fields the reply
      lacks, and every field on failure, keep their value. */
    method FetchDashboardData(reply: Reply<DashboardBody>)
      modifies this
      ensures !loading
      ensures var fetched := Present(storage.items, TokenKey) && Decoded(reply);
        && checklist == (if fetched && reply.body.value.checklist.Some? then reply.body.value.checklist.value else old(checklist))
        && mood == (if fetched && reply.body.value.mood.Some? then Some(MoodIndex(reply.body.value.mood.value)) else old(mood))
        && dailyIntention == (if fetched && HasIntention(reply.body.value) then reply.body.value.dailyIntention.value else old(dailyIntention))
        && streak == (if fetched && reply.body.value.streak.Some? then reply.body.value.streak.value else old(streak))
        && sleep == (if fetched && reply.body.value.sleep.Some? then reply.body.value.sleep else old(sleep))
      ensures user == old(user) && saving == old(saving) && sleepHistory == old(sleepHistory)
    {
      loading := true;
      var token := HasToken(storage);
      if !token || !IsOk(reply) || reply.body.Unparsable? {
        loading := false;
        return;
      }
      var data := reply.body.value;
      if data.checklist.Some? {
        checklist := data.checklist.value;
      }
      if data.mood.Some? {
        mood := Some(data.mood.value - 1);
      }
      if data.dailyIntention.Some? && data.dailyIntention.value != "" {
        dailyIntention := data.dailyIntention.value;
      }
      if data.streak.Some? {
        streak := data.streak.value;
      }
      if data.sleep.Some? {
        sleep := data.sleep;
      }
      loading := false;
    }

    /** `handleChecklistChange`: the toggle is shown at once; without a token
      it stays; a failed save, or a streak refresh that fails or does not
      decode, puts the previous checklist back. The refresh is read whatever
      its status, since it is not checked for `ok`. */
    method ToggleChecklist(key: ChecklistKey, put: Reply<()>, refresh: Reply<DashboardBody>)
      modifies this
      ensures var token := Present(storage.items, TokenKey);
        var stored := token && IsOk(put) && refresh.Response? && refresh.body.Parsed?;
        && checklist == (if !token || stored then Toggle(old(checklist), key) else old(checklist))
        && streak == (if stored && refresh.body.value.streak.Some? then refresh.body.value.streak.value else old(streak))
      ensures mood == old(mood) && dailyIntention == old(dailyIntention) && sleep == old(sleep)
      ensures loading == old(loading) && user == old(user) && saving == old(saving) && sleepHistory == old(sleepHistory)
    {
      var previous := checklist;
      checklist := Toggle(checklist, key);
      var token := HasToken(storage);
      if !token {
        return;
      }
      if !IsOk(put) || refresh.NetworkFailure? || refresh.body.Unparsable? {
        checklist := previous;
        return;
      }
      if refresh.body.value.streak.Some? {
        streak := refresh.body.value.streak.value;
      }
    }

    /** `handleMoodChange`: the picked index is shown at once and kept
      whatever the request does; with a token the backend is sent the index
      plus one. */
    method MoodChange(moodIndex: int) returns (sent: Option<int>)
      modifies this
      ensures mood == Some(moodIndex)
      ensures sent == if Present(storage.items, TokenKey) then Some(MoodValue(moodIndex)) else None
      ensures sent.Some? ==> MoodIndex(sent.value) == moodIndex
      ensures checklist == old(checklist) && dailyIntention == old(dailyIntention) && streak == old(streak)
      ensures sleep == old(sleep) && loading == old(loading) && user == old(user)
      ensures saving == old(saving) && sleepHistory == old(sleepHistory)
    {
      var moodValue := moodIndex + 1;
      mood := Some(moodIndex);
      var token := HasToken(storage);
      sent := if token then Some(moodValue) else None;
    }

    /** `handleIntentionSave`: an intention of only whitespace sends nothing
      and leaves the state alone; otherwise, with a token, the text is sent
      and `notice` is the alert shown. */
    method IntentionSave(reply: Reply<()>) returns (sent: Option<string>, notice: Option<string>)
      modifies this
      ensures IsBlank(dailyIntention) ==> sent.None? && notice.None? && saving == old(saving)
      ensures !IsBlank(dailyIntention) ==>
        && !saving
        && sent == (if Present(storage.items, TokenKey) then Some(dailyIntention) else None)
        && notice == (if sent.None? then None else if IsOk(reply) then Some(IntentionSaved) else Some(IntentionFailed))
      ensures checklist == old(checklist) && mood == old(mood) && dailyIntention == old(dailyIntention)
      ensures streak == old(streak) && sleep == old(sleep) && loading == old(loading)
      ensures user == old(user) && sleepHistory == old(sleepHistory)
    {
      TrimEmptyIffBlank(dailyIntention);
      if Trim(dailyIntention) == "" {
        return None, None;
      }
      saving := true;
      var token := HasToken(storage);
      if !token {
        saving := false;
        return None, None;
      }
      sent := Some(dailyIntention);
      notice := if IsOk(reply) then Some(IntentionSaved) else Some(IntentionFailed);
      saving := false;
    }

    /** `fetchSleepHistory`: a decoded ok reply replaces the history (an
      absent list gives []); anything else leaves it. */
    method FetchSleepHistory(reply: Reply<HistoryBody>)
      modifies this
      ensures sleepHistory ==
        if Present(storage.items, TokenKey) && Decoded(reply) then
          (if reply.body.value.sleepHistory.Some? then reply.body.value.sleepHistory.value else [])
        else old(sleepHistory)
      ensures checklist == old(checklist) && mood == old(mood) && dailyIntention == old(dailyIntention)
      ensures streak == old(streak) && sleep == old(sleep) && loading == old(loading)
      ensures user == old(user) && saving == old(saving)
    {
      var token := HasToken(storage);
      if !token || !IsOk(reply) || reply.body.Unparsable? {
        return;
      }
      sleepHistory := if reply.body.value.sleepHistory.Some? then reply.body.value.sleepHistory.value else [];
    }

    /** `handleSaveSleepData`, the modal's `onSave`: without a token it
      returns normally and nothing is sent; a failed save is rethrown with
      its message; a saved record replaces the summary and the history is
      fetched again with `history`. */
    method SaveSleepData(payload: SleepInput.SleepPayload, reply: Reply<SaveResult>, history: Reply<HistoryBody>)
      returns (sent: Option<SleepInput.SleepPayload>, outcome: SleepInput.SaveOutcome)
      modifies this
      ensures var token := Present(storage.items, TokenKey);
        && sent == (if token then Some(payload) else None)
        && outcome == (if !token || Decoded(reply) then SleepInput.Saved else SleepInput.Threw(FailureMessage(reply)))
        && sleep == (if token && Decoded(reply) then reply.body.value.sleep else old(sleep))
        && sleepHistory == (if token && Decoded(reply) && Decoded(history) then
              (if history.body.value.sleepHistory.Some? then history.body.value.sleepHistory.value else [])
            else old(sleepHistory))
      ensures checklist == old(checklist) && mood == old(mood) && dailyIntention == old(dailyIntention)
      ensures streak == old(streak) && loading == old(loading) && user == old(user) && saving == old(saving)
    {
      var token := HasToken(storage);
      if !token {
        return None, SleepInput.Saved;
      }
      sent := Some(payload);
      if !IsOk(reply) || reply.body.Unparsable? {
        return sent, SleepInput.Threw(FailureMessage(reply));
      }
      sleep := reply.body.value.sleep;
      FetchSleepHistory(history);
      outcome := SleepInput.Saved;
    }
  }
}
