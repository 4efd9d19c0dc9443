/** The sleep-entry modal: the character filter on its three inputs, the
    ordered validation on submit and the payload handed to `onSave`. */
module SleepInput {
  import opened Common

  // ----- The input filter /^\d*\.?\d*$/ --------------------------------------

  predicate IsDigit(c: char) { '0' <= c <= '9' }

  predicate AllDigits(s: string) {
    forall i :: 0 <= i < |s| ==> IsDigit(s[i])
  }

  /** The longest prefix of `s` made of digits. */
  function LeadingDigits(s: string): (d: string)
    ensures d <= s && AllDigits(d)
    ensures |d| == |s| || !IsDigit(s[|d|])
    decreases |s|
  {
    if |s| > 0 && IsDigit(s[0]) then [s[0]] + LeadingDigits(s[1..]) else ""
  }

  /** `/^\d*\.?\d*$/.test(s)`: digits, at most one point, digits. */
  predicate MatchesDecimalPattern(s: string) {
    var rest := s[|LeadingDigits(s)|..];
    rest == "" || (rest[0] == '.' && AllDigits(rest[1..]))
  }

  function DotCount(s: string): nat
    decreases |s|
  {
    if |s| == 0 then 0 else (if s[0] == '.' then 1 else 0) + DotCount(s[1..])
  }

  lemma {:induction false} NoDotAllDigits(s: string)
    requires forall i :: 0 <= i < |s| ==> IsDigit(s[i]) || s[i] == '.'
    ensures DotCount(s) == 0 <==> AllDigits(s)
    decreases |s|
  {
    if |s| > 0 {
      NoDotAllDigits(s[1..]);
      if AllDigits(s[1..]) && IsDigit(s[0]) {
        forall i | 0 <= i < |s| ensures IsDigit(s[i]) {
          if i > 0 { assert s[i] == s[1..][i - 1]; }
        }
      }
    }
  }

  /** The filter accepts exactly the strings of digits and points that hold
      at most one point (the empty string among them). */
  lemma {:induction false} DecimalPatternMeaning(s: string)
    ensures MatchesDecimalPattern(s) <==>
      (forall i :: 0 <= i < |s| ==> IsDigit(s[i]) || s[i] == '.') && DotCount(s) <= 1
    decreases |s|
  {
    if |s| > 0 {
      var charsOk := forall i :: 0 <= i < |s| ==> IsDigit(s[i]) || s[i] == '.';
      var tailOk := forall i :: 0 <= i < |s| - 1 ==> IsDigit(s[1..][i]) || s[1..][i] == '.';
      assert charsOk ==> tailOk;
      assert tailOk && (IsDigit(s[0]) || s[0] == '.') ==> charsOk by {
        if tailOk && (IsDigit(s[0]) || s[0] == '.') {
          forall i | 0 < i < |s| ensures IsDigit(s[i]) || s[i] == '.' {
            assert s[i] == s[1..][i - 1];
          }
        }
      }
      if IsDigit(s[0]) {
        DecimalPatternMeaning(s[1..]);
        assert s[|LeadingDigits(s)|..] == s[1..][|LeadingDigits(s[1..])|..];
      } else if s[0] == '.' {
        if tailOk {
          NoDotAllDigits(s[1..]);
        }
        if AllDigits(s[1..]) {
          assert tailOk;
        }
      }
    }
  }

  // ----- parseFloat -------------------------------------------------------------

  /** The value of a string of decimal digits. */
  function DigitsValue(d: string): nat
    requires AllDigits(d)
    decreases |d|
  {
    if |d| == 0 then 0 else DigitsValue(d[..|d| - 1]) * 10 + (d[|d| - 1] as int - '0' as int)
  }

  function Pow10(n: nat): (p: nat)
    ensures p > 0
  {
    if n == 0 then 1 else 10 * Pow10(n - 1)
  }

  /** `parseFloat(s)` as an exact rational: the longest prefix of the form
      digits, point, digits, read in base ten; NaN when it holds no digit. */
  function ParseFloat(s: string): (r: Num)
    ensures r.Finite? ==> r.value >= 0.0
  {
    var ip := LeadingDigits(s);
    var rest := s[|ip|..];
    var fp := if |rest| > 0 && rest[0] == '.' then LeadingDigits(rest[1..]) else "";
    if |ip| == 0 && |fp| == 0 then NaN
    else Finite(DigitsValue(ip) as real + DigitsValue(fp) as real / Pow10(|fp|) as real)
  }

  /** On text the filter accepted, only "" and "." read as NaN; everything
      else reads as a number, never a negative one. */
  lemma ParseFilteredText(s: string)
    requires MatchesDecimalPattern(s)
    ensures ParseFloat(s).NaN? <==> s == "" || s == "."
    ensures !Less(ParseFloat(s), Finite(0.0))
  {
    var ip := LeadingDigits(s);
    var rest := s[|ip|..];
    if |ip| == 0 && |rest| > 0 {
      assert rest == s;
      if |s| > 1 {
        assert IsDigit(s[1..][0]);
        assert |LeadingDigits(s[1..])| > 0;
      } else {
        assert s == ".";
      }
    }
    if |ip| > 0 {
      assert s != "" && s[0] != '.';
    }
  }

  lemma ParseSamples()
    ensures ParseFloat("7.5") == Finite(7.5)
    ensures ParseFloat("5.") == Finite(5.0)
    ensures ParseFloat(".") == NaN
  {
    assert LeadingDigits("7.5") == "7";
    assert "7.5"[1..] == ".5";
    assert ".5"[1..] == "5";
    assert LeadingDigits("5") == "5";
    assert LeadingDigits("5.") == "5";
    assert "5."[1..] == ".";
    assert "."[1..] == "";
  }

  // ----- Field values and validation ---------------------------------------

  /** The value held for one input: the text last typed, or the number the
      modal was opened with (`currentData?.total_hours || ""`). */
  datatype Entry = Typed(text: string) | Loaded(value: real)

  /** JavaScript truthiness of the held value. */
  predicate Filled(e: Entry) {
    match e
    case Typed(t) => t != ""
    case Loaded(v) => v != 0.0
  }

  /** `parseFloat` of the held value. */
  function EntryNumber(e: Entry): Num {
    match e
    case Typed(t) => ParseFloat(t)
    case Loaded(v) => Finite(v)
  }

  /** The value the modal opens with for one field of `currentData`. */
  function InitialEntry(x: Option<real>): (e: Entry)
    ensures Filled(e) <==> TruthyNumber(x)
    ensures !TruthyNumber(x) ==> e == Typed("")
  {
    if TruthyNumber(x) then Loaded(x.value) else Typed("")
  }

  const TotalError := "Please enter valid total sleep hours"
  const DeepError := "Deep sleep hours cannot exceed total sleep hours"
  const RemError := "REM sleep hours cannot exceed total sleep hours"

  /** `!total || parseFloat(total) < 0`. */
  predicate TotalRejected(total: Entry) {
    !Filled(total) || Less(EntryNumber(total), Finite(0.0))
  }

  /** `stage && parseFloat(stage) > parseFloat(total)`. */
  predicate StageExceeds(stage: Entry, total: Entry) {
    Filled(stage) && Less(EntryNumber(total), EntryNumber(stage))
  }

  /** The three checks of `handleSubmit`, in order; the first that fails
      gives the message and stops submission. */
  function ValidationError(total: Entry, deep: Entry, rem: Entry): (err: Option<string>)
    ensures err == Some(TotalError) <==> TotalRejected(total)
    ensures err == Some(DeepError) <==> !TotalRejected(total) && StageExceeds(deep, total)
    ensures err == Some(RemError) <==>
      !TotalRejected(total) && !StageExceeds(deep, total) && StageExceeds(rem, total)
    ensures err.None? || err == Some(TotalError) || err == Some(DeepError) || err == Some(RemError)
  {
    if TotalRejected(total) then Some(TotalError)
    else if StageExceeds(deep, total) then Some(DeepError)
    else if StageExceeds(rem, total) then Some(RemError)
    else None
  }

  /** A sleep record as the backend expects it: a non-negative total that
      no filled stage exceeds. */
  predicate ConsistentRecord(total: real, deep: Option<real>, rem: Option<real>) {
    total >= 0.0 &&
    (deep.Some? ==> deep.value <= total) &&
    (rem.Some? ==> rem.value <= total)
  }

  function FilledValue(e: Entry): Option<real>
    requires Filled(e) ==> EntryNumber(e).Finite?
  {
    if Filled(e) then Some(EntryNumber(e).value) else None
  }

  /** When the total and every filled stage read as numbers (a blank stage
      may stay blank), validation passes exactly for the consistent
      records: total filled and non-negative, neither filled stage above it.
      A typed "0" is filled, so a zero total is accepted. */
  lemma ValidationMeaning(total: Entry, deep: Entry, rem: Entry)
    requires EntryNumber(total).Finite?
    requires Filled(deep) ==> EntryNumber(deep).Finite?
    requires Filled(rem) ==> EntryNumber(rem).Finite?
    ensures ValidationError(total, deep, rem).None? <==>
      Filled(total) && ConsistentRecord(EntryNumber(total).value, FilledValue(deep), FilledValue(rem))
  {
  }

  /** The usual submission, a total with both stages left blank, is
      accepted and sends no stage. */
  lemma BlankStagesAccepted()
    ensures ValidationError(Typed("7"), Typed(""), Typed("")).None?
    ensures BuildPayload(Typed("7"), Typed(""), Typed("")) == SleepPayload(Finite(7.0), None, None)
  {
    assert LeadingDigits("7") == "7";
    assert "7"[1..] == "";
  }

  /** A total of "." passes every check, since NaN compares false, and the
      payload then carries NaN as the total. */
  lemma PointAloneIsAccepted()
    ensures ValidationError(Typed("."), Typed(""), Typed("")).None?
    ensures ValidationError(Typed("."), Typed("9"), Typed("9")).None?
    ensures BuildPayload(Typed("."), Typed(""), Typed("")).totalHours == NaN
  {
    ParseSamples();
  }

  /** A typed total of "0" passes every check and is sent as 0. */
  lemma ZeroTotalAccepted()
    ensures ValidationError(Typed("0"), Typed(""), Typed("")).None?
    ensures BuildPayload(Typed("0"), Typed(""), Typed("")).totalHours == Finite(0.0)
  {
    assert LeadingDigits("0") == "0";
    assert "0"[1..] == "";
  }

  /** The object passed to `onSave`; a None stage is `null`. */
  datatype SleepPayload = SleepPayload(totalHours: Num, deepSleepHours: Option<Num>, remHours: Option<Num>)

  function BuildPayload(total: Entry, deep: Entry, rem: Entry): (p: SleepPayload)
    ensures p.totalHours == EntryNumber(total)
    ensures p.deepSleepHours.None? <==> !Filled(deep)
    ensures p.remHours.None? <==> !Filled(rem)
    ensures p.deepSleepHours.Some? ==> p.deepSleepHours.value == EntryNumber(deep)
    ensures p.remHours.Some? ==> p.remHours.value == EntryNumber(rem)
  {
    SleepPayload(
      EntryNumber(total),
      if Filled(deep) then Some(EntryNumber(deep)) else None,
      if Filled(rem) then Some(EntryNumber(rem)) else None)
  }

  /** A payload built from accepted input never has a stage above a numeric
      total, and never a negative total. */
  lemma AcceptedPayloadRespectsTotal(total: Entry, deep: Entry, rem: Entry)
    requires ValidationError(total, deep, rem).None?
    ensures var p := BuildPayload(total, deep, rem);
      && !Less(p.totalHours, Finite(0.0))
      && (p.deepSleepHours.Some? ==> !Less(p.totalHours, p.deepSleepHours.value))
      && (p.remHours.Some? ==> !Less(p.totalHours, p.remHours.value))
  {
  }

  // ----- The component ---------------------------------------------------------

  datatype SleepField = TotalHours | DeepSleepHours | RemHours

  /** What `await onSave(payload)` did: resolved, or threw with a message. */
  datatype SaveOutcome = Saved | Threw(message: string)

  const SaveFallback := "Failed to save sleep data"

  predicate FilterHolds(e: Entry) {
    e.Typed? ==> MatchesDecimalPattern(e.text)
  }

  /** The SleepInputModal component's state hooks; `closed` records that
      `onClose` was called. */
  class SleepInputModal {
    var totalHours: Entry
    var deepSleepHours: Entry
    var remHours: Entry
    var loading: bool
    var error: string
    var closed: bool

    /** Every typed value passed the filter. */
    ghost predicate Valid()
      reads this
    {
      FilterHolds(totalHours) && FilterHolds(deepSleepHours) && FilterHolds(remHours)
    }

    function Field(f: SleepField): Entry
      reads this
    {
      match f
      case TotalHours => totalHours
      case DeepSleepHours => deepSleepHours
      case RemHours => remHours
    }

    /** `useState` from `currentData`: missing or falsy values become "". */
    constructor (currentData: Option<SleepRecord>)
      ensures Valid()
      ensures currentData.None? ==> totalHours == deepSleepHours == remHours == Typed("")
      ensures currentData.Some? ==>
        && totalHours == InitialEntry(currentData.value.totalHours)
        && deepSleepHours == InitialEntry(currentData.value.deepSleepHours)
        && remHours == InitialEntry(currentData.value.remHours)
      ensures !loading && error == "" && !closed
    {
      if currentData.Some? {
        totalHours := InitialEntry(currentData.value.totalHours);
        deepSleepHours := InitialEntry(currentData.value.deepSleepHours);
        remHours := InitialEntry(currentData.value.remHours);
      } else {
        totalHours, deepSleepHours, remHours := Typed(""), Typed(""), Typed("");
      }
      loading, error, closed := false, "", false;
    }

    /** `handleChange`: an accepted edit replaces the named field only; a
      rejected one changes nothing. */
    method HandleChange(field: SleepField, value: string)
      requires Valid()
      modifies this
      ensures Valid()
      ensures MatchesDecimalPattern(value) ==>
        Field(field) == Typed(value) &&
        forall f :: f != field ==> Field(f) == old(Field(f))
      ensures !MatchesDecimalPattern(value) ==>
        totalHours == old(totalHours) && deepSleepHours == old(deepSleepHours) && remHours == old(remHours)
      ensures loading == old(loading) && error == old(error) && closed == old(closed)
    {
      if value == "" || MatchesDecimalPattern(value) {
        match field
        case TotalHours => totalHours := Typed(value);
        case DeepSleepHours => deepSleepHours := Typed(value);
        case RemHours => remHours := Typed(value);
      }
    }

    /** `handleSubmit`: clears the error, runs the checks in order and stops
      at the first failure without calling `onSave`; otherwise hands the
      payload to `onSave` (returned as `sent`), closes on success and shows
      the thrown message (or the fallback) on failure. */
    method HandleSubmit(outcome: SaveOutcome) returns (sent: Option<SleepPayload>)
      requires Valid()
      modifies this
      ensures Valid()
      ensures sent.Some? ==> (sent.value.totalHours.NaN? <==> totalHours == Typed("."))
      ensures totalHours == old(totalHours) && deepSleepHours == old(deepSleepHours) && remHours == old(remHours)
      ensures var err := ValidationError(totalHours, deepSleepHours, remHours);
        && (err.Some? ==> sent.None? && error == err.value && loading == old(loading) && closed == old(closed))
        && (err.None? ==> sent == Some(BuildPayload(totalHours, deepSleepHours, remHours)) && !loading)
        && (err.None? && outcome.Saved? ==> closed && error == "")
        && (err.None? && outcome.Threw? ==>
              closed == old(closed) &&
              error == (if outcome.message != "" then outcome.message else SaveFallback))
    {
      error := "";
      if !Filled(totalHours) || Less(EntryNumber(totalHours), Finite(0.0)) {
        error := TotalError;
        return None;
      }
      if Filled(deepSleepHours) && Less(EntryNumber(totalHours), EntryNumber(deepSleepHours)) {
        error := DeepError;
        return None;
      }
      if Filled(remHours) && Less(EntryNumber(totalHours), EntryNumber(remHours)) {
        error := RemError;
        return None;
      }
      if totalHours.Typed? {
        ParseFilteredText(totalHours.text);
      }
      loading := true;
      var payload := SleepPayload(
        EntryNumber(totalHours),
        if Filled(deepSleepHours) then Some(EntryNumber(deepSleepHours)) else None,
        if Filled(remHours) then Some(EntryNumber(remHours)) else None);
      sent := Some(payload);
      match outcome {
        case Saved =>
          closed := true;
        case Threw(message) =>
          error := if message != "" then message else SaveFallback;
      }
      loading := false;
    }
  }
}
