/**
 * The mood tracker: a month calendar showing the mood recorded for each day,
 * and a form for the selected day (mood, intensity 1..5, note). Dates are
 * their "yyyy-MM-dd" strings; formatting and the calendar grid are left out.
 */
module MoodTracker {
  import opened Wrappers
  import opened Lists
  import opened Text
  import opened Entities

  /** One of the moods the form offers. */
  datatype MoodOption = MoodOption(moodType: string, labelText: string, emoji: string, color: string)

  const MoodOptions: seq<MoodOption> := [
    MoodOption("amazing", "Amazing", "😄", "#ff6090"),
    MoodOption("happy", "Happy", "😊", "#ffb3c1"),
    MoodOption("calm", "Calm", "😌", "#b76e79"),
    MoodOption("meh", "Meh", "😐", "#909090"),
    MoodOption("sad", "Sad", "😢", "#6b8cae"),
    MoodOption("anxious", "Anxious", "😰", "#8b7aa8")
  ]

  /** The six options have six different types. */
  lemma MoodTypesDistinct()
    ensures |MoodOptions| == 6
    ensures forall i, j :: 0 <= i < j < |MoodOptions| ==> MoodOptions[i].moodType != MoodOptions[j].moodType
  {
  }

  function TypeIs(moodType: string, m: MoodOption): bool {
    m.moodType == moodType
  }

  /** `MOOD_OPTIONS.find(m => m.type === moodType)`. */
  function OptionFor(moodType: string): (r: Option<MoodOption>)
    ensures r.None? <==> forall i :: 0 <= i < |MoodOptions| ==> MoodOptions[i].moodType != moodType
    ensures r.Some? ==> r.value in MoodOptions && r.value.moodType == moodType
  {
    FindFirst(MoodOptions, m => TypeIs(moodType, m))
  }

  /** Looking an option up by its own type gives that option back: the lookup is unambiguous. */
  lemma OptionForOwnType(i: nat)
    requires i < |MoodOptions|
    ensures OptionFor(MoodOptions[i].moodType) == Some(MoodOptions[i])
  {
    MoodTypesDistinct();
    var t := MoodOptions[i].moodType;
    FindFirstUnique(MoodOptions, m => TypeIs(t, m), i);
  }

  function DateIs(date: string, m: Mood): bool {
    m.mood_date == date
  }

  /** getMoodForDate: the first loaded mood recorded for that date, if any. */
  function MoodForDate(moods: seq<Mood>, date: string): (r: Option<Mood>)
    ensures r.None? <==> forall i :: 0 <= i < |moods| ==> moods[i].mood_date != date
    ensures r.Some? ==> (r.value.mood_date == date
      && exists i :: 0 <= i < |moods| && moods[i] == r.value && forall j :: 0 <= j < i ==> moods[j].mood_date != date)
  {
    FindFirst(moods, m => DateIs(date, m))
  }

  /** The row handleSaveMood upserts. */
  datatype MoodRecord = MoodRecord(mood_date: string, mood_type: string, mood_intensity: int, note: string, color: string)

  /** What Save sends: nothing without a selected mood; otherwise the date, the mood's type and colour, the intensity and the trimmed note. */
  function SaveRequest(date: string, selected: Option<MoodOption>, intensity: int, note: string): (r: Option<MoodRecord>)
    ensures r.None? <==> selected.None?
    ensures r.Some? ==> (r.value.mood_date == date && r.value.mood_type == selected.value.moodType
      && r.value.color == selected.value.color && r.value.mood_intensity == intensity
      && r.value.note == Trim(note))
  {
    if selected.None? then None
    else Some(MoodRecord(date, selected.value.moodType, intensity, Trim(note), selected.value.color))
  }

  /** A month of the calendar; `month` is 0-based as in a JavaScript Date. */
  datatype YearMonth = YearMonth(year: int, month: int)

  predicate ValidMonth(ym: YearMonth) {
    0 <= ym.month < 12
  }

  /**
   * `new Date(year, month)`: a month index outside 0..11 carries into the
   * year (floor division, which is Dafny's for divisor 12).
   */
  function MonthOf(year: int, month: int): (r: YearMonth)
    ensures ValidMonth(r)
    ensures 12 * r.year + r.month == 12 * year + month
  {
    YearMonth(year + month / 12, month % 12)
  }

  /** The Prev button. */
  function PrevMonth(ym: YearMonth): (r: YearMonth)
    requires ValidMonth(ym)
    ensures ValidMonth(r)
    ensures r == (if ym.month == 0 then YearMonth(ym.year - 1, 11) else YearMonth(ym.year, ym.month - 1))
  {
    MonthOf(ym.year, ym.month - 1)
  }

  /** The Next button. */
  function NextMonth(ym: YearMonth): (r: YearMonth)
    requires ValidMonth(ym)
    ensures ValidMonth(r)
    ensures r == (if ym.month == 11 then YearMonth(ym.year + 1, 0) else YearMonth(ym.year, ym.month + 1))
  {
    MonthOf(ym.year, ym.month + 1)
  }

  /** Next undoes Prev and Prev undoes Next. */
  lemma PrevNextRoundTrip(ym: YearMonth)
    requires ValidMonth(ym)
    ensures NextMonth(PrevMonth(ym)) == ym && PrevMonth(NextMonth(ym)) == ym
  {
  }

  /** Each button moves exactly one month: the month count year * 12 + month changes by one. */
  lemma MonthStepIsOne(ym: YearMonth)
    requires ValidMonth(ym)
    ensures var p := PrevMonth(ym); 12 * p.year + p.month == 12 * ym.year + ym.month - 1
    ensures var n := NextMonth(ym); 12 * n.year + n.month == 12 * ym.year + ym.month + 1
  {
  }

  /** The outcome of getMoodByDate: the call failed, or it found a row or none. */
  datatype DateLookup = LookupFailed | NoMood | Found(mood: Mood)

  predicate IntensityInRange(intensity: int) {
    1 <= intensity <= 5
  }

  /** The mood tracker page; the loading flag is left out. */
  class MoodPage {
    var moods: seq<Mood>
    var selectedDate: string
    var selectedMood: Option<MoodOption>
    var intensity: int
    var note: string
    var currentMonth: YearMonth

    /** The page on mount: today's date and month are parameters. */
    constructor (today: string, thisMonth: YearMonth)
      requires ValidMonth(thisMonth)
      ensures moods == [] && selectedDate == today && selectedMood.None? && intensity == 3 && note == ""
      ensures currentMonth == thisMonth
    {
      moods, selectedDate, selectedMood := [], today, None;
      intensity, note, currentMonth := 3, "", thisMonth;
    }

    /** The mood shown on a calendar day. */
    function MoodShownOn(date: string): Option<Mood>
      reads this
    {
      MoodForDate(moods, date)
    }

    /** loadMoods: the month's moods replace the list; a failed fetch changes nothing. */
    method LoadMoods(fetched: Option<seq<Mood>>)
      modifies this
      ensures moods == (if fetched.Some? then fetched.value else old(moods))
      ensures selectedDate == old(selectedDate) && selectedMood == old(selectedMood)
      ensures intensity == old(intensity) && note == old(note) && currentMonth == old(currentMonth)
    {
      if fetched.Some? {
        moods := fetched.value;
      }
    }

    /**
     * loadMoodForDate: a stored mood fills the form (its option looked up by
     * type, its intensity as stored, its note or ""); no stored mood resets
     * the form to no mood, intensity 3 and an empty note; a failed call
     * changes nothing.
     */
    method LoadMoodForDate(lookup: DateLookup)
      modifies this
      ensures lookup.Found? ==> (selectedMood == OptionFor(lookup.mood.mood_type)
        && intensity == lookup.mood.mood_intensity && note == lookup.mood.note.GetOr(""))
      ensures lookup.NoMood? ==> selectedMood.None? && intensity == 3 && note == ""
      ensures lookup.LookupFailed? ==> selectedMood == old(selectedMood) && intensity == old(intensity) && note == old(note)
      ensures moods == old(moods) && selectedDate == old(selectedDate) && currentMonth == old(currentMonth)
    {
      if lookup.Found? {
        selectedMood := OptionFor(lookup.mood.mood_type);
        intensity := lookup.mood.mood_intensity;
        note := lookup.mood.note.GetOr("");
      } else if lookup.NoMood? {
        selectedMood := None;
        intensity := 3;
        note := "";
      }
    }

    /** A click on a calendar day selects it, and the selection's effect loads that day's mood. */
    method SelectDate(date: string, lookup: DateLookup)
      modifies this
      ensures selectedDate == date
      ensures lookup.Found? ==> (selectedMood == OptionFor(lookup.mood.mood_type)
        && intensity == lookup.mood.mood_intensity && note == lookup.mood.note.GetOr(""))
      ensures lookup.NoMood? ==> selectedMood.None? && intensity == 3 && note == ""
      ensures lookup.LookupFailed? ==> selectedMood == old(selectedMood) && intensity == old(intensity) && note == old(note)
      ensures moods == old(moods) && currentMonth == old(currentMonth)
    {
      selectedDate := date;
      LoadMoodForDate(lookup);
    }

    /** A click on a mood option. */
    method SelectMood(option: MoodOption)
      requires option in MoodOptions
      modifies this
      ensures selectedMood == Some(option)
      ensures moods == old(moods) && selectedDate == old(selectedDate) && intensity == old(intensity)
      ensures note == old(note) && currentMonth == old(currentMonth)
    {
      selectedMood := Some(option);
    }

    /** The range slider reports a whole number between its min 1 and max 5. */
    method SetIntensity(value: int)
      requires IntensityInRange(value)
      modifies this
      ensures intensity == value && IntensityInRange(intensity)
      ensures moods == old(moods) && selectedDate == old(selectedDate) && selectedMood == old(selectedMood)
      ensures note == old(note) && currentMonth == old(currentMonth)
    {
      intensity := value;
    }

    method SetNote(text: string)
      modifies this
      ensures note == text
      ensures moods == old(moods) && selectedDate == old(selectedDate) && selectedMood == old(selectedMood)
      ensures intensity == old(intensity) && currentMonth == old(currentMonth)
    {
      note := text;
    }

    /**
     * handleSaveMood: without a selected mood nothing is sent. Otherwise the
     * record is upserted and, when that succeeds, the month is reloaded
     * (`reloaded` is that fetch's result). The form is not changed.
     */
    method HandleSaveMood(succeeded: bool, reloaded: Option<seq<Mood>>) returns (record: Option<MoodRecord>)
      modifies this
      ensures record == SaveRequest(old(selectedDate), old(selectedMood), old(intensity), old(note))
      ensures moods == (if record.Some? && succeeded && reloaded.Some? then reloaded.value else old(moods))
      ensures selectedDate == old(selectedDate) && selectedMood == old(selectedMood)
      ensures intensity == old(intensity) && note == old(note) && currentMonth == old(currentMonth)
    {
      if selectedMood.None? {
        return None;
      }
      var option := selectedMood.value;
      record := Some(MoodRecord(selectedDate, option.moodType, intensity, Trim(note), option.color));
      if succeeded {
        LoadMoods(reloaded);
      }
    }

    /** Prev: the previous month becomes current, and the month's effect reloads the moods. */
    method HandlePrevMonth(fetched: Option<seq<Mood>>)
      requires ValidMonth(currentMonth)
      modifies this
      ensures currentMonth == PrevMonth(old(currentMonth))
      ensures moods == (if fetched.Some? then fetched.value else old(moods))
      ensures selectedDate == old(selectedDate) && selectedMood == old(selectedMood)
      ensures intensity == old(intensity) && note == old(note)
    {
      currentMonth := MonthOf(currentMonth.year, currentMonth.month - 1);
      LoadMoods(fetched);
    }

    /** Next: the following month becomes current, and the moods are reloaded. */
    method HandleNextMonth(fetched: Option<seq<Mood>>)
      requires ValidMonth(currentMonth)
      modifies this
      ensures currentMonth == NextMonth(old(currentMonth))
      ensures moods == (if fetched.Some? then fetched.value else old(moods))
      ensures selectedDate == old(selectedDate) && selectedMood == old(selectedMood)
      ensures intensity == old(intensity) && note == old(note)
    {
      currentMonth := MonthOf(currentMonth.year, currentMonth.month + 1);
      LoadMoods(fetched);
    }
  }

  /**
   * A stored mood whose type none of the options has loads as no selected
   * mood, so Save then sends nothing until a mood is picked.
   */
  lemma UnknownStoredTypeBlocksSave(date: string, mood: Mood)
    requires forall i :: 0 <= i < |MoodOptions| ==> MoodOptions[i].moodType != mood.mood_type
    ensures SaveRequest(date, OptionFor(mood.mood_type), mood.mood_intensity, mood.note.GetOr("")).None?
  {
  }
}
