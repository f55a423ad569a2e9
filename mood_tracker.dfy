/** The mood tracker (src/pages/MoodTracker.tsx): six mood options, a week of
    day/mood pairs that slides by one day on every save, a streak counter, and
    the week's average mood. */
module MoodTracker {
  import opened Common

  datatype MoodOption = MoodOption(emoji: string, name: string, value: int, color: string)

  const MoodOptions: seq<MoodOption> := [
    MoodOption("😢", "Very Sad", 1, "text-blue-500"),
    MoodOption("😔", "Sad", 2, "text-blue-400"),
    MoodOption("😐", "Okay", 3, "text-gray-500"),
    MoodOption("🙂", "Good", 4, "text-green-400"),
    MoodOption("😊", "Great", 5, "text-green-500"),
    MoodOption("🤩", "Amazing", 6, "text-yellow-500")
  ]

  /** One point of the weekly chart: a short weekday name and a mood value. */
  datatype DayMood = DayMood(day: string, mood: int)

  const InitialWeek: seq<DayMood> := [
    DayMood("Mon", 3), DayMood("Tue", 4), DayMood("Wed", 2), DayMood("Thu", 5),
    DayMood("Fri", 4), DayMood("Sat", 3), DayMood("Sun", 4)
  ]

  const WeekLength := 7
  const InitialStreak := 7
  const LowestMood := 1
  const HighestMood := 6

  /** A value some option carries: exactly 1..6. */
  ghost predicate IsMoodValue(v: int)
  {
    exists i :: 0 <= i < |MoodOptions| && MoodOptions[i].value == v
  }

  lemma MoodValues(v: int)
    ensures IsMoodValue(v) <==> LowestMood <= v <= HighestMood
  {
    if LowestMood <= v <= HighestMood {
      assert MoodOptions[v - 1].value == v;
    }
  }

  /** `options.find(m => m.value === v)`: the first option with that value, or
      nothing when no option has it. */
  function FindByValue(options: seq<MoodOption>, v: int): (r: Option<MoodOption>)
    ensures r.Some? ==> r.value in options && r.value.value == v
    ensures r.Some? ==> exists i :: 0 <= i < |options| && options[i] == r.value && forall j :: 0 <= j < i ==> options[j].value != v
    ensures r.None? <==> forall i :: 0 <= i < |options| ==> options[i].value != v
  {
    if options == [] then None
    else if options[0].value == v then Some(options[0])
    else
      var r := FindByValue(options[1..], v);
      if r.Some? then
        var i :| 1 <= i + 1 < |options| && options[1..][i] == r.value && forall j :: 0 <= j < i ==> options[1..][j].value != v;
        assert options[i + 1] == r.value;
        r
      else r
  }

  /** `selectedMood ? find(...) : null`: the option shown for the selection;
      a selection of 0 (which no button produces) would count as none. */
  function SelectedMoodInfo(selected: Option<int>): (r: Option<MoodOption>)
    ensures r.Some? ==> selected.Some? && r.value.value == selected.value && r.value in MoodOptions
    ensures selected.Some? && LowestMood <= selected.value <= HighestMood ==> r == Some(MoodOptions[selected.value - 1])
  {
    if selected.None? || selected.value == 0 then None
    else
      OptionOfValue(selected.value);
      FindByValue(MoodOptions, selected.value)
  }

  /** Option `v - 1` is the one with value `v`. */
  lemma OptionOfValue(v: int)
    ensures LowestMood <= v <= HighestMood ==> FindByValue(MoodOptions, v) == Some(MoodOptions[v - 1])
  {
    if LowestMood <= v <= HighestMood {
      assert forall k :: 0 <= k < |MoodOptions| ==> MoodOptions[k].value == k + 1;
      var r := FindByValue(MoodOptions, v);
      assert MoodOptions[v - 1].value == v;
      var i :| 0 <= i < |MoodOptions| && MoodOptions[i] == r.value && forall j :: 0 <= j < i ==> MoodOptions[j].value != v;
      assert i == v - 1;
    }
  }

  /** The week after saving `entry`: the oldest day drops out and the new one is last. */
  function Slide(week: seq<DayMood>, entry: DayMood): (r: seq<DayMood>)
    requires |week| > 0
    ensures |r| == |week| && r[|r| - 1] == entry
    ensures forall i :: 0 <= i < |r| - 1 ==> r[i] == week[i + 1]
  {
    week[1..] + [entry]
  }

  /** The week after saving `entries` in order. */
  function SlideAll(week: seq<DayMood>, entries: seq<DayMood>): seq<DayMood>
    requires |week| > 0
    decreases |entries|
  {
    if entries == [] then week else SlideAll(Slide(week, entries[0]), entries[1..])
  }

  /** The week is always the last seven of all the days seen: the initial week
      followed by every saved day. */
  lemma {:induction false} SlideAllKeepsLatest(week: seq<DayMood>, entries: seq<DayMood>)
    requires |week| > 0
    ensures |SlideAll(week, entries)| == |week|
    ensures SlideAll(week, entries) == (week + entries)[|entries|..]
    decreases |entries|
  {
    if entries != [] {
      SlideAllKeepsLatest(Slide(week, entries[0]), entries[1..]);
      assert Slide(week, entries[0]) + entries[1..] == (week + entries)[1..];
    }
  }

  /** Sum of the moods of `data`. */
  function Total(data: seq<DayMood>): int
  {
    if data == [] then 0 else Total(data[..|data| - 1]) + data[|data| - 1].mood
  }

  /** Moods 1..6 give a total between `n` and `6n` for `n` days. */
  lemma {:induction false} TotalBounds(data: seq<DayMood>)
    requires forall i :: 0 <= i < |data| ==> LowestMood <= data[i].mood <= HighestMood
    ensures LowestMood * |data| <= Total(data) <= HighestMood * |data|
  {
    if data != [] {
      TotalBounds(data[..|data| - 1]);
    }
  }

  /** The average mood as a rational (its one-decimal formatting left aside). */
  function AverageMood(data: seq<DayMood>): (avg: real)
    requires |data| > 0
    ensures avg * |data| as real == Total(data) as real
  {
    Total(data) as real / |data| as real
  }

  /** With every mood from the options, the average lies on the chart's 1..6 scale. */
  lemma AverageOnScale(data: seq<DayMood>)
    requires |data| > 0
    requires forall i :: 0 <= i < |data| ==> LowestMood <= data[i].mood <= HighestMood
    ensures LowestMood as real <= AverageMood(data) <= HighestMood as real
  {
    TotalBounds(data);
    QuotientBounds(Total(data) as real, |data| as real, LowestMood as real, HighestMood as real);
  }

  /** A quotient by a positive divisor keeps the bounds the dividend has in multiples of it. */
  lemma QuotientBounds(t: real, n: real, lo: real, hi: real)
    requires n > 0.0 && lo * n <= t <= hi * n
    ensures lo <= t / n <= hi
  {
    assert t / n * n == t;
  }

  class MoodTrackerPage {
    var selectedMood: Option<int>
    var moodData: seq<DayMood>
    var currentStreak: int

    /** Seven days, each with a mood of the options; a selection is an option's
        value; the streak never falls below its start. */
    ghost predicate Valid()
      reads this
    {
      && |moodData| == WeekLength
      && (forall i :: 0 <= i < |moodData| ==> LowestMood <= moodData[i].mood <= HighestMood)
      && (selectedMood.Some? ==> LowestMood <= selectedMood.value <= HighestMood)
      && currentStreak >= InitialStreak
    }

    constructor ()
      ensures Valid()
      ensures selectedMood == None && moodData == InitialWeek && currentStreak == InitialStreak
    {
      selectedMood := None;
      moodData := InitialWeek;
      currentStreak := InitialStreak;
    }

    /** A mood button: its option's value becomes the selection. */
    method HandleMoodSelect(v: int)
      requires Valid() && IsMoodValue(v)
      modifies this
      ensures Valid() && selectedMood == Some(v)
      ensures moodData == old(moodData) && currentStreak == old(currentStreak)
    {
      MoodValues(v);
      selectedMood := Some(v);
    }

    /** "Save Today's Mood" with `today` the short weekday name: with nothing
        selected nothing changes; otherwise today's mood joins the week as its
        last day, the oldest day drops out, the streak grows by one and the
        selection is cleared. */
    method SaveMood(today: string)
      requires Valid()
      modifies this
      ensures Valid()
      ensures old(selectedMood).None? ==>
        selectedMood == None && moodData == old(moodData) && currentStreak == old(currentStreak)
      ensures old(selectedMood).Some? ==>
        && moodData == Slide(old(moodData), DayMood(today, old(selectedMood).value))
        && currentStreak == old(currentStreak) + 1
        && selectedMood == None
    {
      if selectedMood == None {
        return;
      }
      var newData := moodData[1..] + [DayMood(today, selectedMood.value)];
      moodData := newData;
      currentStreak := currentStreak + 1;
      selectedMood := None;
    }

    /** The "Average Mood" card: the week's mean, on the 1..6 scale. */
    function Average(): (avg: real)
      reads this
      requires Valid()
      ensures LowestMood as real <= avg <= HighestMood as real
      ensures avg * WeekLength as real == Total(moodData) as real
    {
      AverageOnScale(moodData);
      AverageMood(moodData)
    }
  }

  /** Selecting and saving a mood on each of `days` leaves exactly those days as
      the chart's week once there are seven of them, and adds one to the streak
      per save. */
  method TrackWeek(days: seq<DayMood>) returns (week: seq<DayMood>, streak: int)
    requires |days| == WeekLength
    requires forall i :: 0 <= i < |days| ==> IsMoodValue(days[i].mood)
    ensures week == days
    ensures streak == InitialStreak + WeekLength
  {
    var page := new MoodTrackerPage();
    for k := 0 to |days|
      invariant page.Valid()
      invariant page.moodData == SlideAll(InitialWeek, days[..k])
      invariant page.currentStreak == InitialStreak + k
    {
      page.HandleMoodSelect(days[k].mood);
      page.SaveMood(days[k].day);
      SlideAllSnoc(InitialWeek, days[..k], days[k]);
      assert days[..k + 1] == days[..k] + [days[k]];
    }
    SlideAllKeepsLatest(InitialWeek, days);
    assert days[..|days|] == days;
    assert (InitialWeek + days)[|days|..] == days;
    week := page.moodData;
    streak := page.currentStreak;
  }

  /** Saving one more day slides the week once more. */
  lemma {:induction false} SlideAllSnoc(week: seq<DayMood>, entries: seq<DayMood>, entry: DayMood)
    requires |week| > 0
    ensures |SlideAll(week, entries)| == |week|
    ensures SlideAll(week, entries + [entry]) == Slide(SlideAll(week, entries), entry)
    decreases |entries|
  {
    if entries == [] {
      assert ([] + [entry])[1..] == [];
    } else {
      SlideAllSnoc(Slide(week, entries[0]), entries[1..], entry);
      assert (entries + [entry])[1..] == entries[1..] + [entry];
    }
  }
}
