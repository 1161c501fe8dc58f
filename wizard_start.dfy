/** The start view of the productions report wizard and the default values
    of its two date fields (`ProductionsReportWizardStart`). "Today" is an
    ordinal passed in by the caller. */
module WizardStart {
  import opened Ordinals

  /** The ordinal the default rules work from: today, or on a Sunday the
      same day one week earlier, so that Sunday belongs to the week that
      ends the day before. */
  function ReferenceDay(today: int): int {
    if today % 7 == Sunday then today - 7 else today
  }

  /** Default start date: the Monday of the Monday-to-Sunday week holding today. */
  function DefaultStartDate(today: int): (r: DateResult)
    requires IsOrdinal(today)
    ensures r.Ok?
    ensures r.ordinal % 7 == Monday
    ensures today - 6 <= r.ordinal <= today
  {
    var t := ReferenceDay(today);
    FromOrdinal(t - t % 7 + 1)
  }

  /** Default end date: the Saturday of the Monday-to-Sunday week holding
      today. That Saturday does not exist for the last five days of year
      9999, where `date.fromordinal` fails. */
  function DefaultEndDate(today: int): (r: DateResult)
    requires IsOrdinal(today)
    ensures r.Ok? <==> today <= MaxOrdinal - 5
    ensures r.Ok? ==> r.ordinal % 7 == Saturday && today - 1 <= r.ordinal <= today + 5
  {
    var t := ReferenceDay(today);
    FromOrdinal(t - t % 7 + 6)
  }

  /** The default start date is the only Monday among the seven days that
      end with today. */
  lemma DefaultStartIsTheWeeksMonday(today: int, monday: int)
    requires IsOrdinal(today)
    requires monday % 7 == Monday && today - 6 <= monday <= today
    ensures DefaultStartDate(today) == Ok(monday)
  {
    var s := DefaultStartDate(today).ordinal;
    assert (monday - s) % 7 == 0;
  }

  /** The default end date is the only Saturday between yesterday and five
      days ahead. */
  lemma DefaultEndIsTheWeeksSaturday(today: int, saturday: int)
    requires IsOrdinal(today) && today <= MaxOrdinal - 5
    requires saturday % 7 == Saturday && today - 1 <= saturday <= today + 5
    ensures DefaultEndDate(today) == Ok(saturday)
  {
    var e := DefaultEndDate(today).ordinal;
    assert (saturday - e) % 7 == 0;
  }

  /** The two defaults span Monday to Saturday of one week. From Monday to
      Saturday that week is the current one; on a Sunday it is the week that
      ended the day before. */
  lemma DefaultWeek(today: int)
    requires IsOrdinal(today)
    ensures var s := DefaultStartDate(today).ordinal;
      && (DefaultEndDate(today).Ok? ==> DefaultEndDate(today).ordinal == s + 5)
      && (today % 7 != Sunday ==> s <= today <= s + 5)
      && (today % 7 == Sunday ==> s == today - 6 && s + 5 == today - 1)
  {
    var s := DefaultStartDate(today).ordinal;
    if DefaultEndDate(today).Ok? {
      DefaultEndIsTheWeeksSaturday(today, s + 5);
    }
  }

  /** 2024-06-05 (ordinal 739042) is a Wednesday: the defaults are Monday
      2024-06-03 and Saturday 2024-06-08. On Sunday 2024-06-09 they stay on
      that same week. */
  lemma WeekOfJune3rd2024()
    ensures DefaultStartDate(739042) == Ok(739040)
    ensures DefaultEndDate(739042) == Ok(739045)
    ensures DefaultStartDate(739046) == Ok(739040)
    ensures DefaultEndDate(739046) == Ok(739045)
  {
  }
}
