/** The weekly planner page (frontend/src/pages/PlannerPage.tsx): the start
    date of the shown week, moved a week at a time, the shown range and the
    meals listed under each weekday. */
module PlannerPage {
  import opened Types
  import opened Calendar

  /** Why a shift gives no week string: the start is not a real
      `YYYY-MM-DD` day (`toISOString` throws on an invalid date), or the
      result leaves the four-digit years. */
  datatype ShiftError = InvalidDate | YearOutOfRange

  /** `new Date(week)`, `setDate(getDate() + days)`, then the date part of
      `toISOString()`. */
  function ShiftWeek(week: string, days: int): (r: Result<string, ShiftError>)
    ensures Parse(week).None? <==> r == Err(InvalidDate)
    ensures r.Ok? ==> Parse(r.value).Some?
  {
    match Parse(week)
    case None => Err(InvalidDate)
    case Some(d) =>
      var e := AddDays(d, days);
      if InRange(e) then
        ParseFormat(e);
        Ok(Format(e))
      else Err(YearOutOfRange)
  }

  /** A successful shift lands exactly `days` calendar days away. */
  lemma ShiftDistance(week: string, days: int)
    requires ShiftWeek(week, days).Ok?
    ensures var t := Parse(ShiftWeek(week, days).value).value;
      DayNumber(t) == DayNumber(Parse(week).value) + days
    ensures ShiftWeek(week, days).value == Format(AddDays(Parse(week).value, days))
  {
    var d := Parse(week).value;
    AddDaysNumber(d, days);
    ParseFormat(AddDays(d, days));
  }

  /** Shifting back by the same amount restores the week string. */
  lemma ShiftBack(week: string, days: int)
    requires ShiftWeek(week, days).Ok?
    ensures ShiftWeek(ShiftWeek(week, days).value, -days) == Ok(week)
  {
    var d := Parse(week).value;
    var e := AddDays(d, days);
    ParseFormat(e);
    AddDaysInverse(d, days);
    FormatParse(week);
  }

  /** A shift fails for a real day only when it leaves years 0000..9999. */
  lemma ShiftFailsOnlyOutOfRange(week: string, days: int)
    requires Parse(week).Some?
    ensures ShiftWeek(week, days).Ok? <==> 0 <= AddDays(Parse(week).value, days).year <= 9999
  {
  }

  /** `formatWeekRange`: the first and the last day of the shown week, the
      last six days after the first; an unreadable start shows no range. */
  function WeekRange(week: string): (r: Option<(Date, Date)>)
    ensures r.Some? <==> Parse(week).Some?
    ensures r.Some? ==>
      (r.value.0 == Parse(week).value && Valid(r.value.1) && r.value.1.year >= 0
       && DayNumber(r.value.1) == DayNumber(r.value.0) + 6)
  {
    match Parse(week)
    case None => None
    case Some(d) =>
      AddDaysNumber(d, 6);
      Some((d, AddDays(d, 6)))
  }

  /** The seven column headings, in display order. */
  const DAYS_OF_WEEK: seq<Weekday> :=
    [Monday, Tuesday, Wednesday, Thursday, Friday, Saturday, Sunday]

  class Planner {
    var currentWeek: string
    /** The plan whose days are listed (the page's fixed sample plan). */
    const plan: MealPlan

    constructor (plan: MealPlan)
      ensures currentWeek == plan.week && this.plan == plan
    {
      this.plan := plan;
      currentWeek := plan.week;
    }

    /** `handleNextWeek`: seven days later; the error is returned when the
        date cannot be printed, and the week then stays. */
    method NextWeek() returns (failure: Option<ShiftError>)
      modifies this
      ensures ShiftWeek(old(currentWeek), 7).Ok? ==>
        currentWeek == ShiftWeek(old(currentWeek), 7).value && failure == None
      ensures ShiftWeek(old(currentWeek), 7).Err? ==>
        currentWeek == old(currentWeek) && failure == Some(ShiftWeek(old(currentWeek), 7).error)
    {
      var r := ShiftWeek(currentWeek, 7);
      if r.Ok? {
        currentWeek := r.value;
        failure := None;
      } else {
        failure := Some(r.error);
      }
    }

    /** `handlePreviousWeek`: seven days earlier. */
    method PreviousWeek() returns (failure: Option<ShiftError>)
      modifies this
      ensures ShiftWeek(old(currentWeek), -7).Ok? ==>
        currentWeek == ShiftWeek(old(currentWeek), -7).value && failure == None
      ensures ShiftWeek(old(currentWeek), -7).Err? ==>
        currentWeek == old(currentWeek) && failure == Some(ShiftWeek(old(currentWeek), -7).error)
    {
      var r := ShiftWeek(currentWeek, -7);
      if r.Ok? {
        currentWeek := r.value;
        failure := None;
      } else {
        failure := Some(r.error);
      }
    }

    /** Next then previous shows the same week again. */
    method NextThenPrevious()
      requires ShiftWeek(currentWeek, 7).Ok?
      modifies this
      ensures currentWeek == old(currentWeek)
    {
      ShiftBack(currentWeek, 7);
      var _ := NextWeek();
      var _ := PreviousWeek();
    }

    /** Previous then next shows the same week again. */
    method PreviousThenNext()
      requires ShiftWeek(currentWeek, -7).Ok?
      modifies this
      ensures currentWeek == old(currentWeek)
    {
      ShiftBack(currentWeek, -7);
      var _ := PreviousWeek();
      var _ := NextWeek();
    }

    /** The meals listed under a weekday column. */
    function DayMeals(day: Weekday): (r: seq<Meal>)
      reads this
      ensures (forall i :: 0 <= i < |plan.days| ==> plan.days[i].day != day) ==> r == []
      ensures forall i :: (0 <= i < |plan.days| && plan.days[i].day == day
        && (forall k :: 0 <= k < i ==> plan.days[k].day != day)) ==> r == plan.days[i].meals
    {
      MealsOn(plan.days, day)
    }

    /** The columns of the week grid: one per heading of `DAYS_OF_WEEK`, in
        order, each listing the meals the plan has for that weekday. */
    function Columns(): (r: seq<seq<Meal>>)
      reads this
      ensures |r| == |DAYS_OF_WEEK| == 7
      ensures forall i :: 0 <= i < |r| ==> r[i] == DayMeals(DAYS_OF_WEEK[i])
      ensures forall i :: 0 <= i < |r| ==>
                (forall j :: 0 <= j < |plan.days| ==> plan.days[j].day != DAYS_OF_WEEK[i]) ==> r[i] == []
    {
      seq(|DAYS_OF_WEEK|, i reads this requires 0 <= i < |DAYS_OF_WEEK| => DayMeals(DAYS_OF_WEEK[i]))
    }

    /** `handleAddMeal`, `handleRemoveMeal` and `handleEditMeal` only log:
        each returns the arguments it passes to `console.log` and leaves the
        shown week as it is. */
    method AddMeal(day: string) returns (logged: seq<string>)
      ensures logged == ["Add meal for", day]
      ensures currentWeek == old(currentWeek)
    {
      logged := ["Add meal for", day];
    }

    method RemoveMeal(day: string, mealType: string) returns (logged: seq<string>)
      ensures logged == ["Remove meal", mealType, "for", day]
      ensures currentWeek == old(currentWeek)
    {
      logged := ["Remove meal", mealType, "for", day];
    }

    method EditMeal(day: string, mealType: string) returns (logged: seq<string>)
      ensures logged == ["Edit meal", mealType, "for", day]
      ensures currentWeek == old(currentWeek)
    {
      logged := ["Edit meal", mealType, "for", day];
    }
  }

  /** A week of 2023 crosses into July: 2023-06-26 moves to 2023-07-03 and back. */
  lemma MonthCrossing()
    ensures ShiftWeek("2023-06-26", 7) == Ok("2023-07-03")
    ensures ShiftWeek("2023-07-03", -7) == Ok("2023-06-26")
  {
    var d := Date(2023, 6, 26);
    var e := Date(2023, 7, 3);
    JuneToJuly();
    AddDaysInverse(d, 7);
    PrintedJuneToJuly();
    ParseFormat(d);
    ParseFormat(e);
  }

  /** Seven single steps from June 26 of 2023. */
  lemma JuneToJuly()
    ensures AddDays(Date(2023, 6, 26), 7) == Date(2023, 7, 3)
  {
    assert AddDays(Date(2023, 7, 2), 1) == Date(2023, 7, 3);
    assert AddDays(Date(2023, 7, 1), 2) == Date(2023, 7, 3);
    assert NextDay(Date(2023, 6, 30)) == Date(2023, 7, 1);
    assert AddDays(Date(2023, 6, 30), 3) == Date(2023, 7, 3);
    assert AddDays(Date(2023, 6, 29), 4) == Date(2023, 7, 3);
    assert AddDays(Date(2023, 6, 28), 5) == Date(2023, 7, 3);
    assert AddDays(Date(2023, 6, 27), 6) == Date(2023, 7, 3);
  }

  /** The two dates print as expected. */
  lemma PrintedJuneToJuly()
    ensures Format(Date(2023, 6, 26)) == "2023-06-26"
    ensures Format(Date(2023, 7, 3)) == "2023-07-03"
  {
    assert Pad4(2023) == "2023";
    assert Pad2(6) == "06" && Pad2(26) == "26" && Pad2(7) == "07" && Pad2(3) == "03";
  }
}
