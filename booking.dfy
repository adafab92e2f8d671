/**
 * What the two booking widgets (frontend/src/components/AppointmentBooking.js
 * and frontend/src/components/AppointmentManager.js) share: the business days
 * offered over the next thirty days, the twelve time slots, and the three-step
 * wizard (date, then time, then contact details).
 */
module Booking {
  import opened Seqs

  // ---------------------------------------------------------------------
  // Available dates
  // ---------------------------------------------------------------------

  /** The days after today the calendar looks at: offsets 1 through 30. */
  const HorizonDays: nat := 30

  /**
   * The day `offset` days after a day of weekday `today` (0 = Sunday … 6 =
   * Saturday, as `getDay`) is neither a Sunday nor a Saturday.
   */
  predicate IsBusinessDay(today: nat, offset: nat) {
    (today + offset) % 7 != 0 && (today + offset) % 7 != 6
  }

  /** The business-day offsets among 1 .. n, in increasing order. */
  function BusinessOffsets(today: nat, n: nat): seq<nat>
    decreases n
  {
    if n == 0 then []
    else BusinessOffsets(today, n - 1) + (if IsBusinessDay(today, n) then [n] else [])
  }

  predicate StrictlyIncreasing(s: seq<nat>) {
    forall i, j :: 0 <= i < j < |s| ==> s[i] < s[j]
  }

  /**
   * The offsets among 1 .. n that are business days, each once, in
   * increasing order, and no other.
   */
  lemma {:induction false} BusinessOffsetsFacts(today: nat, n: nat)
    ensures var s := BusinessOffsets(today, n);
      && StrictlyIncreasing(s)
      && (forall k :: k in s <==> 1 <= k <= n && IsBusinessDay(today, k))
    decreases n
  {
    if n > 0 {
      BusinessOffsetsFacts(today, n - 1);
      var prev := BusinessOffsets(today, n - 1);
      assert forall k :: k in prev ==> k < n;
      var s := BusinessOffsets(today, n);
      forall i, j | 0 <= i < j < |s| ensures s[i] < s[j] {
        if j >= |prev| {
          assert s[i] == prev[i] && prev[i] in prev;
        }
      }
    }
  }

  /** Shifting by a week does not change whether a day is a business day. */
  lemma WeekPeriodic(today: nat, k: nat)
    ensures IsBusinessDay(today, k + 7) == IsBusinessDay(today, k)
  {
    assert (today + k + 7) % 7 == (today + k) % 7;
  }

  /** Any seven consecutive days hold exactly five business days. */
  lemma {:induction false} WeekHasFiveBusinessDays(today: nat, n: nat)
    requires today < 7
    ensures |BusinessOffsets(today, n + 7)| == |BusinessOffsets(today, n)| + 5
    decreases n
  {
    if n == 0 {
      FirstWeek(today);
    } else {
      WeekHasFiveBusinessDays(today, n - 1);
      WeekPeriodic(today, n);
    }
  }

  lemma FirstWeek(today: nat)
    requires today < 7
    ensures |BusinessOffsets(today, 7)| == 5
  {
    assert |BusinessOffsets(today, 0)| == 0;
    assert |BusinessOffsets(today, 1)| == if IsBusinessDay(today, 1) then 1 else 0;
    assert |BusinessOffsets(today, 2)| == |BusinessOffsets(today, 1)| + if IsBusinessDay(today, 2) then 1 else 0;
    assert |BusinessOffsets(today, 3)| == |BusinessOffsets(today, 2)| + if IsBusinessDay(today, 3) then 1 else 0;
    assert |BusinessOffsets(today, 4)| == |BusinessOffsets(today, 3)| + if IsBusinessDay(today, 4) then 1 else 0;
    assert |BusinessOffsets(today, 5)| == |BusinessOffsets(today, 4)| + if IsBusinessDay(today, 5) then 1 else 0;
    assert |BusinessOffsets(today, 6)| == |BusinessOffsets(today, 5)| + if IsBusinessDay(today, 6) then 1 else 0;
    assert |BusinessOffsets(today, 7)| == |BusinessOffsets(today, 6)| + if IsBusinessDay(today, 7) then 1 else 0;
  }

  /** One more day adds at most one business day. */
  lemma OneMoreDay(today: nat, n: nat)
    ensures |BusinessOffsets(today, n)| <= |BusinessOffsets(today, n + 1)| <= |BusinessOffsets(today, n)| + 1
  {
  }

  /** `q` whole weeks hold `5q` business days. */
  lemma {:induction false} WholeWeeks(today: nat, q: nat)
    requires today < 7
    ensures |BusinessOffsets(today, 7 * q)| == 5 * q
    decreases q
  {
    if q > 0 {
      WholeWeeks(today, q - 1);
      WeekHasFiveBusinessDays(today, 7 * (q - 1));
    }
  }

  /** Thirty days hold four whole weeks and two more days: 20 to 22 business days. */
  lemma HorizonCount(today: nat)
    requires today < 7
    ensures 20 <= |BusinessOffsets(today, HorizonDays)| <= 22
  {
    WholeWeeks(today, 4);
    OneMoreDay(today, 28);
    OneMoreDay(today, 29);
  }

  /**
   * `generateAvailableDates`, with each date given by its offset in days
   * from today (the ISO and display renderings are calendar services): the
   * business days among the next thirty, in increasing order, twenty to
   * twenty-two of them.
   */
  method GenerateAvailableDates(today: nat) returns (dates: seq<nat>)
    requires today < 7
    ensures dates == BusinessOffsets(today, HorizonDays)
    ensures StrictlyIncreasing(dates)
    ensures forall k :: k in dates <==> 1 <= k <= HorizonDays && IsBusinessDay(today, k)
    ensures 20 <= |dates| <= 22
  {
    dates := [];
    for i := 1 to HorizonDays + 1
      invariant dates == BusinessOffsets(today, i - 1)
    {
      if (today + i) % 7 != 0 && (today + i) % 7 != 6 {
        dates := dates + [i];
      }
    }
    BusinessOffsetsFacts(today, HorizonDays);
    HorizonCount(today);
  }

  // ---------------------------------------------------------------------
  // Time slots
  // ---------------------------------------------------------------------

  /** `timeSlots`: twelve half-hour slots, six in the morning and six in the afternoon. */
  function TimeSlots(): (slots: seq<string>)
    ensures |slots| == 12 && NoDuplicates(slots)
    ensures forall k :: 0 <= k < |slots| ==> slots[k] != ""
  {
    ["09:00 AM", "09:30 AM", "10:00 AM", "10:30 AM",
     "11:00 AM", "11:30 AM", "02:00 PM", "02:30 PM",
     "03:00 PM", "03:30 PM", "04:00 PM", "04:30 PM"]
  }

  // ---------------------------------------------------------------------
  // The wizard
  // ---------------------------------------------------------------------

  datatype Field = Name | Email | Reason

  /** `formData`. */
  datatype Form = Form(name: string, email: string, reason: string) {
    function Get(f: Field): string {
      match f
      case Name => name
      case Email => email
      case Reason => reason
    }
  }

  /** `currentStep`, `selectedDate`, `selectedTime` and `formData`. */
  datatype Wizard = Wizard(step: nat, date: string, time: string, form: Form)

  /** The state after `resetForm` (and on first render). */
  const Initial := Wizard(1, "", "", Form("", "", ""))

  /** `handleDateSelect`: the date is chosen and the time step follows. */
  function SelectDate(w: Wizard, date: string): (w': Wizard)
    ensures w'.step == 2 && w'.date == date && w'.time == w.time && w'.form == w.form
  {
    w.(step := 2, date := date)
  }

  /** `handleTimeSelect`: the time is chosen and the details step follows. */
  function SelectTime(w: Wizard, time: string): (w': Wizard)
    ensures w'.step == 3 && w'.time == time && w'.date == w.date && w'.form == w.form
  {
    w.(step := 3, time := time)
  }

  /** `handleInputChange(field, value)`: exactly one form field changes. */
  function InputChange(w: Wizard, f: Field, value: string): (w': Wizard)
    ensures w'.form.Get(f) == value
    ensures forall g :: g != f ==> w'.form.Get(g) == w.form.Get(g)
    ensures w'.step == w.step && w'.date == w.date && w'.time == w.time
  {
    var form := match f
      case Name => w.form.(name := value)
      case Email => w.form.(email := value)
      case Reason => w.form.(reason := value);
    w.(form := form)
  }

  /** The "Back" button of the time step. */
  function BackToDate(w: Wizard): (w': Wizard)
    ensures w'.step == 1 && w'.date == w.date && w'.time == w.time && w'.form == w.form
  {
    w.(step := 1)
  }

  /** The "Back" button of the details step. */
  function BackToTime(w: Wizard): (w': Wizard)
    ensures w'.step == 2 && w'.date == w.date && w'.time == w.time && w'.form == w.form
  {
    w.(step := 2)
  }

  /** `resetForm`: step 1, no date, no time, an empty form, whatever came before. */
  function Reset(w: Wizard): (w': Wizard)
    ensures w'.step == 1 && w'.date == "" && w'.time == ""
    ensures w'.form == Form("", "", "")
  {
    Initial
  }

  /** What the user can do in the open wizard. */
  datatype Action =
    | PickDate(date: string)
    | PickTime(time: string)
    | Type(field: Field, value: string)
    | GoBack
    | Close

  /**
   * The controls on screen at each step: the date buttons and no "Back" at
   * step 1, the time buttons and "Back" at step 2, the form and "Back" at
   * step 3. Dates are ISO strings and times come from `TimeSlots`, so
   * neither is empty.
   */
  predicate Enabled(w: Wizard, a: Action) {
    match a
    case PickDate(d) => w.step == 1 && d != ""
    case PickTime(t) => w.step == 2 && t in TimeSlots()
    case Type(_, _) => w.step == 3
    case GoBack => w.step == 2 || w.step == 3
    case Close => true
  }

  function Apply(w: Wizard, a: Action): Wizard {
    match a
    case PickDate(d) => SelectDate(w, d)
    case PickTime(t) => SelectTime(w, t)
    case Type(f, v) => InputChange(w, f, v)
    case GoBack => if w.step == 2 then BackToDate(w) else BackToTime(w)
    case Close => Reset(w)
  }

  function Run(w: Wizard, actions: seq<Action>): Wizard
    decreases |actions|
  {
    if actions == [] then w else Run(Apply(w, actions[0]), actions[1..])
  }

  /** Every run of enabled actions can be replayed one action at a time. */
  predicate AllEnabled(w: Wizard, actions: seq<Action>)
    decreases |actions|
  {
    actions == [] || (Enabled(w, actions[0]) && AllEnabled(Apply(w, actions[0]), actions[1..]))
  }

  /**
   * The wizard's invariant: the step is 1, 2 or 3; from step 2 on a date is
   * chosen; at step 3 a time is chosen as well.
   */
  predicate Consistent(w: Wizard) {
    && 1 <= w.step <= 3
    && (w.step >= 2 ==> w.date != "")
    && (w.step == 3 ==> w.time != "")
  }

  /**
   * Whatever the user clicks, the wizard stays consistent; in particular the
   * details form (step 3), the only place the booking is submitted from,
   * always has a date and a time.
   */
  lemma {:induction false} RunStaysConsistent(w: Wizard, actions: seq<Action>)
    requires Consistent(w) && AllEnabled(w, actions)
    ensures Consistent(Run(w, actions))
    ensures Run(w, actions).step == 3 ==> Run(w, actions).date != "" && Run(w, actions).time != ""
    decreases |actions|
  {
    if actions != [] {
      var w' := Apply(w, actions[0]);
      assert Consistent(w') by {
        match actions[0]
        case PickTime(t) =>
          assert t != "" by {
            var slots := TimeSlots();
            var k :| 0 <= k < |slots| && slots[k] == t;
          }
        case _ =>
      }
      RunStaysConsistent(w', actions[1..]);
    }
  }

  /** The appointment data assembled on submit: the form, the date, the time and a timestamp. */
  datatype Booked = Booked(form: Form, date: string, time: string, timestamp: string)
}
