/**
 The rule-based insight engine (attendance_app/ai_service.py): turnout prediction, slot
 scoring and recommendation, attendance-pattern analysis, and notification fan-out.
 Rates are exact reals; the source's float rounding for display is not modelled.
 */
module AiService {
  import opened Basics
  import opened Models

  // ===========================================================================
  // predict_attendance
  // ===========================================================================

  /** At most the ten most recent completed sessions are considered. */
  const HistoryWindow := 10
  /** `course.students.count() or 30` */
  const DefaultEnrolment := 30
  const DefaultBaseRate: real := 0.75

  datatype Rush = Low | Medium | High

  /** The prediction, with the rate as a fraction rather than a rounded percentage. */
  datatype Prediction = Prediction(count: int, enrolled: nat, rate: real, rush: Rush, confidence: real)

  function EnrolledCount(students: nat): (n: nat)
    ensures n > 0
    ensures students > 0 ==> n == students
    ensures students == 0 ==> n == DefaultEnrolment
  {
    if students == 0 then DefaultEnrolment else students
  }

  /** The `[:10]` slice of the completed sessions, most recent first. */
  function Recent<T>(history: seq<T>): (r: seq<T>)
    ensures |r| <= HistoryWindow && |r| <= |history|
    ensures r == history[..|r|]
    ensures |r| == if |history| < HistoryWindow then |history| else HistoryWindow
  {
    if |history| <= HistoryWindow then history else history[..HistoryWindow]
  }

  /** `day_factors.get(day, 0.80)`; the default is only reached outside Monday to Sunday. */
  function DayFactor(weekday: int): (f: real)
    ensures 0.45 <= f <= 0.92
  {
    if weekday == 0 then 0.85
    else if weekday == 1 then 0.90
    else if weekday == 2 then 0.88
    else if weekday == 3 then 0.92
    else if weekday == 4 then 0.80
    else if weekday == 5 then 0.60
    else if weekday == 6 then 0.45
    else 0.80
  }

  /** The time-of-day factor, by the hour of the start time. */
  function TimeFactor(hour: int): (f: real)
    ensures 0.65 <= f <= 0.95
    ensures f == 0.95 <==> 9 <= hour <= 11
    ensures f == 0.90 <==> 14 <= hour <= 16
    ensures f == 0.75 <==> 17 <= hour <= 19
  {
    if 9 <= hour <= 11 then 0.95
    else if 14 <= hour <= 16 then 0.90
    else if 17 <= hour <= 19 then 0.75
    else 0.65
  }

  function RushLevel(rate: real): (r: Rush)
    ensures r == High <==> rate > 0.85
    ensures r == Medium <==> 0.65 < rate <= 0.85
    ensures r == Low <==> rate <= 0.65
  {
    if rate > 0.85 then High
    else if rate > 0.65 then Medium
    else Low
  }

  /** `min(0.95, 0.5 + n * 0.05)` before rounding. */
  function Confidence(n: nat): (c: real)
    ensures 0.5 <= c <= 0.95
    ensures c == 0.95 <==> n >= 9
    ensures n < 9 ==> c == 0.5 + 0.05 * n as real
  {
    var raw := 0.5 + n as real * 0.05;
    if 0.95 <= raw then 0.95 else raw
  }

  /** The confidence never drops when more history is available. */
  lemma ConfidenceMonotone(m: nat, n: nat)
    requires m <= n
    ensures Confidence(m) <= Confidence(n)
  {
  }

  /** The sum of `attendance_count / enrolled_count` over the sessions. */
  function SumRates(counts: seq<nat>, enrolled: nat): (s: real)
    requires enrolled > 0
    ensures s >= 0.0
  {
    if counts == [] then 0.0
    else SumRates(counts[..|counts| - 1], enrolled) + counts[|counts| - 1] as real / enrolled as real
  }

  /** The mean rate of the considered sessions, or 0.75 without history. */
  function BaseRate(recent: seq<nat>, enrolled: nat): (r: real)
    requires enrolled > 0
    ensures r >= 0.0
  {
    if recent == [] then DefaultBaseRate else SumRates(recent, enrolled) / |recent| as real
  }

  lemma {:induction false} SumRatesAtMostCount(counts: seq<nat>, enrolled: nat)
    requires enrolled > 0
    requires forall i :: 0 <= i < |counts| ==> counts[i] <= enrolled
    ensures SumRates(counts, enrolled) <= |counts| as real
  {
    if counts != [] {
      var n := |counts| - 1;
      SumRatesAtMostCount(counts[..n], enrolled);
      assert counts[n] as real / enrolled as real <= 1.0;
    }
  }

  /** When no session had more present students than are enrolled, the base rate is at most 1. */
  lemma BaseRateAtMostOne(recent: seq<nat>, enrolled: nat)
    requires enrolled > 0
    requires forall i :: 0 <= i < |recent| ==> recent[i] <= enrolled
    ensures BaseRate(recent, enrolled) <= 1.0
  {
    if recent != [] {
      SumRatesAtMostCount(recent, enrolled);
    }
  }

  lemma MulNonNegative(a: real, b: real)
    requires 0.0 <= a && 0.0 <= b
    ensures 0.0 <= a * b
  {
  }

  lemma MulMonotone(a: real, b: real, c: real)
    requires 0.0 <= a && b <= c
    ensures a * b <= a * c
  {
  }

  /**
   The product of the two factors is at most 0.874 (Thursday morning); it is above 0.85 only
   on Tuesday and Thursday mornings, and above 0.86 only on Thursday mornings.
   */
  lemma FactorProductBounds(weekday: int, hour: int)
    ensures 0.0 <= DayFactor(weekday) * TimeFactor(hour) <= 0.874
    ensures DayFactor(weekday) * TimeFactor(hour) > 0.85 ==> (weekday == 1 || weekday == 3) && 9 <= hour <= 11
    ensures DayFactor(weekday) * TimeFactor(hour) > 0.86 <==> weekday == 3 && 9 <= hour <= 11
  {
    var d := DayFactor(weekday);
    if 9 <= hour <= 11 {
      assert TimeFactor(hour) == 0.95;
    } else if 14 <= hour <= 16 {
      assert TimeFactor(hour) == 0.90;
    } else if 17 <= hour <= 19 {
      assert TimeFactor(hour) == 0.75;
    } else {
      assert TimeFactor(hour) == 0.65;
    }
  }

  /** `base_rate * day_factor * time_factor`, for factors within the ranges of the two tables. */
  function ScaledRate(base: real, dayFactor: real, timeFactor: real): (rate: real)
    requires 0.0 <= base
    requires 0.45 <= dayFactor <= 0.92 && 0.65 <= timeFactor <= 0.95
    ensures 0.0 <= rate <= 0.874 * base
  {
    MulMonotone(timeFactor, dayFactor, 0.92);
    MulMonotone(0.92, timeFactor, 0.95);
    assert dayFactor * timeFactor == timeFactor * dayFactor;
    assert dayFactor * timeFactor <= 0.874;
    MulNonNegative(base, dayFactor * timeFactor);
    MulMonotone(base, dayFactor * timeFactor, 0.874);
    base * dayFactor * timeFactor
  }

  /** `int(enrolled_count * predicted_rate)`: truncation, which is the floor for a non-negative product. */
  function ExpectedCount(enrolled: nat, rate: real): (count: int)
    requires 0.0 <= rate
    ensures 0 <= count
    ensures count as real <= enrolled as real * rate < count as real + 1.0
  {
    MulNonNegative(enrolled as real, rate);
    (enrolled as real * rate).Floor
  }

  /**
   The prediction for a course whose completed sessions had the given attendance counts
   (most recent first) and which has the given number of enrolled students.
   */
  function Predict(history: seq<nat>, students: nat, weekday: int, hour: int): (p: Prediction)
    ensures p.enrolled == EnrolledCount(students)
    ensures 0.0 <= p.rate <= 0.874 * BaseRate(Recent(history), p.enrolled)
    ensures p.rush == RushLevel(p.rate)
    ensures p.count == ExpectedCount(p.enrolled, p.rate)
    ensures p.confidence == Confidence(|Recent(history)|)
  {
    var recent := Recent(history);
    var enrolled := EnrolledCount(students);
    var rate := ScaledRate(BaseRate(recent, enrolled), DayFactor(weekday), TimeFactor(hour));
    Prediction(ExpectedCount(enrolled, rate), enrolled, rate, RushLevel(rate), Confidence(|recent|))
  }

  /** The rate is the base rate scaled by the two factors. */
  lemma PredictedRateIsProduct(history: seq<nat>, students: nat, weekday: int, hour: int)
    ensures Predict(history, students, weekday, hour).rate
            == BaseRate(Recent(history), EnrolledCount(students)) * DayFactor(weekday) * TimeFactor(hour)
  {
  }

  /**
   `predict_attendance`, with the course's completed sessions given as their attendance
   counts in descending date order and the start time's hour read from the start time.
   */
  method PredictAttendance(history: seq<nat>, students: nat, date: Day, start: TimeOfDay) returns (p: Prediction)
    ensures p == Predict(history, students, Weekday(date), Hour(start))
  {
    var pastClasses := Recent(history);
    var enrolledCount := if students == 0 then DefaultEnrolment else students;
    var baseRate := DefaultBaseRate;
    if |pastClasses| > 0 {
      var totalRate := 0.0;
      var i := 0;
      while i < |pastClasses|
        invariant 0 <= i <= |pastClasses|
        invariant totalRate == SumRates(pastClasses[..i], enrolledCount)
      {
        if enrolledCount > 0 {
          totalRate := totalRate + pastClasses[i] as real / enrolledCount as real;
        }
        assert pastClasses[..i + 1][..i] == pastClasses[..i];
        i := i + 1;
      }
      assert pastClasses[..i] == pastClasses;
      baseRate := totalRate / |pastClasses| as real;
    }
    var dayFactor := DayFactor(Weekday(date));
    var timeFactor := TimeFactor(Hour(start));
    var predictedRate := ScaledRate(baseRate, dayFactor, timeFactor);
    var predictedCount := ExpectedCount(enrolledCount, predictedRate);
    var rushLevel := Low;
    if predictedRate > 0.85 {
      rushLevel := High;
    } else if predictedRate > 0.65 {
      rushLevel := Medium;
    }
    p := Prediction(predictedCount, enrolledCount, predictedRate, rushLevel, Confidence(|pastClasses|));
  }

  /**
   Without completed sessions the rush level is never high, and it is medium only for a
   Thursday morning start (0.75 x 0.92 x 0.95 is the only product above 0.65).
   */
  lemma NoHistoryRush(students: nat, weekday: int, hour: int)
    ensures Predict([], students, weekday, hour).rush != High
    ensures Predict([], students, weekday, hour).rush == Medium <==> weekday == 3 && 9 <= hour <= 11
  {
    FactorProductBounds(weekday, hour);
    var product := DayFactor(weekday) * TimeFactor(hour);
    assert Predict([], students, weekday, hour).rate == 0.75 * product;
  }

  /**
   With attendance never above the enrolment, a high rush is only predicted for Tuesday or
   Thursday mornings: on any other day or hour the product of the factors is at most 0.85.
   */
  lemma HighRushOnlyTuesdayOrThursdayMorning(history: seq<nat>, students: nat, weekday: int, hour: int)
    requires forall i :: 0 <= i < |history| ==> history[i] <= EnrolledCount(students)
    requires Predict(history, students, weekday, hour).rush == High
    ensures weekday == 1 || weekday == 3
    ensures 9 <= hour <= 11
  {
    var base := BaseRate(Recent(history), EnrolledCount(students));
    BaseRateAtMostOne(Recent(history), EnrolledCount(students));
    FactorProductBounds(weekday, hour);
    var product := DayFactor(weekday) * TimeFactor(hour);
    assert Predict(history, students, weekday, hour).rate == base * product;
    MulMonotone(product, base, 1.0);
  }

  lemma CountBelowEnrolment(enrolled: nat, rate: real)
    requires enrolled > 0 && 0.0 <= rate <= 0.874
    ensures ExpectedCount(enrolled, rate) < enrolled
  {
    MulMonotone(enrolled as real, rate, 0.874);
  }

  /** With attendance never above the enrolment, the predicted count stays below the enrolment. */
  lemma PredictedCountBelowEnrolment(history: seq<nat>, students: nat, weekday: int, hour: int)
    requires forall i :: 0 <= i < |history| ==> history[i] <= EnrolledCount(students)
    ensures Predict(history, students, weekday, hour).count < EnrolledCount(students)
  {
    var p := Predict(history, students, weekday, hour);
    BaseRateAtMostOne(Recent(history), EnrolledCount(students));
    assert p.rate <= 0.874;
    CountBelowEnrolment(p.enrolled, p.rate);
  }

  /**
   The worked example: 30 students, completed sessions with 30, 25 and 20 present, a
   Tuesday at 10:00. The base rate is 5/6, the rate 0.7125, a medium rush, 21 expected.
   */
  lemma PredictionExample()
    ensures Predict([30, 25, 20], 30, 1, 10).rate == 0.7125
    ensures Predict([30, 25, 20], 30, 1, 10).rush == Medium
    ensures Predict([30, 25, 20], 30, 1, 10).count == 21
    ensures Predict([30, 25, 20], 30, 1, 10).confidence == 0.65
  {
    var h: seq<nat> := [30, 25, 20];
    assert h[..2] == [30, 25] && h[..2][..1] == [30] && h[..2][..1][..0] == [];
    assert SumRates([30], 30) == 1.0;
    assert SumRates([30, 25], 30) == 1.0 + 25.0 / 30.0;
    assert SumRates(h, 30) == 2.5;
    assert BaseRate(Recent(h), 30) == 2.5 / 3.0;
    assert Predict(h, 30, 1, 10).rate == 2.5 / 3.0 * 0.90 * 0.95;
  }

  // ===========================================================================
  // _score_slot and _slot_reason
  // ===========================================================================

  /** `_score_slot`: 100, +10 Tuesday to Thursday, +20 for a 9-11 start or else +15 for 14-16. */
  function ScoreSlot(weekday: int, hour: int): (score: int)
    ensures 100 <= score <= 130
    ensures score == 130 <==> 1 <= weekday <= 3 && 9 <= hour <= 11
    ensures score == 100 <==> !(1 <= weekday <= 3) && !(9 <= hour <= 11) && !(14 <= hour <= 16)
  {
    var score := 100;
    var score := if 1 <= weekday <= 3 then score + 10 else score;
    if 9 <= hour <= 11 then score + 20
    else if 14 <= hour <= 16 then score + 15
    else score
  }

  const MidWeekReason := "Mid-week slots see higher attendance"
  const MorningReason := "Morning sessions have best engagement"
  const AfternoonReason := "Afternoon slots are well-attended"
  const DefaultReason := "Good availability window"

  /** The reasons `_slot_reason` collects before joining them. */
  function SlotReasons(weekday: int, hour: int): seq<string> {
    (if weekday == 1 || weekday == 2 then [MidWeekReason] else [])
    + (if 9 <= hour <= 11 then [MorningReason] else if 14 <= hour <= 16 then [AfternoonReason] else [])
  }

  /**
   The mid-week reason is given on Tuesday and Wednesday only, the morning and the afternoon
   reasons in their hours only and never both, and no other reason is given.
   */
  lemma SlotReasonsRules(weekday: int, hour: int)
    ensures var reasons := SlotReasons(weekday, hour);
      && |reasons| <= 2
      && (MidWeekReason in reasons <==> weekday == 1 || weekday == 2)
      && (MorningReason in reasons <==> 9 <= hour <= 11)
      && (AfternoonReason in reasons <==> 14 <= hour <= 16)
      && !(MorningReason in reasons && AfternoonReason in reasons)
      && forall r :: r in reasons ==> r in {MidWeekReason, MorningReason, AfternoonReason}
  {
  }

  /** `'; '.join(reasons)` */
  function JoinReasons(reasons: seq<string>): string
    requires reasons != []
  {
    if |reasons| == 1 then reasons[0] else reasons[0] + "; " + JoinReasons(reasons[1..])
  }

  /** `_slot_reason` */
  function SlotReason(weekday: int, hour: int): string {
    var reasons := SlotReasons(weekday, hour);
    if reasons == [] then DefaultReason else JoinReasons(reasons)
  }

  /**
   A Thursday slot scores like a Tuesday slot, 10 above the same slot on Monday, but only
   Tuesday is given the mid-week reason.
   */
  lemma ThursdayBonusWithoutReason(hour: int)
    ensures ScoreSlot(3, hour) == ScoreSlot(1, hour) == ScoreSlot(0, hour) + 10
    ensures MidWeekReason in SlotReasons(1, hour)
    ensures MidWeekReason !in SlotReasons(3, hour)
  {
  }

  /** Only a slot outside both bonus hours on a day other than Tuesday or Wednesday gets the generic reason. */
  lemma GenericReasonExactly(weekday: int, hour: int)
    ensures SlotReason(weekday, hour) == DefaultReason
            <== weekday != 1 && weekday != 2 && !(9 <= hour <= 11) && !(14 <= hour <= 16)
    ensures SlotReasons(weekday, hour) == []
            <==> weekday != 1 && weekday != 2 && !(9 <= hour <= 11) && !(14 <= hour <= 16)
  {
  }

  // ===========================================================================
  // get_schedule_recommendations
  // ===========================================================================

  datatype Slot = Slot(start: TimeOfDay, end: TimeOfDay)

  /** 09:00-10:30, 10:30-12:00, 14:00-15:30, 15:30-17:00. */
  const Slots: seq<Slot> := [Slot(32400, 37800), Slot(37800, 43200), Slot(50400, 55800), Slot(55800, 61200)]
  const ScanDays := 14
  const MaxRecommendations := 5

  /** Monday to Thursday. */
  predicate IsGoodDay(weekday: int) {
    0 <= weekday <= 3
  }

  /** A recommendation, with the weekday standing for the day's name. */
  datatype Recommendation = Recommendation(
    date: Day, weekday: int, start: TimeOfDay, end: TimeOfDay, score: int, reason: string)

  /** A (date, start) pair compared as `date.isoformat()` and `'%H:%M'`: the start is truncated to the minute. */
  function SlotKey(d: Day, t: TimeOfDay): (Day, int) {
    (d, t / 60)
  }

  /** The (date, start) pairs of the course's scheduled or active sessions. */
  function BookedSlots(sessions: seq<Session>, course: CourseId): set<(Day, int)> {
    set i | 0 <= i < |sessions| && sessions[i].course == course
                                 && (sessions[i].status == Scheduled || sessions[i].status == Active)
      :: SlotKey(sessions[i].date, sessions[i].start)
  }

  function Candidate(d: Day, slot: Slot): Recommendation {
    var w := Weekday(d);
    Recommendation(d, w, slot.start, slot.end, ScoreSlot(w, Hour(slot.start)), SlotReason(w, Hour(slot.start)))
  }

  /** The unbooked slots of one day, in slot order. */
  function DaySlots(d: Day, booked: set<(Day, int)>, n: nat): (r: seq<Recommendation>)
    requires n <= |Slots|
    ensures |r| <= n
  {
    if n == 0 then []
    else
      var last := Slots[n - 1];
      DaySlots(d, booked, n - 1)
      + (if SlotKey(d, last.start) in booked then [] else [Candidate(d, last)])
  }

  /** The free slots of a day if it is a good day, and nothing otherwise. */
  function DayCandidates(d: Day, booked: set<(Day, int)>): (r: seq<Recommendation>)
    ensures |r| <= |Slots|
    ensures !IsGoodDay(Weekday(d)) ==> r == []
  {
    if IsGoodDay(Weekday(d)) then DaySlots(d, booked, |Slots|) else []
  }

  /** The candidates of the 14 days of the window that starts on `base`, one list per day. */
  function WindowDays(base: Day, booked: set<(Day, int)>): (days: seq<seq<Recommendation>>)
    ensures |days| == ScanDays
    ensures forall i :: 0 <= i < ScanDays ==> days[i] == DayCandidates(base + i, booked)
  {
    seq(ScanDays, i requires 0 <= i < ScanDays => DayCandidates(base + i, booked))
  }

  /**
   The scan from day `base + i` on, over the days' candidate lists, having collected `acc`:
   each day contributes its candidates, and the scan stops after the first good day that
   leaves 5 or more collected.
   */
  function ScanFrom(base: Day, days: seq<seq<Recommendation>>, i: nat, acc: seq<Recommendation>): seq<Recommendation>
    decreases |days| - i
  {
    if i >= |days| then acc
    else
      var acc' := acc + days[i];
      if IsGoodDay(Weekday(base + i)) && |acc'| >= MaxRecommendations then acc'
      else ScanFrom(base, days, i + 1, acc')
  }

  /** What the scan collects, starting tomorrow. */
  function Collected(today: Day, booked: set<(Day, int)>): seq<Recommendation> {
    ScanFrom(today + 1, WindowDays(today + 1, booked), 0, [])
  }

  /** The candidate lists from day `i` on, joined: the scan without its early stop. */
  function AllFrom(days: seq<seq<Recommendation>>, i: nat): seq<Recommendation>
    decreases |days| - i
  {
    if i >= |days| then [] else days[i] + AllFrom(days, i + 1)
  }

  predicate IsPrefix<T(==)>(a: seq<T>, b: seq<T>) {
    |a| <= |b| && a == b[..|a|]
  }

  lemma PrefixOfAppend<T>(a: seq<T>, b: seq<T>)
    ensures IsPrefix(a, a + b)
  {
    assert (a + b)[..|a|] == a;
  }

  lemma AppendAssociates<T>(a: seq<T>, b: seq<T>, c: seq<T>)
    ensures a + (b + c) == (a + b) + c
  {
  }

  /**
   The scan collects a prefix of all candidates of the window; it is all of them when fewer
   than 5 were found.
   */
  lemma {:induction false} ScanIsPrefixOfAll(base: Day, days: seq<seq<Recommendation>>, i: nat, acc: seq<Recommendation>)
    ensures IsPrefix(ScanFrom(base, days, i, acc), acc + AllFrom(days, i))
    ensures |ScanFrom(base, days, i, acc)| < MaxRecommendations ==> ScanFrom(base, days, i, acc) == acc + AllFrom(days, i)
    decreases |days| - i
  {
    if i >= |days| {
      AppendAssociates(acc, [], []);
      PrefixOfAppend(acc, []);
    } else {
      var day := days[i];
      var rest := AllFrom(days, i + 1);
      AppendAssociates(acc, day, rest);
      if IsGoodDay(Weekday(base + i)) && |acc + day| >= MaxRecommendations {
        PrefixOfAppend(acc + day, rest);
      } else {
        ScanIsPrefixOfAll(base, days, i + 1, acc + day);
      }
    }
  }

  /**
   Starting with fewer than 5 collected, over days of at most 4 candidates each and none
   on a bad day, the scan collects at most 8 (4 + the candidates of one day).
   */
  lemma {:induction false} ScanBound(base: Day, days: seq<seq<Recommendation>>, i: nat, acc: seq<Recommendation>)
    requires |acc| < MaxRecommendations
    requires forall k :: 0 <= k < |days| ==> |days[k]| <= |Slots|
    requires forall k :: 0 <= k < |days| && !IsGoodDay(Weekday(base + k)) ==> days[k] == []
    ensures |ScanFrom(base, days, i, acc)| <= MaxRecommendations - 1 + |Slots|
    decreases |days| - i
  {
    if i < |days| {
      var acc' := acc + days[i];
      if !(IsGoodDay(Weekday(base + i)) && |acc'| >= MaxRecommendations) {
        ScanBound(base, days, i + 1, acc');
      }
    }
  }

  /**
   A proper candidate for a scan starting on `base`: a Monday-to-Thursday date within the
   14 days, one of the four slots, not booked, scored and explained by the fixed rules.
   */
  ghost predicate IsProperCandidate(x: Recommendation, base: Day, booked: set<(Day, int)>) {
    && base <= x.date < base + ScanDays
    && x.weekday == Weekday(x.date) && IsGoodDay(x.weekday)
    && Slot(x.start, x.end) in Slots
    && SlotKey(x.date, x.start) !in booked
    && x.score == ScoreSlot(x.weekday, Hour(x.start))
    && x.reason == SlotReason(x.weekday, Hour(x.start))
  }

  ghost predicate AllProper(xs: seq<Recommendation>, base: Day, booked: set<(Day, int)>) {
    forall x :: x in xs ==> IsProperCandidate(x, base, booked)
  }

  lemma {:induction false} DaySlotsProper(base: Day, d: Day, booked: set<(Day, int)>, n: nat)
    requires base <= d < base + ScanDays && IsGoodDay(Weekday(d))
    requires n <= |Slots|
    ensures AllProper(DaySlots(d, booked, n), base, booked)
  {
    if n > 0 {
      DaySlotsProper(base, d, booked, n - 1);
      assert Slots[n - 1] in Slots;
    }
  }

  /** Every candidate list of the window holds proper candidates only. */
  lemma WindowDaysProper(base: Day, booked: set<(Day, int)>)
    ensures forall i :: 0 <= i < ScanDays ==> AllProper(WindowDays(base, booked)[i], base, booked)
  {
    var days := WindowDays(base, booked);
    forall i | 0 <= i < ScanDays
      ensures AllProper(days[i], base, booked)
    {
      assert days[i] == DayCandidates(base + i, booked);
      if IsGoodDay(Weekday(base + i)) {
        DaySlotsProper(base, base + i, booked, |Slots|);
      }
    }
  }

  lemma {:induction false} AllFromProper(days: seq<seq<Recommendation>>, i: nat, base: Day, booked: set<(Day, int)>)
    requires forall k :: 0 <= k < |days| ==> AllProper(days[k], base, booked)
    ensures AllProper(AllFrom(days, i), base, booked)
    decreases |days| - i
  {
    if i < |days| {
      AllFromProper(days, i + 1, base, booked);
    }
  }

  lemma ProperPrefix(a: seq<Recommendation>, b: seq<Recommendation>, base: Day, booked: set<(Day, int)>)
    requires IsPrefix(a, b) && AllProper(b, base, booked)
    ensures AllProper(a, base, booked)
  {
    forall x | x in a
      ensures IsProperCandidate(x, base, booked)
    {
      var k :| 0 <= k < |a| && a[k] == x;
      assert b[k] == x;
    }
  }

  lemma EmptyAppend<T>(a: seq<T>)
    ensures [] + a == a
  {
  }

  /** Everything the scan collects is a proper candidate, and it collects at most 8. */
  lemma CollectedProper(today: Day, booked: set<(Day, int)>)
    ensures AllProper(Collected(today, booked), today + 1, booked)
    ensures |Collected(today, booked)| <= 8
  {
    var base := today + 1;
    var days := WindowDays(base, booked);
    var all := AllFrom(days, 0);
    ScanIsPrefixOfAll(base, days, 0, []);
    EmptyAppend(all);
    WindowDaysProper(base, booked);
    AllFromProper(days, 0, base, booked);
    ProperPrefix(Collected(today, booked), all, base, booked);
    assert forall k :: 0 <= k < |days| ==> days[k] == DayCandidates(base + k, booked);
    ScanBound(base, days, 0, []);
  }

  // ----- the stable sort by score, highest first -----------------------------

  /** Places `x` after every element whose score is at least its own. */
  function InsertByScore(x: Recommendation, sorted: seq<Recommendation>): (r: seq<Recommendation>)
    ensures |r| == |sorted| + 1
    ensures multiset(r) == multiset(sorted) + multiset{x}
  {
    if sorted == [] then [x]
    else if sorted[0].score >= x.score then
      assert sorted == [sorted[0]] + sorted[1..];
      [sorted[0]] + InsertByScore(x, sorted[1..])
    else [x] + sorted
  }

  /** `list.sort(key=score, reverse=True)`: a stable sort, highest score first. */
  function SortByScore(s: seq<Recommendation>): (r: seq<Recommendation>)
    ensures multiset(r) == multiset(s)
  {
    if s == [] then []
    else
      assert s == s[..|s| - 1] + [s[|s| - 1]];
      InsertByScore(s[|s| - 1], SortByScore(s[..|s| - 1]))
  }

  predicate SortedByScore(s: seq<Recommendation>) {
    forall i, j :: 0 <= i < j < |s| ==> s[i].score >= s[j].score
  }

  predicate ScoresAtMost(s: seq<Recommendation>, bound: int) {
    forall i :: 0 <= i < |s| ==> s[i].score <= bound
  }

  lemma SortedHead(sorted: seq<Recommendation>)
    requires SortedByScore(sorted) && sorted != []
    ensures SortedByScore(sorted[1..]) && ScoresAtMost(sorted, sorted[0].score)
  {
    assert forall i :: 0 < i < |sorted| ==> sorted[0].score >= sorted[i].score;
  }

  lemma SortedCons(h: Recommendation, rest: seq<Recommendation>)
    requires SortedByScore(rest) && ScoresAtMost(rest, h.score)
    ensures SortedByScore([h] + rest)
  {
    forall i, j | 0 <= i < j < |[h] + rest|
      ensures ([h] + rest)[i].score >= ([h] + rest)[j].score
    {
      assert ([h] + rest)[j] == rest[j - 1];
      if i > 0 {
        assert ([h] + rest)[i] == rest[i - 1];
      }
    }
  }

  lemma {:induction false} InsertScoresAtMost(x: Recommendation, sorted: seq<Recommendation>, bound: int)
    requires ScoresAtMost(sorted, bound) && x.score <= bound
    ensures ScoresAtMost(InsertByScore(x, sorted), bound)
  {
    if sorted != [] && sorted[0].score >= x.score {
      InsertScoresAtMost(x, sorted[1..], bound);
      var rest := InsertByScore(x, sorted[1..]);
      assert forall i :: 0 < i < |rest| + 1 ==> ([sorted[0]] + rest)[i] == rest[i - 1];
    }
  }

  lemma {:induction false} InsertKeepsSorted(x: Recommendation, sorted: seq<Recommendation>)
    requires SortedByScore(sorted)
    ensures SortedByScore(InsertByScore(x, sorted))
  {
    if sorted != [] {
      SortedHead(sorted);
      if sorted[0].score >= x.score {
        InsertKeepsSorted(x, sorted[1..]);
        assert ScoresAtMost(sorted[1..], sorted[0].score) by {
          assert forall i :: 0 <= i < |sorted| - 1 ==> sorted[1..][i] == sorted[i + 1];
        }
        InsertScoresAtMost(x, sorted[1..], sorted[0].score);
        SortedCons(sorted[0], InsertByScore(x, sorted[1..]));
      } else {
        SortedCons(x, sorted);
      }
    }
  }

  lemma {:induction false} SortByScoreSorted(s: seq<Recommendation>)
    ensures SortedByScore(SortByScore(s))
  {
    if s != [] {
      SortByScoreSorted(s[..|s| - 1]);
      InsertKeepsSorted(s[|s| - 1], SortByScore(s[..|s| - 1]));
    }
  }

  /** The elements of score k, in their order. */
  function WithScore(s: seq<Recommendation>, k: int): seq<Recommendation> {
    if s == [] then []
    else WithScore(s[..|s| - 1], k) + (if s[|s| - 1].score == k then [s[|s| - 1]] else [])
  }

  lemma {:induction false} WithScoreAppend(a: seq<Recommendation>, b: seq<Recommendation>, k: int)
    ensures WithScore(a + b, k) == WithScore(a, k) + WithScore(b, k)
    decreases |b|
  {
    if b == [] {
      assert a + b == a;
    } else {
      var n := |b| - 1;
      assert (a + b)[..|a + b| - 1] == a + b[..n];
      WithScoreAppend(a, b[..n], k);
    }
  }

  lemma {:induction false} WithScoreNone(s: seq<Recommendation>, k: int)
    requires forall i :: 0 <= i < |s| ==> s[i].score != k
    ensures WithScore(s, k) == []
  {
    if s != [] {
      WithScoreNone(s[..|s| - 1], k);
    }
  }

  lemma WithScoreSingle(x: Recommendation, k: int)
    ensures WithScore([x], k) == if x.score == k then [x] else []
  {
    assert [x][..0] == [];
  }

  lemma {:induction false} InsertWithScore(x: Recommendation, sorted: seq<Recommendation>, k: int)
    requires SortedByScore(sorted)
    ensures WithScore(InsertByScore(x, sorted), k)
            == WithScore(sorted, k) + (if x.score == k then [x] else [])
  {
    if sorted == [] {
      WithScoreSingle(x, k);
      assert WithScore(sorted, k) == [];
    } else if sorted[0].score >= x.score {
      SortedHead(sorted);
      InsertWithScore(x, sorted[1..], k);
      InsertBehindHead(x, sorted, k);
    } else {
      SortedHead(sorted);
      InsertInFront(x, sorted, k);
    }
  }

  lemma InsertBehindHead(x: Recommendation, sorted: seq<Recommendation>, k: int)
    requires sorted != [] && sorted[0].score >= x.score
    requires WithScore(InsertByScore(x, sorted[1..]), k)
             == WithScore(sorted[1..], k) + (if x.score == k then [x] else [])
    ensures WithScore(InsertByScore(x, sorted), k)
            == WithScore(sorted, k) + (if x.score == k then [x] else [])
  {
    var head := [sorted[0]];
    var rest := InsertByScore(x, sorted[1..]);
    var extra := if x.score == k then [x] else [];
    calc {
      WithScore(InsertByScore(x, sorted), k);
    == { assert InsertByScore(x, sorted) == head + rest; }
      WithScore(head + rest, k);
    == { WithScoreAppend(head, rest, k); }
      WithScore(head, k) + (WithScore(sorted[1..], k) + extra);
    ==
      (WithScore(head, k) + WithScore(sorted[1..], k)) + extra;
    == { WithScoreAppend(head, sorted[1..], k); assert head + sorted[1..] == sorted; }
      WithScore(sorted, k) + extra;
    }
  }

  lemma InsertInFront(x: Recommendation, sorted: seq<Recommendation>, k: int)
    requires sorted != [] && sorted[0].score < x.score
    requires ScoresAtMost(sorted, sorted[0].score)
    ensures WithScore(InsertByScore(x, sorted), k)
            == WithScore(sorted, k) + (if x.score == k then [x] else [])
  {
    assert InsertByScore(x, sorted) == [x] + sorted;
    WithScoreSingle(x, k);
    WithScoreAppend([x], sorted, k);
    if x.score == k {
      WithScoreNone(sorted, k);
    }
  }

  /** The sort is stable: among equal scores, the scan order is kept. */
  lemma {:induction false} SortByScoreStable(s: seq<Recommendation>, k: int)
    ensures WithScore(SortByScore(s), k) == WithScore(s, k)
  {
    if s != [] {
      var n := |s| - 1;
      SortByScoreStable(s[..n], k);
      SortByScoreSorted(s[..n]);
      InsertWithScore(s[n], SortByScore(s[..n]), k);
    }
  }

  /** `recommendations[:5]` after the sort. */
  function TopRecommendations(collected: seq<Recommendation>): (r: seq<Recommendation>)
    ensures |r| == if |collected| < MaxRecommendations then |collected| else MaxRecommendations
    ensures IsPrefix(r, SortByScore(collected))
  {
    var sorted := SortByScore(collected);
    assert |multiset(sorted)| == |multiset(collected)|;
    if |sorted| <= MaxRecommendations then sorted else sorted[..MaxRecommendations]
  }

  /** Cutting a sorted sequence: both parts stay sorted and nothing after the cut outscores anything before it. */
  lemma SortedCut(sorted: seq<Recommendation>, n: nat)
    requires SortedByScore(sorted) && n <= |sorted|
    ensures SortedByScore(sorted[..n])
    ensures multiset(sorted) == multiset(sorted[..n]) + multiset(sorted[n..])
    ensures forall x: Recommendation, y: Recommendation ::
              x in multiset(sorted[n..]) && y in sorted[..n] ==> x.score <= y.score
  {
    assert sorted == sorted[..n] + sorted[n..];
    forall x: Recommendation, y: Recommendation | x in multiset(sorted[n..]) && y in sorted[..n]
      ensures x.score <= y.score
    {
      var i :| 0 <= i < |sorted| - n && sorted[n..][i] == x;
      var j :| 0 <= j < n && sorted[..n][j] == y;
      assert sorted[j] == y && sorted[n + i] == x;
    }
  }

  lemma AllProperPermutation(a: seq<Recommendation>, b: seq<Recommendation>, base: Day, booked: set<(Day, int)>)
    requires multiset(a) == multiset(b) && AllProper(a, base, booked)
    ensures AllProper(b, base, booked)
  {
    forall x | x in b
      ensures IsProperCandidate(x, base, booked)
    {
      assert x in multiset(b);
    }
  }

  /**
   The first five after the sort are highest score first, taken from the input, and nothing
   left out scores higher than anything kept.
   */
  lemma TopRecommendationsAreBest(c: seq<Recommendation>)
    ensures SortedByScore(TopRecommendations(c))
    ensures multiset(TopRecommendations(c)) <= multiset(c)
    ensures forall x: Recommendation, y: Recommendation ::
              x in multiset(c) - multiset(TopRecommendations(c)) && y in TopRecommendations(c) ==> x.score <= y.score
  {
    var sorted := SortByScore(c);
    var recs := TopRecommendations(c);
    SortByScoreSorted(c);
    SortedCut(sorted, |recs|);
    assert multiset(c) - multiset(recs) == multiset(sorted[|recs|..]);
  }

  /**
   With the booked pairs taken from the stored sessions, no recommendation starts in the
   same minute of the same day as a scheduled or active session of the course.
   */
  lemma RecommendationsAvoidSessions(today: Day, sessions: seq<Session>, course: CourseId)
    ensures forall x, i :: x in TopRecommendations(Collected(today, BookedSlots(sessions, course)))
                           && 0 <= i < |sessions| && sessions[i].course == course
                           && (sessions[i].status == Scheduled || sessions[i].status == Active)
                           ==> SlotKey(x.date, x.start) != SlotKey(sessions[i].date, sessions[i].start)
  {
    var booked := BookedSlots(sessions, course);
    RecommendationsAreProper(today, booked);
    forall x, i | x in TopRecommendations(Collected(today, booked))
                  && 0 <= i < |sessions| && sessions[i].course == course
                  && (sessions[i].status == Scheduled || sessions[i].status == Active)
      ensures SlotKey(x.date, x.start) != SlotKey(sessions[i].date, sessions[i].start)
    {
      assert SlotKey(sessions[i].date, sessions[i].start) in booked;
    }
  }

  /** Every recommendation is a proper candidate of the scan that starts tomorrow. */
  lemma RecommendationsAreProper(today: Day, booked: set<(Day, int)>)
    ensures AllProper(TopRecommendations(Collected(today, booked)), today + 1, booked)
  {
    var c := Collected(today, booked);
    var sorted := SortByScore(c);
    CollectedProper(today, booked);
    AllProperPermutation(c, sorted, today + 1, booked);
    ProperPrefix(TopRecommendations(c), sorted, today + 1, booked);
  }

  /** The inner loop of `get_schedule_recommendations`: the free slots of one day, in slot order. */
  method FreeSlotsOn(d: Day, booked: set<(Day, int)>) returns (found: seq<Recommendation>)
    ensures found == DaySlots(d, booked, |Slots|)
  {
    found := [];
    for j := 0 to |Slots|
      invariant found == DaySlots(d, booked, j)
    {
      var slot := Slots[j];
      if SlotKey(d, slot.start) !in booked {
        found := found + [Candidate(d, slot)];
      }
    }
  }

  /**
   One step of the scan: day `i` adds its list, and the scan ends there when that day is good
   and the collection has reached 5; otherwise it goes on with the next day.
   */
  lemma ScanStep(base: Day, days: seq<seq<Recommendation>>, i: nat, acc: seq<Recommendation>)
    requires i < |days|
    ensures IsGoodDay(Weekday(base + i)) && |acc + days[i]| >= MaxRecommendations ==>
              ScanFrom(base, days, i, acc) == acc + days[i]
    ensures !(IsGoodDay(Weekday(base + i)) && |acc + days[i]| >= MaxRecommendations) ==>
              ScanFrom(base, days, i, acc) == ScanFrom(base, days, i + 1, acc + days[i])
  {
  }

  /** The list of day `i` of the window: the free slots on a good day, nothing on any other. */
  lemma WindowDay(base: Day, booked: set<(Day, int)>, i: nat)
    requires i < ScanDays
    ensures WindowDays(base, booked)[i] == if IsGoodDay(Weekday(base + i)) then DaySlots(base + i, booked, |Slots|) else []
  {
  }

  /**
   One day of the scan: a good day adds its free slots, and the scan stops once 5 or more
   have been collected; any other day adds nothing.
   */
  method ScanDay(base: Day, booked: set<(Day, int)>, ghost days: seq<seq<Recommendation>>, i: nat,
                 acc: seq<Recommendation>) returns (next: seq<Recommendation>, stop: bool)
    requires i < |days|
    requires days[i] == if IsGoodDay(Weekday(base + i)) then DaySlots(base + i, booked, |Slots|) else []
    ensures stop ==> ScanFrom(base, days, i, acc) == next
    ensures !stop ==> ScanFrom(base, days, i, acc) == ScanFrom(base, days, i + 1, next)
  {
    ScanStep(base, days, i, acc);
    if !IsGoodDay(Weekday(base + i)) {
      assert acc + days[i] == acc;
      return acc, false;
    }
    var free := FreeSlotsOn(base + i, booked);
    next := acc + free;
    stop := |next| >= MaxRecommendations;
  }

  /** The scanning loops of `get_schedule_recommendations`: the candidates collected from tomorrow on. */
  method ScanWindow(today: Day, booked: set<(Day, int)>) returns (recommendations: seq<Recommendation>)
    ensures recommendations == Collected(today, booked)
  {
    recommendations := [];
    var base := today + 1;
    ghost var days := WindowDays(base, booked);
    var i := 0;
    while i < ScanDays
      invariant 0 <= i <= ScanDays
      invariant ScanFrom(base, days, i, recommendations) == Collected(today, booked)
    {
      WindowDay(base, booked, i);
      var stop;
      recommendations, stop := ScanDay(base, booked, days, i, recommendations);
      if stop {
        return;
      }
      i := i + 1;
    }
  }

  /** `get_schedule_recommendations`, with the booked pairs and today's date passed in. */
  method GetScheduleRecommendations(today: Day, booked: set<(Day, int)>) returns (recs: seq<Recommendation>)
    ensures recs == TopRecommendations(Collected(today, booked))
    ensures |recs| <= MaxRecommendations && SortedByScore(recs)
  {
    var recommendations := ScanWindow(today, booked);
    recs := TopRecommendations(recommendations);
    TopRecommendationsAreBest(recommendations);
  }

  // ===========================================================================
  // analyze_attendance_patterns
  // ===========================================================================

  /** A completed session of the course: its date and its attendance count. */
  datatype CompletedClass = CompletedClass(date: Day, present: nat)

  datatype Insight =
    | BestDay(weekday: int, average: real)
    | Trend(improving: bool, recent: real, earlier: real)

  datatype Severity = Success | Info | Warning

  function SeverityOf(insight: Insight): Severity {
    match insight
    case BestDay(_, _) => Success
    case Trend(improving, _, _) => if improving then Info else Warning
  }

  datatype Patterns = NotEnoughData | Analysis(insights: seq<Insight>, totalClasses: nat)

  /** `cls.attendance_count / enrolled * 100` */
  function RateOf(c: CompletedClass, enrolled: nat): real
    requires enrolled > 0
  {
    c.present as real / enrolled as real * 100.0
  }

  function Rates(classes: seq<CompletedClass>, enrolled: nat): (r: seq<real>)
    requires enrolled > 0
    ensures |r| == |classes|
  {
    seq(|classes|, i requires 0 <= i < |classes| => RateOf(classes[i], enrolled))
  }

  /** The rates of the sessions held on a weekday, in order. */
  function DayRates(classes: seq<CompletedClass>, enrolled: nat, w: int): seq<real>
    requires enrolled > 0
  {
    if classes == [] then []
    else
      var last := classes[|classes| - 1];
      DayRates(classes[..|classes| - 1], enrolled, w)
      + (if Weekday(last.date) == w then [RateOf(last, enrolled)] else [])
  }

  /** The weekdays that occur, in order of first occurrence (the dictionary's key order). */
  function DaysInOrder(classes: seq<CompletedClass>): seq<int> {
    if classes == [] then []
    else
      var front := DaysInOrder(classes[..|classes| - 1]);
      var w := Weekday(classes[|classes| - 1].date);
      if w in front then front else front + [w]
  }

  lemma {:induction false} DaysInOrderHaveRates(classes: seq<CompletedClass>, enrolled: nat, w: int)
    requires enrolled > 0
    requires w in DaysInOrder(classes)
    ensures |DayRates(classes, enrolled, w)| > 0
  {
    var n := |classes| - 1;
    if w in DaysInOrder(classes[..n]) {
      DaysInOrderHaveRates(classes[..n], enrolled, w);
    }
  }

  function Sum(rs: seq<real>): real {
    if rs == [] then 0.0 else Sum(rs[..|rs| - 1]) + rs[|rs| - 1]
  }

  function Mean(rs: seq<real>): real
    requires |rs| > 0
  {
    Sum(rs) / |rs| as real
  }

  function DayMean(classes: seq<CompletedClass>, enrolled: nat, w: int): real
    requires enrolled > 0
    requires w in DaysInOrder(classes)
  {
    DaysInOrderHaveRates(classes, enrolled, w);
    Mean(DayRates(classes, enrolled, w))
  }

  /**
   `max(day_stats, key=mean)`: a weekday of highest mean rate, and among equal means the one
   that occurred first.
   */
  ghost predicate IsBestDay(classes: seq<CompletedClass>, enrolled: nat, w: int)
    requires enrolled > 0
  {
    var order := DaysInOrder(classes);
    && w in order
    && forall k :: 0 <= k < |order| ==>
         && DayMean(classes, enrolled, order[k]) <= DayMean(classes, enrolled, w)
         && (DayMean(classes, enrolled, order[k]) == DayMean(classes, enrolled, w) ==> w in order[..k + 1])
  }

  /** The trend of the last three rates against the first three. */
  function TrendOf(rates: seq<real>): (t: Insight)
    requires |rates| >= 3
    ensures t.Trend?
    ensures t.recent == Mean(rates[|rates| - 3..]) && t.earlier == Mean(rates[..3])
    ensures t.improving <==> t.recent > t.earlier
  {
    var n := |rates|;
    var recent := (rates[n - 3] + rates[n - 2] + rates[n - 1]) / 3.0;
    var earlier := (rates[0] + rates[1] + rates[2]) / 3.0;
    SumOfThree(rates[n - 3..]);
    SumOfThree(rates[..3]);
    Trend(recent > earlier, recent, earlier)
  }

  lemma SumOfThree(rs: seq<real>)
    requires |rs| == 3
    ensures Sum(rs) == rs[0] + rs[1] + rs[2]
  {
    calc {
      Sum(rs);
      Sum(rs[..2]) + rs[2];
      { assert rs[..2][..1] == rs[..1]; }
      Sum(rs[..1]) + rs[1] + rs[2];
      { assert rs[..1][..0] == []; }
      rs[0] + rs[1] + rs[2];
    }
  }

  /** With exactly three sessions the two windows coincide, so the trend is always reported as declining. */
  lemma ThreeSessionsDecline(rates: seq<real>)
    requires |rates| == 3
    ensures !TrendOf(rates).improving && SeverityOf(TrendOf(rates)) == Warning
  {
  }

  /** The dictionary and its key order hold the rates of `classes` grouped by weekday. */
  ghost predicate Grouped(dayStats: map<int, seq<real>>, order: seq<int>, classes: seq<CompletedClass>, enrolled: nat)
    requires enrolled > 0
  {
    && order == DaysInOrder(classes)
    && (forall w :: w in dayStats <==> w in order)
    && (forall w :: w in dayStats ==> dayStats[w] == DayRates(classes, enrolled, w))
  }

  /**
   The first loop of `analyze_attendance_patterns`: the rates grouped by weekday into a
   dictionary whose keys keep the order in which the weekdays first occur.
   */
  method GroupByDay(classes: seq<CompletedClass>, enrolled: nat) returns (dayStats: map<int, seq<real>>, order: seq<int>)
    requires enrolled > 0
    ensures Grouped(dayStats, order, classes, enrolled)
  {
    dayStats := map[];
    order := [];
    for i := 0 to |classes|
      invariant Grouped(dayStats, order, classes[..i], enrolled)
    {
      var day := Weekday(classes[i].date);
      var rate := classes[i].present as real / enrolled as real * 100.0;
      GroupedStep(dayStats, order, classes, i, enrolled, day, rate);
      var current := if day in dayStats then dayStats[day] else [];
      if day !in dayStats {
        order := order + [day];
      }
      dayStats := dayStats[day := current + [rate]];
    }
    assert classes[..|classes|] == classes;
  }

  lemma GroupedStep(dayStats: map<int, seq<real>>, order: seq<int>, classes: seq<CompletedClass>, i: nat,
                    enrolled: nat, day: int, rate: real)
    requires enrolled > 0 && i < |classes|
    requires Grouped(dayStats, order, classes[..i], enrolled)
    requires day == Weekday(classes[i].date) && rate == RateOf(classes[i], enrolled)
    ensures Grouped(dayStats[day := (if day in dayStats then dayStats[day] else []) + [rate]],
                    if day in dayStats then order else order + [day], classes[..i + 1], enrolled)
  {
    GroupingStep(classes, i, enrolled);
    if day !in dayStats {
      NoRatesOffOrder(classes[..i], enrolled, day);
    }
  }

  /** Taking one more session appends its rate to its weekday's list and its weekday, if new, to the order. */
  lemma GroupingStep(classes: seq<CompletedClass>, i: nat, enrolled: nat)
    requires enrolled > 0 && i < |classes|
    ensures var w := Weekday(classes[i].date);
      && DaysInOrder(classes[..i + 1])
         == (if w in DaysInOrder(classes[..i]) then DaysInOrder(classes[..i]) else DaysInOrder(classes[..i]) + [w])
      && DayRates(classes[..i + 1], enrolled, w) == DayRates(classes[..i], enrolled, w) + [RateOf(classes[i], enrolled)]
      && forall v :: v != w ==> DayRates(classes[..i + 1], enrolled, v) == DayRates(classes[..i], enrolled, v)
  {
    assert classes[..i + 1][..i] == classes[..i];
    forall v | v != Weekday(classes[i].date)
      ensures DayRates(classes[..i + 1], enrolled, v) == DayRates(classes[..i], enrolled, v)
    {
      assert DayRates(classes[..i + 1], enrolled, v) == DayRates(classes[..i], enrolled, v) + [];
    }
  }

  lemma {:induction false} NoRatesOffOrder(classes: seq<CompletedClass>, enrolled: nat, w: int)
    requires enrolled > 0
    requires w !in DaysInOrder(classes)
    ensures DayRates(classes, enrolled, w) == []
  {
    if classes != [] {
      NoRatesOffOrder(classes[..|classes| - 1], enrolled, w);
    }
  }

  lemma DaysInOrderNonEmpty(classes: seq<CompletedClass>)
    requires classes != []
    ensures DaysInOrder(classes) != []
  {
  }

  /**
   `max` over keys whose key values are `means`, in order: the index of the first greatest
   value (the running maximum is replaced only by a strictly greater value).
   */
  method FirstMaxIndex(means: seq<real>) returns (b: nat)
    requires means != []
    ensures b < |means|
    ensures forall m :: 0 <= m < |means| ==> means[m] <= means[b]
    ensures forall m :: 0 <= m < b ==> means[m] < means[b]
  {
    b := 0;
    for k := 1 to |means|
      invariant b < k
      invariant forall m :: 0 <= m < k ==> means[m] <= means[b]
      invariant forall m :: 0 <= m < b ==> means[m] < means[b]
    {
      if means[k] > means[b] {
        b := k;
      }
    }
  }

  /** `max(day_stats, key=mean)`: the first key, in the dictionary's order, of highest mean rate. */
  method FirstBestDay(classes: seq<CompletedClass>, enrolled: nat, dayStats: map<int, seq<real>>, order: seq<int>)
    returns (best: int)
    requires enrolled > 0 && classes != []
    requires Grouped(dayStats, order, classes, enrolled)
    ensures IsBestDay(classes, enrolled, best)
  {
    DaysInOrderNonEmpty(classes);
    GroupedMeans(dayStats, order, classes, enrolled);
    var means := seq(|order|, m requires 0 <= m < |order| => Mean(dayStats[order[m]]));
    var b := FirstMaxIndex(means);
    best := order[b];
    BestOfMeans(classes, enrolled, order, means, b);
  }

  /** Every weekday in the order has a non-empty list of rates, whose mean is that weekday's mean. */
  lemma GroupedMeans(dayStats: map<int, seq<real>>, order: seq<int>, classes: seq<CompletedClass>, enrolled: nat)
    requires enrolled > 0
    requires Grouped(dayStats, order, classes, enrolled)
    ensures forall m :: 0 <= m < |order| ==>
      && order[m] in dayStats && |dayStats[order[m]]| > 0
      && Mean(dayStats[order[m]]) == DayMean(classes, enrolled, order[m])
  {
    forall m | 0 <= m < |order|
      ensures order[m] in dayStats && |dayStats[order[m]]| > 0
    {
      assert order[m] in order;
      DaysInOrderHaveRates(classes, enrolled, order[m]);
    }
  }

  /** The first index of greatest mean names a best day. */
  lemma BestOfMeans(classes: seq<CompletedClass>, enrolled: nat, order: seq<int>, means: seq<real>, b: nat)
    requires enrolled > 0
    requires order == DaysInOrder(classes)
    requires |means| == |order| && b < |order|
    requires forall m :: 0 <= m < |order| ==> means[m] == DayMean(classes, enrolled, order[m])
    requires forall m :: 0 <= m < |means| ==> means[m] <= means[b]
    requires forall m :: 0 <= m < b ==> means[m] < means[b]
    ensures IsBestDay(classes, enrolled, order[b])
  {
    forall k | 0 <= k < |order| && means[k] == means[b]
      ensures order[b] in order[..k + 1]
    {
      assert order[..k + 1][b] == order[b];
    }
  }

  /** The best-day insight: a weekday of highest mean rate, with that mean. */
  ghost predicate IsBestDayInsight(classes: seq<CompletedClass>, enrolled: nat, insight: Insight)
    requires enrolled > 0
  {
    && insight.BestDay?
    && IsBestDay(classes, enrolled, insight.weekday)
    && insight.average == DayMean(classes, enrolled, insight.weekday)
  }

  /** The day analysis of `analyze_attendance_patterns`. */
  method DayAnalysis(classes: seq<CompletedClass>, enrolled: nat) returns (insight: Insight)
    requires enrolled > 0 && classes != []
    ensures IsBestDayInsight(classes, enrolled, insight)
  {
    var dayStats, order := GroupByDay(classes, enrolled);
    var bestDay := FirstBestDay(classes, enrolled, dayStats, order);
    DaysInOrderHaveRates(classes, enrolled, bestDay);
    insight := BestDay(bestDay, Mean(dayStats[bestDay]));
  }

  predicate ByDate(classes: seq<CompletedClass>) {
    forall i, j :: 0 <= i < j < |classes| ==> classes[i].date <= classes[j].date
  }

  /**
   `analyze_attendance_patterns`, with the course's completed sessions given in date order
   (`order_by('scheduled_date')`); the day analysis reads them in that order too.
   */
  method AnalyzeAttendancePatterns(classes: seq<CompletedClass>, students: nat) returns (p: Patterns)
    requires ByDate(classes)
    ensures p.NotEnoughData? <==> classes == []
    ensures p.Analysis? ==>
      var enrolled := if students == 0 then 1 else students;
      && p.totalClasses == |classes|
      && |p.insights| == (if |classes| >= 3 then 2 else 1)
      && IsBestDayInsight(classes, enrolled, p.insights[0])
      && (|classes| >= 3 ==> p.insights[1] == TrendOf(Rates(classes, enrolled)))
  {
    if |classes| == 0 {
      return NotEnoughData;
    }
    var enrolled := if students == 0 then 1 else students;
    var bestDay := DayAnalysis(classes, enrolled);
    var insights := [bestDay];
    var rates := Rates(classes, enrolled);
    if |rates| >= 3 {
      insights := insights + [TrendOf(rates)];
    }
    p := Analysis(insights, |classes|);
  }

  // ===========================================================================
  // generate_auto_alerts and send_code_notification
  // ===========================================================================

  function Recipients(alerts: seq<Notification>): set<UserId> {
    set k | 0 <= k < |alerts| :: alerts[k].recipient
  }

  lemma RecipientsAppend(alerts: seq<Notification>, n: Notification)
    ensures Recipients(alerts + [n]) == Recipients(alerts) + {n.recipient}
  {
    var longer := alerts + [n];
    assert longer[|alerts|] == n;
    forall r | r in Recipients(alerts)
      ensures r in Recipients(longer)
    {
      var k :| 0 <= k < |alerts| && alerts[k].recipient == r;
      assert longer[k] == alerts[k];
    }
  }

  /** One unread notification of the given kind per student, each about the session. */
  predicate AlertsFor(alerts: seq<Notification>, students: set<UserId>, kind: NotificationKind, id: SessionId) {
    && |alerts| == |students|
    && Recipients(alerts) == students
    && forall k :: 0 <= k < |alerts| ==> alerts[k] == Notification(alerts[k].recipient, kind, Some(id), false)
  }

  /** The notification table `after` is `before` with the alerts for the students appended. */
  ghost predicate Announced(before: seq<Notification>, after: seq<Notification>, students: set<UserId>,
                            kind: NotificationKind, id: SessionId)
  {
    |before| <= |after| && after[..|before|] == before && AlertsFor(after[|before|..], students, kind, id)
  }

  /** One unread notification of the given kind per enrolled student, about the session. */
  method BuildAlerts(students: set<UserId>, kind: NotificationKind, id: SessionId) returns (alerts: seq<Notification>)
    ensures AlertsFor(alerts, students, kind, id)
  {
    alerts := [];
    var remaining := students;
    while remaining != {}
      invariant remaining <= students
      invariant Recipients(alerts) == students - remaining
      invariant |alerts| + |remaining| == |students|
      invariant forall k :: 0 <= k < |alerts| ==> alerts[k] == Notification(alerts[k].recipient, kind, Some(id), false)
      decreases |remaining|
    {
      var student :| student in remaining;
      var notif := Notification(student, kind, Some(id), false);
      AlertsStep(alerts, remaining, students, notif);
      alerts := alerts + [notif];
      remaining := remaining - {student};
    }
  }

  /** Adding the alert of one remaining student moves that student from the remaining set to the recipients. */
  lemma AlertsStep(alerts: seq<Notification>, remaining: set<UserId>, students: set<UserId>, notif: Notification)
    requires remaining <= students && notif.recipient in remaining
    requires Recipients(alerts) == students - remaining
    ensures Recipients(alerts + [notif]) == students - (remaining - {notif.recipient})
    ensures |remaining - {notif.recipient}| == |remaining| - 1
  {
    RecipientsAppend(alerts, notif);
  }

  /** Builds the notifications for the session's enrolled students and bulk-inserts them. */
  method FanOut(db: Database, id: SessionId, kind: NotificationKind) returns (count: nat)
    requires db.Valid() && id < |db.sessions|
    modifies db
    ensures db.Valid()
    ensures db.sessions == old(db.sessions) && db.courses == old(db.courses)
    ensures db.profiles == old(db.profiles) && db.records == old(db.records)
    ensures var students := db.courses[db.sessions[id].course].students;
      count == |students| && Announced(old(db.notifications), db.notifications, students, kind, id)
  {
    var session := db.sessions[id];
    var alerts := BuildAlerts(db.courses[session.course].students, kind, id);
    if |alerts| > 0 {
      db.notifications := db.notifications + alerts;
    }
    assert db.notifications[|old(db.notifications)|..] == alerts;
    count := |alerts|;
  }

  /** `generate_auto_alerts`: a "makeup scheduled" notification to every enrolled student. */
  method GenerateAutoAlerts(db: Database, id: SessionId) returns (count: nat)
    requires db.Valid() && id < |db.sessions|
    modifies db
    ensures db.Valid()
    ensures db.sessions == old(db.sessions) && db.courses == old(db.courses)
    ensures db.profiles == old(db.profiles) && db.records == old(db.records)
    ensures var students := db.courses[db.sessions[id].course].students;
      count == |students| && Announced(old(db.notifications), db.notifications, students, MakeupScheduled, id)
  {
    count := FanOut(db, id, MakeupScheduled);
  }

  /** `send_code_notification`: a "code generated" notification to every enrolled student. */
  method SendCodeNotification(db: Database, id: SessionId) returns (count: nat)
    requires db.Valid() && id < |db.sessions|
    modifies db
    ensures db.Valid()
    ensures db.sessions == old(db.sessions) && db.courses == old(db.courses)
    ensures db.profiles == old(db.profiles) && db.records == old(db.records)
    ensures var students := db.courses[db.sessions[id].course].students;
      count == |students| && Announced(old(db.notifications), db.notifications, students, CodeGenerated, id)
  {
    count := FanOut(db, id, CodeGenerated);
  }
}
