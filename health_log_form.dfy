/** The daily health-log wizard (`components/HealthLogForm.tsx`): three steps,
    ten yes/no missions, the sleep duration across midnight, the BMI bands,
    and the record handed to the page on submit. The BMI value itself is a
    floating-point quotient rounded to one decimal; it enters the model as
    a value computed elsewhere. */
module HealthLogForm {

  /** A time of day as read from an `HH:MM` time field. */
  datatype Clock = Clock(h: int, m: int) {
    predicate InDay() { 0 <= h < 24 && 0 <= m < 60 }
    function Minutes(): int { h * 60 + m }
  }

  const MinutesPerDay: int := 24 * 60

  /** `calculateSleepHours` before its division by 60: the minutes from
      bedtime to wake-up, a day added when the wake-up time is earlier on the
      clock. */
  function SleepMinutes(start: Clock, end: Clock): (d: int)
    ensures start.InDay() && end.InDay() ==> 0 <= d < MinutesPerDay
    ensures (start.Minutes() + d) % MinutesPerDay == end.Minutes() % MinutesPerDay
    ensures end.Minutes() >= start.Minutes() ==> d == end.Minutes() - start.Minutes()
  {
    var diff := end.Minutes() - start.Minutes();
    if diff < 0 then diff + MinutesPerDay else diff
  }

  lemma MinutesInDay(c: Clock)
    requires c.InDay()
    ensures 0 <= c.Minutes() < MinutesPerDay
  {
  }

  lemma ModTwoDays(v: int)
    requires 0 <= v < 2 * MinutesPerDay
    ensures v % MinutesPerDay == if v < MinutesPerDay then v else v - MinutesPerDay
  {
  }

  /** On minute counts within a day: the only offset under a day from `a`
      to `b` is their difference, taken modulo a day. */
  lemma OffsetUnique(a: int, b: int, x: int)
    requires 0 <= a < MinutesPerDay && 0 <= b < MinutesPerDay
    requires 0 <= x < MinutesPerDay && (a + x) % MinutesPerDay == b
    ensures x == if b - a < 0 then b - a + MinutesPerDay else b - a
  {
    ModTwoDays(a + x);
  }

  /** For times within a day, the sleep duration is the only duration under
      a day that leads from bedtime to wake-up. */
  lemma SleepMinutesUnique(start: Clock, end: Clock, x: int)
    requires start.InDay() && end.InDay()
    requires 0 <= x < MinutesPerDay && (start.Minutes() + x) % MinutesPerDay == end.Minutes()
    ensures x == SleepMinutes(start, end)
  {
    MinutesInDay(start);
    MinutesInDay(end);
    OffsetUnique(start.Minutes(), end.Minutes(), x);
  }

  /** The four labels of `getBMICategory`, from thin to heavy. */
  datatype BmiBand = Thin | Fit | Plump | Heavy {
    function Rank(): nat {
      match this
      case Thin => 0
      case Fit => 1
      case Plump => 2
      case Heavy => 3
    }
  }

  function BmiCategory(bmi: real): (b: BmiBand)
    ensures b == Thin <==> bmi < 15.0
    ensures b == Fit <==> 15.0 <= bmi < 22.0
    ensures b == Plump <==> 22.0 <= bmi < 25.0
    ensures b == Heavy <==> 25.0 <= bmi
  {
    if bmi < 15.0 then Thin
    else if bmi < 22.0 then Fit
    else if bmi < 25.0 then Plump
    else Heavy
  }

  /** The bands are ordered: a larger BMI never gets a lighter label. */
  lemma BmiCategoryMonotone(a: real, b: real)
    requires a <= b
    ensures BmiCategory(a).Rank() <= BmiCategory(b).Rank()
  {
  }

  const MissionCount: nat := 10

  /** The record `handleSubmit` passes on: every form field, the user's id,
      and the sleep duration (in minutes here). */
  datatype LogDraft = LogDraft(
    userId: string,
    missions: seq<bool>,
    mood: string,
    waterGlasses: int,
    sleepStart: Clock,
    sleepEnd: Clock,
    sleepMinutes: int,
    exerciseActivity: string,
    exerciseMinutes: int,
    sickness: string,
    height: real,
    weight: real,
    bmi: real,
    steps: int,
    vegetableScore: int)

  class Wizard {
    const userId: string
    var step: int
    var missions: seq<bool>
    var mood: string
    var waterGlasses: int
    var sleepStart: Clock
    var sleepEnd: Clock
    var exerciseActivity: string
    var exerciseMinutes: int
    var sickness: string
    var height: real
    var weight: real
    var bmi: real
    var steps: int
    var vegetableScore: int

    /** The wizard is on one of its three steps and keeps one flag per
        mission. */
    ghost predicate Valid()
      reads this
    {
      1 <= step <= 3 && |missions| == MissionCount
    }

    /** A fresh form: step 1, every mission answered yes, and the default
        answers of the other questions. The BMI effect runs once on mount:
        the default heights and weights are positive, so the initial 17.8 is
        replaced by `bmiValue`, the rounded quotient of 35 kg over 1.4 m
        squared. */
    constructor (userId: string, bmiValue: real)
      ensures Valid() && this.userId == userId && step == 1
      ensures missions == seq(MissionCount, _ => true)
      ensures mood == "happy" && waterGlasses == 8 && exerciseActivity == "" && exerciseMinutes == 30
      ensures sleepStart == Clock(21, 0) && sleepEnd == Clock(6, 0) && sickness == ""
      ensures height == 140.0 && weight == 35.0 && bmi == bmiValue && steps == 6000 && vegetableScore == 8
    {
      this.userId := userId;
      step := 1;
      missions := seq(MissionCount, _ => true);
      mood := "happy";
      waterGlasses := 8;
      sleepStart := Clock(21, 0);
      sleepEnd := Clock(6, 0);
      exerciseActivity := "";
      exerciseMinutes := 30;
      sickness := "";
      height := 140.0;
      weight := 35.0;
      bmi := 17.8;
      steps := 6000;
      vegetableScore := 8;
      new;
      RecomputeBmi(bmiValue);
    }

    /** The back button, shown only after the first step. */
    method Back()
      requires Valid() && step > 1
      modifies this`step
      ensures Valid() && step == old(step) - 1
    {
      step := step - 1;
    }

    /** The next button, shown only before the last step. */
    method Next()
      requires Valid() && step < 3
      modifies this`step
      ensures Valid() && step == old(step) + 1
    {
      step := step + 1;
    }

    /** The yes/no buttons of mission `k` (0-based): set that flag, keep the
        other nine. */
    method SetMission(k: nat, v: bool)
      requires Valid() && k < MissionCount
      modifies this`missions
      ensures Valid() && missions[k] == v
      ensures forall j :: 0 <= j < MissionCount && j != k ==> missions[j] == old(missions[j])
    {
      missions := missions[k := v];
    }

    /** The BMI effect after a change of height or weight: `bmiValue` is the
        rounded quotient, taken only when both measurements are positive. */
    method RecomputeBmi(bmiValue: real)
      modifies this`bmi
      ensures bmi == (if height > 0.0 && weight > 0.0 then bmiValue else old(bmi))
    {
      if height > 0.0 && weight > 0.0 {
        bmi := bmiValue;
      }
    }

    /** Typing a height, followed by the BMI effect. */
    method SetHeight(h: real, bmiValue: real)
      requires Valid()
      modifies this`height, this`bmi
      ensures Valid() && height == h
      ensures bmi == (if h > 0.0 && weight > 0.0 then bmiValue else old(bmi))
    {
      height := h;
      RecomputeBmi(bmiValue);
    }

    /** Typing a weight, followed by the BMI effect. */
    method SetWeight(w: real, bmiValue: real)
      requires Valid()
      modifies this`weight, this`bmi
      ensures Valid() && weight == w
      ensures bmi == (if height > 0.0 && w > 0.0 then bmiValue else old(bmi))
    {
      weight := w;
      RecomputeBmi(bmiValue);
    }

    /** `handleSubmit`, offered on the last step only: the form as it stands,
        with the user's id and the sleep duration added. */
    method Submit() returns (p: LogDraft)
      requires Valid() && step == 3
      ensures p.userId == userId && p.missions == missions && |p.missions| == MissionCount
      ensures p.mood == mood && p.waterGlasses == waterGlasses && p.sickness == sickness
      ensures p.sleepStart == sleepStart && p.sleepEnd == sleepEnd
      ensures p.sleepMinutes == SleepMinutes(sleepStart, sleepEnd)
      ensures p.exerciseActivity == exerciseActivity && p.exerciseMinutes == exerciseMinutes
      ensures p.height == height && p.weight == weight && p.bmi == bmi
      ensures p.steps == steps && p.vegetableScore == vegetableScore
      ensures sleepStart.InDay() && sleepEnd.InDay() ==> 0 <= p.sleepMinutes < MinutesPerDay
    {
      p := LogDraft(userId, missions, mood, waterGlasses, sleepStart, sleepEnd,
                    SleepMinutes(sleepStart, sleepEnd), exerciseActivity, exerciseMinutes,
                    sickness, height, weight, bmi, steps, vegetableScore);
    }
  }
}
