/** The parent's report page (`pages/ParentHome.tsx`): the viewed child's
    logs, the request sent to the AI coach, the seven-entry chart window, the
    mood pie and the level badge. The coach's answer itself comes from a
    remote model and enters only as a string. */
module ParentHome {
  import opened Common
  import opened Types

  /** What the page asks the coach for: the latest log, the whole history,
      the level, the child's name, and the parent-view flag. */
  datatype CoachCall = CoachCall(
    lastLog: HealthLog,
    history: seq<HealthLog>,
    level: int,
    fullname: string,
    forParent: bool)

  /** `avatar?.level || 1`: the avatar's level, or 1 when there is no avatar
      or its level is 0. */
  function LevelShown(avatar: Option<AvatarData>): (level: int)
    ensures level == 1 || (avatar.Some? && level == avatar.value.level && level != 0)
    ensures avatar.Some? && avatar.value.level != 0 ==> level == avatar.value.level
    ensures avatar.Some? && avatar.value.level >= 0 ==> level >= 1
  {
    if avatar.Some? && avatar.value.level != 0 then avatar.value.level else 1
  }

  /** The coach is consulted only when the child has at least one log, about
      the last of them, with the whole history. */
  function CoachRequest(userLogs: seq<HealthLog>, avatar: AvatarData, fullname: string): (c: Option<CoachCall>)
    ensures c.Some? <==> userLogs != []
    ensures c.Some? ==> c.value.lastLog == userLogs[|userLogs| - 1] && c.value.history == userLogs
    ensures c.Some? ==> c.value.forParent && c.value.fullname == fullname
    ensures c.Some? ==> c.value.level == LevelShown(Some(avatar))
  {
    if |userLogs| > 0 then
      Some(CoachCall(userLogs[|userLogs| - 1], userLogs, LevelShown(Some(avatar)), fullname, true))
    else None
  }

  /** What the page holds once its fetch has settled. */
  datatype Loaded = Loaded(logs: seq<HealthLog>, avatar: AvatarData, coach: Option<CoachCall>)

  /** `fetchData`: keep the viewed child's logs, store the avatar, and build
      the coach request from those logs. Both store calls fail open (the
      avatar falls back to its initial value, the log list to empty), so
      neither of them reaches the `catch`; the coach call, which runs in the
      same `try` and may throw, is a foreign service outside this model. */
  function Load(user: User, allLogs: seq<HealthLog>, avatar: AvatarData): (p: Loaded)
    ensures forall l :: l in p.logs <==> l in allLogs && l.userId == user.id
    ensures p.coach.Some? <==> exists l :: l in allLogs && l.userId == user.id
    ensures p.coach.Some? ==> p.coach.value.lastLog.userId == user.id
    ensures p.avatar == avatar
  {
    var userLogs := LogsOf(allLogs, user.id);
    assert forall l :: l in userLogs <==> l in allLogs && l.userId == user.id by {
      forall l {
        LogsOfExact(allLogs, [], user.id, l);
      }
    }
    Loaded(userLogs, avatar, CoachRequest(userLogs, avatar, user.fullname))
  }

  const NoFeedbackYet := "เริ่มบันทึกข้อมูลเพื่อรับคำแนะนำจาก AI Coach"

  /** The insight box: the coach's answer, or an invitation to start
      logging while there is none. */
  function FeedbackShown(feedback: string): (s: string)
    ensures s != ""
    ensures feedback != "" ==> s == feedback
    ensures feedback == "" ==> s == NoFeedbackYet
  {
    if feedback == "" then NoFeedbackYet else feedback
  }

  /** One point of the trend chart. The date label is the log's date; its
      Thai locale formatting is not modelled. */
  datatype ChartPoint = ChartPoint(date: string, steps: int, sleep: real, veggie: int)

  function Point(l: HealthLog): ChartPoint {
    ChartPoint(l.date, l.steps, l.sleepHours, l.vegetableScore)
  }

  /** `logs.map(...).slice(-7)`: the points of the last seven logs (all of
      them when there are fewer), oldest first. */
  function ChartWindow(logs: seq<HealthLog>): (w: seq<ChartPoint>)
    ensures |w| == Min(7, |logs|)
    ensures forall i :: 0 <= i < |w| ==> w[i] == Point(logs[|logs| - |w| + i])
  {
    var from := |logs| - Min(7, |logs|);
    seq(|logs| - from, i requires 0 <= i < |logs| - from => Point(logs[from + i]))
  }

  /** A new log pushes the oldest point out of a full window and becomes
      the newest point. */
  lemma ChartWindowSlides(logs: seq<HealthLog>, x: HealthLog)
    ensures var w := ChartWindow(logs); var w' := ChartWindow(logs + [x]);
      w'[|w'| - 1] == Point(x)
      && (|logs| < 7 ==> w' == w + [Point(x)])
      && (|logs| >= 7 ==> w' == w[1..] + [Point(x)])
  {
    var w := ChartWindow(logs);
    var w' := ChartWindow(logs + [x]);
    if |logs| < 7 {
      assert w' == w + [Point(x)];
    } else {
      assert w' == w[1..] + [Point(x)];
    }
  }

  /** One slice of the mood pie: the mood it counts, its Thai label, the
      number of logs with that mood, and its colour. */
  datatype MoodSlice = MoodSlice(mood: string, name: string, value: nat, color: string)

  /** The four moods of the pie, in display order. */
  const Moods: seq<string> := ["happy", "normal", "sad", "angry"]

  function Slice(logs: seq<HealthLog>, k: nat): (s: MoodSlice)
    requires k < 4
    ensures s.mood == Moods[k] && s.value == MoodCount(logs, Moods[k])
  {
    var names := ["มีความสุข", "ปกติ", "เศร้า", "หงุดหงิด"];
    var colors := ["#facc15", "#60a5fa", "#818cf8", "#f87171"];
    MoodSlice(Moods[k], names[k], MoodCount(logs, Moods[k]), colors[k])
  }

  /** `.filter(d => d.value > 0)` applied to one slice. */
  function Keep(s: MoodSlice): seq<MoodSlice> {
    if s.value > 0 then [s] else []
  }

  /** `moodData`: the four slices in order, those with no log dropped. */
  function MoodData(logs: seq<HealthLog>): (r: seq<MoodSlice>)
    ensures |r| <= 4
    ensures forall s :: s in r ==> s.value > 0
  {
    Keep(Slice(logs, 0)) + Keep(Slice(logs, 1)) + Keep(Slice(logs, 2)) + Keep(Slice(logs, 3))
  }

  /** A mood's slice is in the pie exactly when some log has that mood, and
      then it carries that mood's count; every slice is one of the four. */
  lemma MoodDataExact(logs: seq<HealthLog>, k: nat)
    requires k < 4
    ensures Slice(logs, k) in MoodData(logs) <==> MoodCount(logs, Moods[k]) > 0
    ensures forall s :: s in MoodData(logs) ==> exists j :: 0 <= j < 4 && s == Slice(logs, j)
  {
  }

  /** The position of a mood in display order. */
  function MoodRank(mood: string): nat {
    if mood == "happy" then 0 else if mood == "normal" then 1 else if mood == "sad" then 2 else 3
  }

  /** The slices keep the display order happy, normal, sad, angry. */
  lemma MoodDataOrdered(logs: seq<HealthLog>)
    ensures var r := MoodData(logs);
      forall i, j :: 0 <= i < j < |r| ==> MoodRank(r[i].mood) < MoodRank(r[j].mood)
  {
  }

  /** The total of the slice values. */
  function ValueSum(ds: seq<MoodSlice>): nat {
    if ds == [] then 0 else ds[0].value + ValueSum(ds[1..])
  }

  lemma {:induction false} ValueSumAppend(a: seq<MoodSlice>, b: seq<MoodSlice>)
    ensures ValueSum(a + b) == ValueSum(a) + ValueSum(b)
  {
    if a == [] {
      assert a + b == b;
    } else {
      assert (a + b)[1..] == a[1..] + b;
      ValueSumAppend(a[1..], b);
    }
  }

  predicate KnownMood(l: HealthLog) {
    l.mood in Moods
  }

  lemma {:induction false} KnownMoodCount(logs: seq<HealthLog>)
    ensures CountIf(logs, KnownMood) == MoodCount(logs, "happy") + MoodCount(logs, "normal")
                                        + MoodCount(logs, "sad") + MoodCount(logs, "angry")
  {
    if logs != [] {
      var init, x := logs[..|logs| - 1], logs[|logs| - 1];
      assert logs == init + [x];
      KnownMoodCount(init);
      CountIfSnoc(init, x, KnownMood);
      MoodCountSnoc(init, x, "happy");
      MoodCountSnoc(init, x, "normal");
      MoodCountSnoc(init, x, "sad");
      MoodCountSnoc(init, x, "angry");
    }
  }

  /** The pie accounts for every log whose mood is one of the four, each
      once; logs with another mood are not shown. */
  lemma MoodDataTotal(logs: seq<HealthLog>)
    ensures ValueSum(MoodData(logs)) == CountIf(logs, KnownMood)
  {
    var a, b, c, d := Keep(Slice(logs, 0)), Keep(Slice(logs, 1)), Keep(Slice(logs, 2)), Keep(Slice(logs, 3));
    forall s: MoodSlice ensures ValueSum(Keep(s)) == s.value {
      if s.value > 0 {
        assert ValueSum([s]) == s.value + ValueSum([]);
      }
    }
    ValueSumAppend(a, b);
    ValueSumAppend(a + b, c);
    ValueSumAppend(a + b + c, d);
    KnownMoodCount(logs);
  }
}
