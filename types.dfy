/** The records the client exchanges with the remote data store, after the
    shapes declared in `types.ts`. Numbers that the client only compares
    (height, weight, BMI, sleep hours) are `real`; counters are `int`. */
module Types {
  import opened Common

  datatype UserRole = Student | Admin

  datatype User = User(
    id: string,
    username: string,
    fullname: string,
    role: UserRole,
    className: string,
    room: string,
    number: string,
    gender: string,
    createdAt: string)

  datatype HealthLog = HealthLog(
    id: string,
    userId: string,
    date: string,
    missions: string,
    mood: string,
    waterGlasses: int,
    sleepStart: string,
    sleepEnd: string,
    sleepHours: real,
    exerciseActivity: string,
    exerciseMinutes: int,
    sickness: string,
    height: real,
    weight: real,
    bmi: real,
    steps: int,
    vegetableScore: int)

  /** `equipped_item_id` is optional in the source: `None` is `undefined`. */
  datatype AvatarData = AvatarData(
    userId: string,
    avatarName: string,
    level: int,
    exp: int,
    coin: int,
    equippedItemId: Option<string>,
    streakCount: int,
    baseEmoji: string)

  datatype ShopReward = ShopReward(
    id: string,
    title: string,
    cost: int,
    stock: int,
    icon: string,
    description: string)

  datatype RedemptionStatus = Pending | Completed

  datatype RedemptionRecord = RedemptionRecord(
    id: string,
    userId: string,
    rewardId: string,
    status: RedemptionStatus,
    claimedAt: string,
    code: string)

  /** An item in a student's backpack. */
  datatype UserItem = UserItem(
    id: string,
    userId: string,
    itemId: string,
    isEquipped: bool,
    acquiredAt: string)

  /** The logs of one user, in their original order: the `user_id` filter
      applied by the student and the parent pages alike. */
  function LogsOf(logs: seq<HealthLog>, userId: string): (r: seq<HealthLog>)
    ensures |r| <= |logs|
    ensures forall l :: l in r ==> l in logs && l.userId == userId
  {
    Filter(logs, (l: HealthLog) => l.userId == userId)
  }

  /** Every log of the user survives the filter, and the filter distributes
      over concatenation, so the original order is kept. */
  lemma LogsOfExact(logs: seq<HealthLog>, more: seq<HealthLog>, userId: string, l: HealthLog)
    ensures l in LogsOf(logs, userId) <==> l in logs && l.userId == userId
    ensures LogsOf(logs + more, userId) == LogsOf(logs, userId) + LogsOf(more, userId)
  {
    if l in logs && l.userId == userId {
      FilterComplete(logs, (l: HealthLog) => l.userId == userId, l);
    }
    FilterAppend(logs, more, (l: HealthLog) => l.userId == userId);
  }

  function HasMood(mood: string): HealthLog -> bool {
    (l: HealthLog) => l.mood == mood
  }

  /** `logs.filter(l => l.mood === mood).length` */
  function MoodCount(logs: seq<HealthLog>, mood: string): (n: nat)
    ensures n <= |logs|
  {
    CountIf(logs, HasMood(mood))
  }

  lemma MoodCountSnoc(logs: seq<HealthLog>, x: HealthLog, mood: string)
    ensures MoodCount(logs + [x], mood) == MoodCount(logs, mood) + (if x.mood == mood then 1 else 0)
  {
    CountIfSnoc(logs, x, HasMood(mood));
  }

  /** A question of the quiz pool as the store returns it; `answer` is the
      raw cell text that the quiz reads with `parseInt`. */
  datatype QuizQuestion = QuizQuestion(
    id: string,
    question: string,
    option1: string,
    option2: string,
    option3: string,
    option4: string,
    answer: string,
    icon: string)

  /** A collectible card as the award call returns it. */
  datatype Card = Card(id: string, rarity: string, title: string)

  /** One row of the leaderboard query. */
  datatype RankRow = RankRow(
    userId: string,
    fullname: string,
    level: int,
    exp: int,
    className: string,
    baseEmoji: string)
}
