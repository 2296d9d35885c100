/** The student's home page (`pages/StudentHome.tsx`): the two "already done
    today?" gates computed when the page refreshes, the spend rules of the
    mystery box and the reward shop, the equip toggle and the handling of a
    saved health log. Dates are compared by their ISO day key; turning a
    date string into that key (`new Date(x).toISOString().split('T')[0]`)
    is the parameter `dayOf`, whose `None` stands for an invalid date, on
    which `toISOString` throws. */
module StudentHome {
  import opened Common
  import opened Types
  import opened DbService

  /** The coins the mystery box costs. */
  const BoxPrice: int := 20

  /** The outcome of `find`/`some` with a predicate that may throw: the first
      element whose day key is today, none at all, or an exception raised by
      an invalid date met before any hit. */
  datatype Scan<T> = Hit(item: T) | NoHit | Threw

  /** Scan `xs` in order for the first element dated `today`. */
  function FirstOnDay<T>(xs: seq<T>, day: T -> Option<string>, today: string): (r: Scan<T>)
    ensures r.Hit? ==> r.item in xs && day(r.item) == Some(today)
  {
    if xs == [] then NoHit
    else
      match day(xs[0])
      case None => Threw
      case Some(d) => if d == today then Hit(xs[0]) else FirstOnDay(xs[1..], day, today)
  }

  /** No hit exactly when every date is valid and none is today. */
  lemma {:induction false} FirstOnDayNoHit<T>(xs: seq<T>, day: T -> Option<string>, today: string)
    ensures FirstOnDay(xs, day, today) == NoHit <==>
      forall i :: 0 <= i < |xs| ==> day(xs[i]).Some? && day(xs[i]) != Some(today)
  {
    if xs != [] {
      FirstOnDayNoHit(xs[1..], day, today);
      if day(xs[0]).Some? && day(xs[0]) != Some(today) {
        assert forall i :: 1 <= i < |xs| ==> xs[i] == xs[1..][i - 1];
      }
    }
  }

  /** A hit is the first element dated today, every earlier one being a
      valid other day. */
  lemma {:induction false} FirstOnDayHitIsFirst<T>(xs: seq<T>, day: T -> Option<string>, today: string)
    ensures FirstOnDay(xs, day, today).Hit? ==>
      exists i :: 0 <= i < |xs| && xs[i] == FirstOnDay(xs, day, today).item
        && day(xs[i]) == Some(today)
        && forall j :: 0 <= j < i ==> day(xs[j]).Some? && day(xs[j]) != Some(today)
  {
    if xs != [] {
      var r := FirstOnDay(xs, day, today);
      if day(xs[0]) == Some(today) {
        assert xs[0] == r.item;
      } else if day(xs[0]).Some? && r.Hit? {
        FirstOnDayHitIsFirst(xs[1..], day, today);
        var i :| 0 <= i < |xs[1..]| && xs[1..][i] == r.item && day(xs[1..][i]) == Some(today)
          && forall j :: 0 <= j < i ==> day(xs[1..][j]).Some? && day(xs[1..][j]) != Some(today);
        var k := i + 1;
        assert xs[k] == r.item && day(xs[k]) == Some(today);
        forall j | 0 <= j < k ensures day(xs[j]).Some? && day(xs[j]) != Some(today) {
          if j > 0 {
            assert xs[j] == xs[1..][j - 1];
          }
        }
      }
    }
  }

  /** No hit exactly when every date is valid and none is today; a hit is the
      first element dated today, every earlier one being a valid other day. */
  lemma FirstOnDayFirstHit<T>(xs: seq<T>, day: T -> Option<string>, today: string)
    ensures FirstOnDay(xs, day, today) == NoHit <==>
      forall i :: 0 <= i < |xs| ==> day(xs[i]).Some? && day(xs[i]) != Some(today)
    ensures FirstOnDay(xs, day, today).Hit? ==>
      exists i :: 0 <= i < |xs| && xs[i] == FirstOnDay(xs, day, today).item
        && day(xs[i]) == Some(today)
        && forall j :: 0 <= j < i ==> day(xs[j]).Some? && day(xs[j]) != Some(today)
  {
    FirstOnDayNoHit(xs, day, today);
    FirstOnDayHitIsFirst(xs, day, today);
  }

  /** When every date is valid the scan cannot throw, and it hits exactly
      when some element is dated today. */
  lemma {:induction false} FirstOnDayValidDates<T>(xs: seq<T>, day: T -> Option<string>, today: string)
    requires forall i :: 0 <= i < |xs| ==> day(xs[i]).Some?
    ensures !FirstOnDay(xs, day, today).Threw?
    ensures FirstOnDay(xs, day, today).Hit? <==> exists i :: 0 <= i < |xs| && day(xs[i]) == Some(today)
  {
    if xs != [] {
      FirstOnDayValidDates(xs[1..], day, today);
      if day(xs[0]) != Some(today) {
        if exists i :: 0 <= i < |xs| && day(xs[i]) == Some(today) {
          var i :| 0 <= i < |xs| && day(xs[i]) == Some(today);
          assert day(xs[1..][i - 1]) == Some(today);
        }
      }
    }
  }

  /** Day key of a health log: its `date` column. */
  function LogDay(dayOf: string -> Option<string>): HealthLog -> Option<string>
  {
    (l: HealthLog) => dayOf(l.date)
  }

  /** Day key of a box-log row: its third column; a shorter row reads
      `undefined`, an invalid date. */
  function BoxDay(dayOf: string -> Option<string>): seq<string> -> Option<string>
  {
    (row: seq<string>) => if |row| > 2 then dayOf(row[2]) else None
  }

  /** The log scan with valid dates: it hits exactly when a log is dated
      today. */
  lemma LogScanValidDates(logs: seq<HealthLog>, dayOf: string -> Option<string>, today: string)
    ensures (forall i :: 0 <= i < |logs| ==> dayOf(logs[i].date).Some?) ==>
      !FirstOnDay(logs, LogDay(dayOf), today).Threw?
      && (FirstOnDay(logs, LogDay(dayOf), today).Hit? <==> exists i :: 0 <= i < |logs| && dayOf(logs[i].date) == Some(today))
  {
    if forall i :: 0 <= i < |logs| ==> dayOf(logs[i].date).Some? {
      FirstOnDayValidDates(logs, LogDay(dayOf), today);
    }
  }

  /** The page's two "already done today?" gates and the log found for
      today. */
  datatype Gates = Gates(logged: bool, todayLog: Option<HealthLog>, boxOpened: bool)

  /** The gates after a refresh, from the user's logs and the box-log rows.
      The log scan runs first; an invalid date met before a hit throws and
      leaves every gate as it was. The box scan runs next; a throw there
      leaves only the box gate as it was. */
  function RefreshGates(myLogs: seq<HealthLog>, boxLogs: seq<seq<string>>,
                        dayOf: string -> Option<string>, today: string, prev: Gates): (g: Gates)
    ensures g.todayLog.Some? ==>
      g.todayLog == prev.todayLog || (g.todayLog.value in myLogs && dayOf(g.todayLog.value.date) == Some(today))
    ensures (prev.logged <==> prev.todayLog.Some?) ==> (g.logged <==> g.todayLog.Some?)
    ensures (forall i :: 0 <= i < |myLogs| ==> dayOf(myLogs[i].date).Some?) ==>
      (g.logged <==> exists i :: 0 <= i < |myLogs| && dayOf(myLogs[i].date) == Some(today))
    ensures var s := FirstOnDay(myLogs, LogDay(dayOf), today);
      if s.Threw? then g == prev
      else
        (g.logged <==> s.Hit?) && g.todayLog == (if s.Hit? then Some(s.item) else None)
        && var b := FirstOnDay(boxLogs, BoxDay(dayOf), today);
        g.boxOpened == (if b.Threw? then prev.boxOpened else b.Hit?)
  {
    LogScanValidDates(myLogs, dayOf, today);
    var box := FirstOnDay(boxLogs, BoxDay(dayOf), today);
    var boxOpened := if box.Threw? then prev.boxOpened else box.Hit?;
    match FirstOnDay(myLogs, LogDay(dayOf), today)
    case Threw => prev
    case NoHit => Gates(false, None, boxOpened)
    case Hit(log) => Gates(true, Some(log), boxOpened)
  }

  /** The getters fail open: when fetching the logs fails, or the reply is
      `null` or lacks its list, both gates read "not yet today". */
  lemma GatesFailOpen(userId: string, dayOf: string -> Option<string>, today: string,
                      urlLength: nat, dLogs: Delivery<ListBody<HealthLog>>, dBox: Delivery<ListBody<seq<string>>>)
    requires CallJSONP("getAllHealthLogs", urlLength, dLogs).Err? || dLogs == Replied(NullResponse)
             || (dLogs.Replied? && dLogs.response.Obj? && dLogs.response.body.items.None?)
    requires CallJSONP("getBoxLogs", urlLength, dBox).Err? || dBox == Replied(NullResponse)
             || (dBox.Replied? && dBox.response.Obj? && dBox.response.body.items.None?)
    ensures FirstOnDay(LogsOf(GetList("getAllHealthLogs", urlLength, dLogs), userId), LogDay(dayOf), today) == NoHit
    ensures FirstOnDay(GetList("getBoxLogs", urlLength, dBox), BoxDay(dayOf), today) == NoHit
  {
    GetListFailsOpen("getAllHealthLogs", urlLength, dLogs);
    GetListFailsOpen("getBoxLogs", urlLength, dBox);
  }

  /** `handleEquip`: the id sent to the store. Choosing the item already worn
      sends the empty id, which unequips it; any other item is sent as is. */
  function EquipTarget(avatar: Option<AvatarData>, itemId: string): (t: string)
    ensures t == "" || t == itemId
    ensures t == "" <==> itemId == "" || (avatar.Some? && avatar.value.equippedItemId == Some(itemId))
  {
    if avatar.Some? && avatar.value.equippedItemId == Some(itemId) then "" else itemId
  }

  /** The coins the shop compares with a price, `avatar?.coin || 0`: the
      avatar's coins, or none while no avatar is loaded. */
  function CoinsShown(avatar: Option<AvatarData>): (c: int)
    ensures avatar.None? ==> c == 0
    ensures avatar.Some? ==> c == avatar.value.coin
  {
    if avatar.Some? then avatar.value.coin else 0
  }

  /** The shop button of a reward is enabled when it is in stock and the
      coins shown cover its cost. */
  function RedeemEnabled(avatar: Option<AvatarData>, r: ShopReward): (e: bool)
    ensures e ==> r.stock > 0
  {
    r.stock > 0 && CoinsShown(avatar) >= r.cost
  }

  /** `handleRedeem`'s local refusal: no avatar loaded, or too few coins. */
  function RedeemRefused(avatar: Option<AvatarData>, r: ShopReward): (refused: bool)
    ensures avatar.None? ==> refused
    ensures avatar.Some? ==> (refused <==> CoinsShown(avatar) < r.cost)
  {
    avatar.None? || avatar.value.coin < r.cost
  }

  /** An enabled button is refused only when no avatar is loaded and the
      reward costs nothing (or less); with an avatar, enabled means accepted. */
  lemma RedeemEnabledVersusRefused(avatar: Option<AvatarData>, r: ShopReward)
    ensures RedeemEnabled(avatar, r) && avatar.Some? ==> !RedeemRefused(avatar, r)
    ensures RedeemEnabled(avatar, r) && RedeemRefused(avatar, r) <==>
      avatar.None? && r.stock > 0 && r.cost <= 0
    ensures !RedeemRefused(avatar, r) && r.stock > 0 ==> RedeemEnabled(avatar, r)
  {
  }

  datatype RedeemOutcome = NotEnoughCoins | Cancelled | Redeemed(o: ActionOutcome)

  /** `handleRedeem(r)`: refused locally without a call when the coins do
      not cover the cost; otherwise the store is called only when the user
      confirms the dialog. */
  function Redeem(avatar: Option<AvatarData>, r: ShopReward, confirmed: bool,
                  urlLength: nat, d: Delivery<()>): (o: RedeemOutcome)
    ensures o == NotEnoughCoins <==> avatar.None? || avatar.value.coin < r.cost
    ensures o.Redeemed? <==> avatar.Some? && avatar.value.coin >= r.cost && confirmed
    ensures o.Redeemed? ==> o.o == ActOn(CallJSONP("redeemReward", urlLength, d))
    ensures o == Redeemed(Refresh) <==> (avatar.Some? && avatar.value.coin >= r.cost && confirmed
      && urlLength <= MaxUrlLength && d.Replied? && d.response.Obj? && d.response.success.Truthy())
    ensures o == Redeemed(Failed) <==> (avatar.Some? && avatar.value.coin >= r.cost && confirmed
      && (CallJSONP("redeemReward", urlLength, d).Err? || d == Replied(NullResponse)))
  {
    if RedeemRefused(avatar, r) then NotEnoughCoins
    else if !confirmed then Cancelled
    else Redeemed(ActOn(CallJSONP("redeemReward", urlLength, d)))
  }

  /** The experience needed for the next level shown beside the bar:
      `level * 100`, or 100 when the level is missing or zero. */
  function ExpBarTarget(avatar: Option<AvatarData>): (t: int)
    ensures t != 0 && t % 100 == 0
    ensures t == 100 <==> avatar.None? || avatar.value.level == 0 || avatar.value.level == 1
    ensures avatar.Some? && avatar.value.level != 0 ==> t / 100 == avatar.value.level
  {
    if avatar.Some? && avatar.value.level != 0 then avatar.value.level * 100 else 100
  }

  datatype SaveOutcome =
    | Saved              // form closed, a refresh follows
    | NotSaved(message: string) // form closed, the store's message shown
    | SaveFailed(message: string) // error alert, form left open

  datatype BoxOutcome = AlreadyOpened | NotEnoughCoinsForBox | Opened(o: ActionOutcome)

  class Page {
    const userId: string
    var avatar: Option<AvatarData>
    var userItems: seq<UserItem>
    var rewards: seq<ShopReward>
    var myRedemptions: seq<RedemptionRecord>
    var userLogs: seq<HealthLog>
    var todayLog: Option<HealthLog>
    var isAlreadyLogged: bool
    var isBoxAlreadyOpened: bool
    var showForm: bool
    var showBox: bool
    var openingBox: bool

    /** The page's own logs are the user's, so is the log found for today,
        and the log gate is set exactly when one was found. */
    ghost predicate Valid()
      reads this
    {
      (forall l :: l in userLogs ==> l.userId == userId)
      && (todayLog.Some? ==> todayLog.value.userId == userId)
      && (isAlreadyLogged <==> todayLog.Some?)
      && !openingBox
    }

    constructor (userId: string)
      ensures Valid() && this.userId == userId
      ensures avatar == None && userLogs == [] && todayLog == None
      ensures !isAlreadyLogged && !isBoxAlreadyOpened && !showForm && !showBox
    {
      this.userId := userId;
      avatar := None;
      userItems := [];
      rewards := [];
      myRedemptions := [];
      userLogs := [];
      todayLog := None;
      isAlreadyLogged := false;
      isBoxAlreadyOpened := false;
      showForm := false;
      showBox := false;
      openingBox := false;
    }

    /** `refreshData` with the getters' results: the lists are stored, the
        user's logs kept, then the log gate and the box gate computed in that
        order. An invalid date aborts the rest of the update, so a throw in
        the log scan leaves both gates as they were and a throw in the box
        scan leaves the box gate as it was. */
    method RefreshData(dayOf: string -> Option<string>, today: string,
                       avatarData: AvatarData, allLogs: seq<HealthLog>, boxLogs: seq<seq<string>>,
                       items: seq<UserItem>, shopItems: seq<ShopReward>, claims: seq<RedemptionRecord>)
      requires Valid()
      modifies this`avatar, this`userItems, this`rewards, this`myRedemptions
      modifies this`userLogs, this`todayLog, this`isAlreadyLogged, this`isBoxAlreadyOpened
      ensures Valid()
      ensures avatar == Some(avatarData) && userItems == items && rewards == shopItems
      ensures myRedemptions == claims && userLogs == LogsOf(allLogs, userId)
      ensures Gates(isAlreadyLogged, todayLog, isBoxAlreadyOpened)
        == RefreshGates(userLogs, boxLogs, dayOf, today, old(Gates(isAlreadyLogged, todayLog, isBoxAlreadyOpened)))
      ensures showForm == old(showForm) && showBox == old(showBox)
    {
      avatar, userItems, rewards, myRedemptions := Some(avatarData), items, shopItems, claims;
      SetLogs(LogsOf(allLogs, userId), boxLogs, dayOf, today);
    }

    /** The second half of `refreshData`: store the user's logs, then
        compute the two gates from them and from the box-log rows. */
    method SetLogs(myLogs: seq<HealthLog>, boxLogs: seq<seq<string>>, dayOf: string -> Option<string>, today: string)
      requires Valid() && forall l :: l in myLogs ==> l.userId == userId
      modifies this`userLogs, this`todayLog, this`isAlreadyLogged, this`isBoxAlreadyOpened
      ensures Valid() && userLogs == myLogs
      ensures Gates(isAlreadyLogged, todayLog, isBoxAlreadyOpened)
        == RefreshGates(myLogs, boxLogs, dayOf, today, old(Gates(isAlreadyLogged, todayLog, isBoxAlreadyOpened)))
    {
      var g := RefreshGates(myLogs, boxLogs, dayOf, today, Gates(isAlreadyLogged, todayLog, isBoxAlreadyOpened));
      userLogs, todayLog, isAlreadyLogged, isBoxAlreadyOpened := myLogs, g.todayLog, g.logged, g.boxOpened;
    }

    /** The log button: clicking it opens the form unless today is already
        logged (the button is then disabled). */
    method OpenLogForm()
      modifies this`showForm
      ensures showForm == (old(showForm) || !isAlreadyLogged)
    {
      if !isAlreadyLogged {
        showForm := true;
      }
    }

    /** The box button opens the box dialog; it is disabled once the box
        has been opened today. */
    method OpenBoxDialog()
      requires !isBoxAlreadyOpened
      modifies this`showBox
      ensures showBox
    {
      showBox := true;
    }

    /** `handleHealthSave` on the outcome of the save call. A reply whose
        `success` is `false` rejects inside the call, so it reaches the
        `catch`: an error alert, the form left open. A resolved reply with a
        falsy `success` closes the form without a refresh; a truthy one
        closes it and asks for a refresh. A `null` reply throws on reading
        `success` and is caught like a rejection. */
    method HandleHealthSave(urlLength: nat, d: Delivery<()>) returns (o: SaveOutcome)
      requires Valid()
      modifies this`showForm
      ensures Valid()
      ensures var r := CallJSONP("saveHealthLog", urlLength, d);
        match r
        case Err(e) => o == SaveFailed(ErrorMessage(e))
        case Ok(NullResponse) => o == SaveFailed(ErrorMessage(BadReply("success")))
        case Ok(Obj(success, message, _)) => o == (if success.Truthy() then Saved else NotSaved(message))
      ensures showForm == (old(showForm) && o.SaveFailed?)
    {
      var r := CallJSONP("saveHealthLog", urlLength, d);
      match r {
        case Err(e) =>
          o := SaveFailed(ErrorMessage(e));
        case Ok(NullResponse) =>
          o := SaveFailed(ErrorMessage(BadReply("success")));
        case Ok(Obj(success, message, _)) =>
          showForm := false;
          o := if success.Truthy() then Saved else NotSaved(message);
      }
    }

    /** `handleOpenBox` with the catalogue item drawn at random (`None` when
        the catalogue is empty, where reading its id throws). Nothing happens
        when the box was already opened today; the call is refused locally
        when an avatar is loaded with fewer than 20 coins, but not when no
        avatar is loaded. Once attempted, the box dialog is closed whatever
        the reply. */
    method HandleOpenBox(pick: Option<string>, urlLength: nat, d: Delivery<()>) returns (o: BoxOutcome)
      requires Valid()
      modifies this`openingBox, this`showBox
      ensures Valid()
      ensures o == AlreadyOpened <==> isBoxAlreadyOpened
      ensures o == NotEnoughCoinsForBox <==>
        !isBoxAlreadyOpened && avatar.Some? && avatar.value.coin < BoxPrice
      ensures o.Opened? ==>
        o.o == (if pick.None? then Failed else ActOn(CallJSONP("openMysteryBox", urlLength, d)))
      ensures showBox == (old(showBox) && !o.Opened?)
    {
      if isBoxAlreadyOpened {
        return AlreadyOpened;
      }
      if avatar.Some? && avatar.value.coin < BoxPrice {
        return NotEnoughCoinsForBox;
      }
      openingBox := true;
      if pick.None? {
        o := Opened(Failed);
      } else {
        o := Opened(ActOn(CallJSONP("openMysteryBox", urlLength, d)));
      }
      openingBox := false;
      showBox := false;
    }
  }
}
