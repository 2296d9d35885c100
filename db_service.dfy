/** The data-access layer (`services/dbService.ts`). The JSONP transport
    itself (script injection, global callbacks, the 30-second timer) is not
    modelled: a call is described by the length of the URL it would request
    and by what happened to the request (`Delivery`). What is kept are the
    rules that turn that outcome into a value or an error. */
module DbService {
  import opened Common
  import opened Types

  /** The value of a reply's `success` field: absent, a boolean, or some
      other JSON value (only its truthiness matters). */
  datatype Flag = Missing | BoolFlag(b: bool) | OtherFlag(truthy: bool) {
    /** `success === false` */
    predicate IsFalse() { this == BoolFlag(false) }
    /** `success === true` */
    predicate IsTrue() { this == BoolFlag(true) }
    /** `!!success` */
    predicate Truthy() {
      match this
      case Missing => false
      case BoolFlag(b) => b
      case OtherFlag(t) => t
    }
  }

  /** A decoded reply: JSON `null`, or an object with its `success` field,
      its `message` (empty when absent) and the action-specific fields. */
  datatype Response<B> = NullResponse | Obj(success: Flag, message: string, body: B)

  /** What happened to the request: the callback ran with a reply, the timer
      fired first, or the script element failed to load. */
  datatype Delivery<B> = Replied(response: Response<B>) | NoReplyInTime | ScriptLoadFailed

  /** Why a call rejected. `BadReply` is the `TypeError` raised when a caller
      reads a field of a `null` reply outside a `try`. */
  datatype CallError =
    | Rejected(message: string)
    | Timeout(action: string)
    | NetworkError
    | TooLong
    | BadReply(field: string)

  const MaxUrlLength: nat := 8000
  const DefaultServerError := "เซิร์ฟเวอร์แจ้งข้อผิดพลาด"
  const DefaultEmoji := "🧑‍🚀"

  /** The `message` of the `Error` a call rejects with. */
  function ErrorMessage(e: CallError): (m: string)
    ensures m != ""
  {
    match e
    case Rejected(msg) => if msg == "" then DefaultServerError else msg
    case Timeout(action) => "[Timeout] เซิร์ฟเวอร์ตอบสนองช้าเกินไปขณะทำ: " + action
    case NetworkError => "Network Error: เชื่อมต่อเซิร์ฟเวอร์ไม่ได้"
    case TooLong => "ข้อมูลยาวเกินไปสำหรับการส่งแบบปกติ"
    case BadReply(field) => "Cannot read properties of null (reading '" + field + "')"
  }

  /** `callJSONP(action, data)`: an over-long URL is refused before anything
      is sent; a reply whose `success` is exactly `false` rejects with its
      message; every other reply, `null` included, resolves. */
  function CallJSONP<B>(action: string, urlLength: nat, d: Delivery<B>): (r: Result<Response<B>, CallError>)
    ensures urlLength > MaxUrlLength ==> r == Err(TooLong)
    ensures r.Ok? ==> urlLength <= MaxUrlLength && d == Replied(r.value)
    ensures r.Ok? ==> !(r.value.Obj? && r.value.success.IsFalse())
  {
    if urlLength > MaxUrlLength then Err(TooLong)
    else
      match d
      case NoReplyInTime => Err(Timeout(action))
      case ScriptLoadFailed => Err(NetworkError)
      case Replied(resp) =>
        if resp.Obj? && resp.success.IsFalse() then Err(Rejected(resp.message)) else Ok(resp)
  }

  /** A delivered reply rejects exactly when its `success` is `false`; any
      other reply (no `success` field, a truthy or falsy non-boolean, `null`)
      resolves unchanged. */
  lemma ReplyRejectsIffExplicitFalse<B>(action: string, urlLength: nat, resp: Response<B>)
    requires urlLength <= MaxUrlLength
    ensures CallJSONP(action, urlLength, Replied(resp)).Err?
        <==> resp.Obj? && resp.success == BoolFlag(false)
    ensures CallJSONP(action, urlLength, Replied(resp)).Err? ==>
        ErrorMessage(CallJSONP(action, urlLength, Replied(resp)).error)
        == (if resp.message == "" then DefaultServerError else resp.message)
  {
  }

  /** `checkConnection()`: `res && res.success === true`, `false` on any
      rejection. A `null` reply yields `null` (here `None`), not `false`. */
  function CheckConnection(urlLength: nat, d: Delivery<()>): (c: Option<bool>)
    ensures c == Some(true) <==> d.Replied? && d.response.Obj? && d.response.success.IsTrue()
                                 && urlLength <= MaxUrlLength
    ensures c == None <==> d == Replied(NullResponse) && urlLength <= MaxUrlLength
  {
    match CallJSONP("ping", urlLength, d)
    case Err(_) => Some(false)
    case Ok(NullResponse) => None
    case Ok(Obj(success, _, _)) => Some(success.IsTrue())
  }

  datatype LoginBody = LoginBody(user: Option<User>)

  /** `login(username, password)`: rejections propagate; a resolved reply
      yields its `user` when `success` is truthy, otherwise `null`. */
  function Login(urlLength: nat, d: Delivery<LoginBody>): (r: Result<Option<User>, CallError>)
    ensures r.Ok? && r.value.Some? <==>
      urlLength <= MaxUrlLength && d.Replied? && d.response.Obj? && d.response.success.Truthy()
      && d.response.body.user.Some?
    ensures r.Ok? && r.value.Some? ==> r.value == d.response.body.user
    ensures r.Err? <==> CallJSONP("loginUser", urlLength, d).Err?
    ensures r.Err? ==> r.error == CallJSONP("loginUser", urlLength, d).error
  {
    match CallJSONP("loginUser", urlLength, d)
    case Err(e) => Err(e)
    case Ok(resp) =>
      if resp.Obj? && resp.success.Truthy() then Ok(resp.body.user) else Ok(None)
  }

  datatype RegisterBody = RegisterBody(userId: string)

  /** `register(userData)`: the submitted fields with `id` taken from the
      reply's `userId` and the role forced to student. */
  function Register(userData: User, urlLength: nat, d: Delivery<RegisterBody>): (r: Result<User, CallError>)
    ensures r.Ok? ==> r.value.role == Student && r.value == userData.(id := r.value.id, role := Student)
    ensures r.Ok? ==> d.Replied? && d.response.Obj? && r.value.id == d.response.body.userId
    ensures d == Replied(NullResponse) && urlLength <= MaxUrlLength ==> r == Err(BadReply("userId"))
    ensures urlLength <= MaxUrlLength && d.Replied? && d.response.Obj? && !d.response.success.IsFalse() ==>
      r == Ok(userData.(id := d.response.body.userId, role := Student))
    ensures CallJSONP("registerUser", urlLength, d).Err? ==> r == Err(CallJSONP("registerUser", urlLength, d).error)
  {
    match CallJSONP("registerUser", urlLength, d)
    case Err(e) => Err(e)
    case Ok(NullResponse) => Err(BadReply("userId"))
    case Ok(Obj(_, _, body)) => Ok(userData.(id := body.userId, role := Student))
  }

  /** The avatar fields of a `getAvatarData` reply, already numeric;
      `streakCount` is `None` when absent or falsy. */
  datatype AvatarBody = AvatarBody(
    avatarName: string,
    level: int,
    exp: int,
    coin: int,
    equippedItemId: Option<string>,
    streakCount: Option<int>,
    baseEmoji: string)

  /** `getAvatar(userId)`: a reply with truthy `success` is mapped field by
      field (streak defaults to 0, an empty emoji to the astronaut); anything
      else, a rejection included, gives the initial avatar `initial`. */
  function GetAvatar(userId: string, initial: AvatarData, urlLength: nat, d: Delivery<AvatarBody>): (a: AvatarData)
    ensures !(urlLength <= MaxUrlLength && d.Replied? && d.response.Obj? && d.response.success.Truthy()) ==>
      a == initial
    ensures d.Replied? && d.response.Obj? && d.response.success.Truthy() && urlLength <= MaxUrlLength ==>
      var b := d.response.body;
      a.userId == userId && a.level == b.level && a.exp == b.exp && a.coin == b.coin
      && a.equippedItemId == b.equippedItemId
      && a.streakCount == (if b.streakCount.Some? then b.streakCount.value else 0)
      && a.baseEmoji == (if b.baseEmoji == "" then DefaultEmoji else b.baseEmoji)
      && a.avatarName == b.avatarName
  {
    match CallJSONP("getAvatarData", urlLength, d)
    case Ok(Obj(success, _, b)) =>
      if success.Truthy() then
        AvatarData(userId, b.avatarName, b.level, b.exp, b.coin, b.equippedItemId,
                   b.streakCount.GetOr(0), if b.baseEmoji == "" then DefaultEmoji else b.baseEmoji)
      else initial
    case _ => initial
  }

  /** The list-valued field of a reply (`data`, `rewards`, `logs`, ...);
      `None` when absent or falsy. */
  datatype ListBody<T> = ListBody(items: Option<seq<T>>)

  /** Every list getter: `res.<field> || []` inside `try`, `[]` in the
      `catch`. Reading the field of a `null` reply throws and is caught too. */
  function GetList<T>(action: string, urlLength: nat, d: Delivery<ListBody<T>>): (xs: seq<T>)
    ensures xs != [] ==> urlLength <= MaxUrlLength && d.Replied? && d.response.Obj?
                         && !d.response.success.IsFalse() && d.response.body.items == Some(xs)
  {
    match CallJSONP(action, urlLength, d)
    case Ok(Obj(_, _, body)) => body.items.GetOr([])
    case _ => []
  }

  /** The getters fail open: a timeout, a load failure, an over-long URL, a
      rejection, a `null` reply or a missing field all read as an empty
      list, indistinguishable from a genuinely empty one. */
  lemma GetListFailsOpen<T>(action: string, urlLength: nat, d: Delivery<ListBody<T>>)
    requires CallJSONP(action, urlLength, d).Err? || d == Replied(NullResponse)
             || (d.Replied? && d.response.Obj? && d.response.body.items.None?)
    ensures GetList(action, urlLength, d) == []
  {
  }

  /** A successful reply carrying a list is returned unchanged. */
  lemma GetListDelivers<T>(action: string, urlLength: nat, success: Flag, message: string, items: seq<T>)
    requires urlLength <= MaxUrlLength && !success.IsFalse()
    ensures GetList(action, urlLength, Replied(Obj(success, message, ListBody(Some(items))))) == items
  {
  }

  /** What a handler does with the reply of a store call: refresh when
      `success` is truthy, stay silent otherwise, and alert when the call
      rejected or a `null` reply made reading `success` throw. */
  datatype ActionOutcome = Refresh | Quiet | Failed

  function ActOn<B>(r: Result<Response<B>, CallError>): (o: ActionOutcome)
    ensures o == Refresh <==> r.Ok? && r.value.Obj? && r.value.success.Truthy()
    ensures o == Failed <==> r.Err? || r.value == NullResponse
  {
    match r
    case Err(_) => Failed
    case Ok(NullResponse) => Failed
    case Ok(Obj(success, _, _)) => if success.Truthy() then Refresh else Quiet
  }
}
