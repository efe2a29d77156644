/** xyb.py: one internship account of the attendance service (`XybAccount`)
    and the registry of accounts keyed by their openid (`XybSign`).  Every
    server response is a parameter (`Resp`), every request the account makes
    goes to the ghost trace `requests`, and what its logger writes to the
    ghost trace `logged`. */
module Xyb {
  import opened Text
  import opened Py

  const UrlLogin := "https://xcx.xybsyw.com/login/login!wx.action"
  const UrlAccount := "https://xcx.xybsyw.com/account/LoadAccountInfo.action"
  const UrlIp := "https://xcx.xybsyw.com/behavior/Duration!getIp.action"
  const UrlTrain := "https://xcx.xybsyw.com/student/clock/GetPlan!getDefault.action"
  const UrlTrainInfo := "https://xcx.xybsyw.com/student/clock/GetPlan!detail.action"
  const UrlBehavior := "https://app.xybsyw.com/behavior/Duration.action"
  const UrlAutoClock := "https://xcx.xybsyw.com/student/clock/Post!autoClock.action"
  const UrlNewClock := "https://xcx.xybsyw.com/student/clock/PostNew.action"
  const UrlUpdateClock := "https://xcx.xybsyw.com/student/clock/PostNew!updateClock.action"

  /** A decoded JSON response: its `code` and the part of `data` the code reads. */
  datatype Resp<D> = Resp(code: Scalar, data: D)

  /** The code compares the response code with the string "200"; a number
      200 does not count. */
  predicate Succeeded<D>(r: Resp<D>) { r.code == SStr("200") }

  datatype LoginData = LoginData(loginerId: Scalar, sessionId: Scalar, phone: Scalar)
  datatype AccountData = AccountData(loginer: Scalar)
  /** `data.clockVo` of the default plan. */
  datatype PlanData = PlanData(traineeId: Scalar, planName: Scalar, startDate: Scalar, endDate: Scalar)
  /** `data.postInfo.lat/lng` and `data.clockInfo.inTime/outTime` of the plan detail. */
  datatype PlanDetail = PlanDetail(lat: real, lng: real, inTime: PyValue, outTime: PyValue)

  /** The `location` of an account: a JSON object. */
  type Location = map<string, Scalar>

  datatype Level = Info | Warning | Error

  /** A logger line; `Dump` is a whole response logged for debugging, of
      which the code is kept. */
  datatype LogLine = Line(level: Level, text: string) | Dump(code: Scalar)

  /** The three ways of submitting a clock record. */
  datatype Primitive = AutoClock | NewClock | UpdateClock

  function ClockUrl(p: Primitive): string
  {
    match p
    case AutoClock => UrlAutoClock
    case NewClock => UrlNewClock
    case UpdateClock => UrlUpdateClock
  }

  function ClockFailure(p: Primitive): string
  {
    match p
    case AutoClock => "Failed to [AUTO]sign"
    case NewClock => "Failed to [NEW]sign"
    case UpdateClock => "Failed to [UPDATE]sign"
  }

  /** The fields of the behaviour report that vary; the others are constants. */
  datatype Behavior = Behavior(eventTime: int, clientIp: Scalar, deviceToken: string, userName: Scalar,
                               userId: Scalar, province: Scalar, country: Scalar, city: Scalar)

  /** The record `_prepare_sign` builds. */
  datatype SignPayload = SignPayload(traineeId: Scalar, adcode: Scalar, lat: real, lng: real, address: Scalar,
                                     deviceName: string, punchInStatus: int, clockStatus: int,
                                     imgUrl: string, reason: string)

  /** A request the account makes. */
  datatype Request =
    | LoginPost(openId: string, unionId: string)
    | AccountGet
    | PlanGet
    | PlanDetailPost(traineeId: Scalar)
    | IpGet
    | BehaviorPost(behavior: Behavior)
    | ClockPost(primitive: Primitive, payload: SignPayload)

  function RequestUrl(r: Request): string
  {
    match r
    case LoginPost(_, _) => UrlLogin
    case AccountGet => UrlAccount
    case PlanGet => UrlTrain
    case PlanDetailPost(_) => UrlTrainInfo
    case IpGet => UrlIp
    case BehaviorPost(_) => UrlBehavior
    case ClockPost(p, _) => ClockUrl(p)
  }

  /** A clock record submitted: with which primitive and which status
      (1 signs out, 2 signs in). */
  datatype Submission = Submission(primitive: Primitive, status: int)

  /** The submissions among the requests, in order. */
  function Submissions(rs: seq<Request>): (s: seq<Submission>)
    ensures |s| <= |rs|
  {
    if rs == [] then []
    else
      var last := rs[|rs| - 1];
      Submissions(rs[..|rs| - 1])
        + if last.ClockPost? then [Submission(last.primitive, last.payload.clockStatus)] else []
  }

  lemma {:induction false} SubmissionsAppend(a: seq<Request>, b: seq<Request>)
    ensures Submissions(a + b) == Submissions(a) + Submissions(b)
  {
    if b == [] {
      assert a + b == a;
    } else {
      SubmissionsAppend(a, b[..|b| - 1]);
      assert (a + b)[..|a + b| - 1] == a + b[..|b| - 1];
    }
  }

  /** What the network answers during one sign attempt: the clock (whole
      seconds), the IP lookup, the behaviour report and the submission. */
  datatype SignExchange = SignExchange(now: int, ip: Resp<Scalar>, behavior: Resp<()>, clock: Resp<()>)

  /** How a step ends: it passes, `_request_error` rejects it with a message
      and the code of the offending response, or a key of the location is
      absent and the lookup raises KeyError. */
  datatype Step = Passed | Rejected(message: string, code: Scalar) | MissingKey(key: string)

  function StepOutcome(s: Step): (o: Outcome)
    ensures o == Done <==> s == Passed
  {
    match s
    case Passed => Done
    case Rejected(m, _) => Raised(RuntimeError(m))
    case MissingKey(k) => Raised(KeyError(k))
  }

  /** What `_request_error` logs; a KeyError is not logged. */
  function StepLog(s: Step): seq<LogLine>
  {
    if s.Rejected? then [Line(Error, s.message), Dump(s.code)] else []
  }

  /** `sign_behavior`: the IP lookup, the location keys the report reads, in
      the order the report lists them, then the report. */
  function BehaviorStep(location: Location, e: SignExchange): (s: Step)
    ensures s == Passed <==>
              && Succeeded(e.ip) && Succeeded(e.behavior)
              && "province" in location && "country" in location && "city" in location
  {
    if !Succeeded(e.ip) then Rejected("Failed to get IP", e.ip.code)
    else if "province" !in location then MissingKey("province")
    else if "country" !in location then MissingKey("country")
    else if "city" !in location then MissingKey("city")
    else if !Succeeded(e.behavior) then Rejected("Failed to send behavior", e.behavior.code)
    else Passed
  }

  /** `_prepare_sign`: the behaviour report, then the location keys of the
      record. */
  function PrepareStep(location: Location, e: SignExchange): (s: Step)
    ensures s == Passed <==>
              BehaviorStep(location, e) == Passed && "adcode" in location && "address" in location
  {
    var b := BehaviorStep(location, e);
    if b != Passed then b
    else if "adcode" !in location then MissingKey("adcode")
    else if "address" !in location then MissingKey("address")
    else Passed
  }

  /** `auto_sign`, `new_sign` or `update_sign`: the preparation, then the
      submission, which is rejected exactly when its code is not "200". */
  function SubmitStep(location: Location, e: SignExchange, p: Primitive): (s: Step)
    ensures PrepareStep(location, e) != Passed ==> s == PrepareStep(location, e)
    ensures PrepareStep(location, e) == Passed ==>
              && (s == Passed <==> Succeeded(e.clock))
              && (s.Rejected? <==> !Succeeded(e.clock))
              && (s.Rejected? ==> s.message == ClockFailure(p))
  {
    var s := PrepareStep(location, e);
    if s != Passed then s
    else if !Succeeded(e.clock) then Rejected(ClockFailure(p), e.clock.code)
    else Passed
  }

  /** What `sign_in` or `sign_out` does: submit with a primitive and a status
      and log the success message, or log a message and submit nothing. */
  datatype Decision = Submit(primitive: Primitive, status: int, success: string) | Skip(level: Level, message: string)

  /** The decision table of `sign_in`. */
  function SignInDecision(isSignIn: bool, isSignOut: bool, overwrite: bool): (d: Decision)
    ensures d.Submit? <==> !isSignIn || (overwrite && !isSignOut)
    ensures d.Submit? ==> d.status == 2 && d.primitive != NewClock
    ensures d.Submit? ==> (d.primitive == AutoClock <==> !isSignIn)
    ensures d.Skip? ==> (d.level == Error <==> overwrite) && (d.level == Warning <==> !overwrite)
  {
    if isSignIn then
      if overwrite then
        if !isSignOut then Submit(UpdateClock, 2, "Sign in success(Overwrite mode)")
        else Skip(Error, "Cannot update sign in record, already sign out")
      else Skip(Warning, "Sign in skip..")
    else Submit(AutoClock, 2, "Sign in success(Auto clock mode)")
  }

  /** The decision table of `sign_out`. */
  function SignOutDecision(isSignIn: bool, isSignOut: bool, overwrite: bool): (d: Decision)
    ensures d.Submit? <==> isSignIn && (!isSignOut || overwrite)
    ensures d.Submit? ==> d.status == 1 && d.primitive != AutoClock
    ensures d.Submit? ==> (d.primitive == UpdateClock <==> isSignOut)
    ensures d.Skip? ==> (d.level == Error <==> !isSignIn) && (d.level == Warning <==> isSignIn)
  {
    if isSignIn then
      if isSignOut then
        if overwrite then Submit(UpdateClock, 1, "Sign out success(Overwrite mode)")
        else Skip(Warning, "Sign out skip..")
      else Submit(NewClock, 1, "Sign out success(New append mode)")
    else Skip(Error, "Cannot sign out, must be sign in first")
  }

  /** `load_info`: the account, the plan and the plan detail, in that order;
      the first rejected lookup ends it. */
  function LoadStep(openId: string, account: Resp<AccountData>, plan: Resp<PlanData>, detail: Resp<PlanDetail>): (s: Step)
    ensures s == Passed <==> Succeeded(account) && Succeeded(plan) && Succeeded(detail)
    ensures !s.MissingKey?
  {
    if !Succeeded(account) then Rejected("Get account info error: " + openId, account.code)
    else if !Succeeded(plan) then Rejected("Failed to load train", plan.code)
    else if !Succeeded(detail) then Rejected("Failed to load train info", detail.code)
    else Passed
  }

  /** The lookups `load_info` makes: a lookup runs only when every earlier one succeeded. */
  function LoadRequests(account: Resp<AccountData>, plan: Resp<PlanData>): (rs: seq<Request>)
    ensures |rs| == if !Succeeded(account) then 1 else if !Succeeded(plan) then 2 else 3
    ensures rs[0] == AccountGet
    ensures |rs| > 1 ==> rs[1] == PlanGet
    ensures |rs| > 2 ==> rs[2] == PlanDetailPost(plan.data.traineeId)
  {
    [AccountGet] +
      if !Succeeded(account) then []
      else [PlanGet] + if !Succeeded(plan) then [] else [PlanDetailPost(plan.data.traineeId)]
  }

  function Mark(b: bool): string { if b then "√" else "x" }

  /** The line logged once the plan is loaded. */
  function PlanLine(vo: PlanData): LogLine
  {
    Line(Info, "Loaded train plan: " + Str(vo.planName) + "(" + Str(vo.startDate) + " - " + Str(vo.endDate) + ")")
  }

  /** The line logged once the plan detail is loaded, with its two flags. */
  function DetailLine(isSignIn: bool, isSignOut: bool): LogLine
  {
    Line(Info, "Loaded train info: Sign in[" + Mark(isSignIn) + "] || Sign out[" + Mark(isSignOut) + "]")
  }

  /** The detail lookup alone: it is rejected, or it reports the flags. */
  function DetailStep(detail: Resp<PlanDetail>): Step
  {
    if Succeeded(detail) then Passed else Rejected("Failed to load train info", detail.code)
  }

  function DetailLog(detail: Resp<PlanDetail>): seq<LogLine>
  {
    if Succeeded(detail) then [DetailLine(Truthy(detail.data.inTime), Truthy(detail.data.outTime))]
    else StepLog(DetailStep(detail))
  }

  /** What `load_info` logs. */
  function LoadLog(openId: string, account: Resp<AccountData>, plan: Resp<PlanData>, detail: Resp<PlanDetail>): seq<LogLine>
  {
    if !Succeeded(account) then StepLog(LoadStep(openId, account, plan, detail))
    else
      [Line(Info, "Login ok")] +
      if !Succeeded(plan) then StepLog(LoadStep(openId, account, plan, detail))
      else [PlanLine(plan.data)] + DetailLog(detail)
  }

  class XybAccount {
    const openId: string
    const unionId: string
    const location: Location
    var sessionId: Scalar
    var loginerId: Scalar
    var userName: Scalar
    var phone: Scalar
    var trainId: Scalar
    var signLat: real
    var signLng: real
    var isSignIn: bool
    var isSignOut: bool
    /** The requests made, in order. */
    ghost var requests: seq<Request>
    /** What the account's logger wrote, in order. */
    ghost var logged: seq<LogLine>

    /** The field initialisation of `XybAccount.__init__`; the login and the
        loading that follow it are `NewAccount`. */
    constructor (openId: string, unionId: string, location: Location)
      ensures this.openId == openId && this.unionId == unionId && this.location == location
      ensures && sessionId == SStr("") && loginerId == SStr("") && userName == SStr("")
              && phone == SStr("") && trainId == SStr("")
      ensures signLat == 0.0 && signLng == 0.0 && !isSignIn && !isSignOut
      ensures requests == [] && logged == []
    {
      this.openId := openId;
      this.unionId := unionId;
      this.location := location;
      sessionId := SStr("");
      loginerId := SStr("");
      userName := SStr("");
      phone := SStr("");
      trainId := SStr("");
      signLat := 0.0;
      signLng := 0.0;
      isSignIn := false;
      isSignOut := false;
      requests := [];
      logged := [];
    }

    /** `_request_error`: log the message as an error and the response for
        debugging, then raise RuntimeError with the message. */
    method RequestError(msg: string, code: Scalar) returns (o: Outcome)
      modifies this`logged
      ensures logged == old(logged) + [Line(Error, msg), Dump(code)]
      ensures o == Raised(RuntimeError(msg))
    {
      logged := logged + [Line(Error, msg), Dump(code)];
      o := Raised(RuntimeError(msg));
    }

    /** `login`: post the openid and unionid; on "200" take the loginer id,
        session id and phone from the answer, otherwise raise and keep them. */
    method Login(resp: Resp<LoginData>) returns (o: Outcome)
      modifies this`loginerId, this`sessionId, this`phone, this`requests, this`logged
      ensures requests == old(requests) + [LoginPost(openId, unionId)]
      ensures Succeeded(resp) ==>
                && o == Done
                && loginerId == resp.data.loginerId && sessionId == resp.data.sessionId
                && phone == resp.data.phone
                && logged == old(logged) + [Line(Info, "Login susses: " + Str(resp.data.loginerId))]
      ensures !Succeeded(resp) ==>
                && o == Raised(RuntimeError("Login failed: " + openId))
                && loginerId == old(loginerId) && sessionId == old(sessionId) && phone == old(phone)
                && logged == old(logged) + [Line(Error, "Login failed: " + openId), Dump(resp.code)]
    {
      requests := requests + [LoginPost(openId, unionId)];
      if Succeeded(resp) {
        loginerId := resp.data.loginerId;
        sessionId := resp.data.sessionId;
        phone := resp.data.phone;
        logged := logged + [Line(Info, "Login susses: " + Str(loginerId))];
        o := Done;
      } else {
        o := RequestError("Login failed: " + openId, resp.code);
      }
    }

    /** `load_info`: the account lookup sets the user name, the plan lookup
        the trainee id and the detail lookup, posted with that trainee id,
        the coordinates and the two flags; a rejected lookup raises and the
        later ones are not made. */
    method LoadInfo(account: Resp<AccountData>, plan: Resp<PlanData>, detail: Resp<PlanDetail>) returns (o: Outcome)
      modifies this`userName, this`trainId, this`signLat, this`signLng, this`isSignIn, this`isSignOut
      modifies this`requests, this`logged
      ensures o == StepOutcome(LoadStep(openId, account, plan, detail))
      ensures requests == old(requests) + LoadRequests(account, plan)
      ensures logged == old(logged) + LoadLog(openId, account, plan, detail)
      ensures userName == if Succeeded(account) then account.data.loginer else old(userName)
      ensures trainId == if Succeeded(account) && Succeeded(plan) then plan.data.traineeId else old(trainId)
      ensures if o == Done
              then && signLat == detail.data.lat && signLng == detail.data.lng
                   && isSignIn == Truthy(detail.data.inTime) && isSignOut == Truthy(detail.data.outTime)
              else && signLat == old(signLat) && signLng == old(signLng)
                   && isSignIn == old(isSignIn) && isSignOut == old(isSignOut)
    {
      ghost var log0 := logged;
      requests := requests + [AccountGet];
      if !Succeeded(account) {
        o := RequestError("Get account info error: " + openId, account.code);
        return;
      }
      userName := account.data.loginer;
      logged := logged + [Line(Info, "Login ok")];

      requests := requests + [PlanGet];
      if !Succeeded(plan) {
        o := RequestError("Failed to load train", plan.code);
        return;
      }
      trainId := plan.data.traineeId;
      logged := logged + [PlanLine(plan.data)];
      assert logged == log0 + [Line(Info, "Login ok"), PlanLine(plan.data)];
      o := LoadDetail(detail);
    }

    /** The last lookup of `load_info`: the plan detail, posted with the
        trainee id, gives the coordinates and the two flags. */
    method LoadDetail(detail: Resp<PlanDetail>) returns (o: Outcome)
      modifies this`signLat, this`signLng, this`isSignIn, this`isSignOut, this`requests, this`logged
      ensures o == StepOutcome(DetailStep(detail))
      ensures requests == old(requests) + [PlanDetailPost(trainId)]
      ensures logged == old(logged) + DetailLog(detail)
      ensures if o == Done
              then && signLat == detail.data.lat && signLng == detail.data.lng
                   && isSignIn == Truthy(detail.data.inTime) && isSignOut == Truthy(detail.data.outTime)
              else && signLat == old(signLat) && signLng == old(signLng)
                   && isSignIn == old(isSignIn) && isSignOut == old(isSignOut)
    {
      requests := requests + [PlanDetailPost(trainId)];
      if !Succeeded(detail) {
        o := RequestError("Failed to load train info", detail.code);
        return;
      }
      signLat := detail.data.lat;
      signLng := detail.data.lng;
      isSignIn := Truthy(detail.data.inTime);
      isSignOut := Truthy(detail.data.outTime);
      logged := logged + [DetailLine(isSignIn, isSignOut)];
      o := Done;
    }

    /** The behaviour report built from the account. */
    function BehaviorOf(e: SignExchange): Behavior
      requires "province" in location && "country" in location && "city" in location
      reads this
    {
      Behavior(e.now, e.ip.data, openId, userName, loginerId, location["province"], location["country"], location["city"])
    }

    /** The record `_prepare_sign(status)` builds. */
    function PayloadOf(status: int): (p: SignPayload)
      requires "adcode" in location && "address" in location
      reads this
      ensures && p.clockStatus == status && p.traineeId == trainId
              && p.lat == signLat && p.lng == signLng
              && p.adcode == location["adcode"] && p.address == location["address"]
              && p.punchInStatus == 1 && p.imgUrl == "" && p.reason == "" && p.deviceName == "microsoft"
    {
      SignPayload(trainId, location["adcode"], signLat, signLng, location["address"], "microsoft", 1, status, "", "")
    }

    /** The requests of `_prepare_sign`, as far as it gets: the IP lookup,
        then the behaviour report when the IP and the location keys it reads
        are there. */
    function PrepareRequests(e: SignExchange): (rs: seq<Request>)
      reads this
      ensures Submissions(rs) == []
    {
      if !Succeeded(e.ip) || "province" !in location || "country" !in location || "city" !in location then [IpGet]
      else
        assert [IpGet, BehaviorPost(BehaviorOf(e))][..1] == [IpGet];
        [IpGet, BehaviorPost(BehaviorOf(e))]
    }

    /** The requests of one submission attempt: the preparation, then the
        clock record when the preparation passed. */
    function AttemptRequests(e: SignExchange, p: Primitive, status: int): seq<Request>
      reads this
    {
      PrepareRequests(e) + if PrepareStep(location, e) == Passed then [ClockPost(p, PayloadOf(status))] else []
    }

    /** An attempt submits exactly one record, with the given primitive and
        status, when its preparation passes, and none otherwise. */
    lemma AttemptSubmissions(e: SignExchange, p: Primitive, status: int)
      ensures Submissions(AttemptRequests(e, p, status))
           == if PrepareStep(location, e) == Passed then [Submission(p, status)] else []
    {
      var tail := if PrepareStep(location, e) == Passed then [ClockPost(p, PayloadOf(status))] else [];
      SubmissionsAppend(PrepareRequests(e), tail);
      if tail != [] {
        assert tail[..0] == [];
      }
    }

    /** `sign_behavior`: look up the IP, then post the behaviour report. */
    method SignBehavior(e: SignExchange) returns (o: Outcome)
      modifies this`requests, this`logged
      ensures o == StepOutcome(BehaviorStep(location, e))
      ensures requests == old(requests) + PrepareRequests(e)
      ensures logged == old(logged) + StepLog(BehaviorStep(location, e))
    {
      requests := requests + [IpGet];
      if !Succeeded(e.ip) {
        o := RequestError("Failed to get IP", e.ip.code);
        return;
      }
      var ip := e.ip.data;
      if "province" !in location {
        return Raised(KeyError("province"));
      }
      if "country" !in location {
        return Raised(KeyError("country"));
      }
      if "city" !in location {
        return Raised(KeyError("city"));
      }
      var report := Behavior(e.now, ip, openId, userName, loginerId, location["province"], location["country"], location["city"]);
      requests := requests + [BehaviorPost(report)];
      if !Succeeded(e.behavior) {
        o := RequestError("Failed to send behavior", e.behavior.code);
        return;
      }
      o := Done;
    }

    /** `_prepare_sign(status)`: the behaviour report, then the record, with
        the status as given (it is not checked). */
    method PrepareSign(status: int, e: SignExchange) returns (r: Result<SignPayload>)
      modifies this`requests, this`logged
      ensures r.Ok? <==> PrepareStep(location, e) == Passed
      ensures r.Err? ==> Raised(r.error) == StepOutcome(PrepareStep(location, e))
      ensures r.Ok? ==>
                && r.value.clockStatus == status && r.value.traineeId == trainId
                && r.value.lat == signLat && r.value.lng == signLng
                && r.value.adcode == location["adcode"] && r.value.address == location["address"]
                && r.value.punchInStatus == 1 && r.value.imgUrl == "" && r.value.reason == ""
                && r.value.deviceName == "microsoft"
      ensures requests == old(requests) + PrepareRequests(e)
      ensures logged == old(logged) + StepLog(PrepareStep(location, e))
    {
      var o := SignBehavior(e);
      if o.Raised? {
        return Err(o.error);
      }
      if "adcode" !in location {
        return Err(KeyError("adcode"));
      }
      if "address" !in location {
        return Err(KeyError("address"));
      }
      r := Ok(SignPayload(trainId, location["adcode"], signLat, signLng, location["address"],
                          "microsoft", 1, status, "", ""));
    }

    /** `auto_sign`, `new_sign` and `update_sign`: prepare the record, post it
        with the primitive's URL, and raise when the answer is not "200". */
    method Submit(p: Primitive, status: int, e: SignExchange) returns (o: Outcome)
      modifies this`requests, this`logged
      ensures o == StepOutcome(SubmitStep(location, e, p))
      ensures requests == old(requests) + AttemptRequests(e, p, status)
      ensures logged == old(logged) + StepLog(SubmitStep(location, e, p))
    {
      var r := PrepareSign(status, e);
      if r.Err? {
        return Raised(r.error);
      }
      assert r.value == PayloadOf(status);
      o := PostClock(p, r.value, e);
    }

    /** The post of a prepared record to the primitive's URL, rejected when
        the answer is not "200". */
    method PostClock(p: Primitive, payload: SignPayload, e: SignExchange) returns (o: Outcome)
      modifies this`requests, this`logged
      ensures requests == old(requests) + [ClockPost(p, payload)]
      ensures Succeeded(e.clock) ==> o == Done && logged == old(logged)
      ensures !Succeeded(e.clock) ==>
                && o == Raised(RuntimeError(ClockFailure(p)))
                && logged == old(logged) + [Line(Error, ClockFailure(p)), Dump(e.clock.code)]
    {
      requests := requests + [ClockPost(p, payload)];
      if !Succeeded(e.clock) {
        o := RequestError(ClockFailure(p), e.clock.code);
      } else {
        o := Done;
      }
    }

    /** What carrying out decision `d` did: a skip logs its message and
        makes no request; a submission makes one attempt and, when it
        succeeds, logs the success message. */
    twostate predicate Performed(d: Decision, e: SignExchange, o: Outcome)
      reads this
    {
      if d.Skip? then
        && o == Done
        && requests == old(requests)
        && logged == old(logged) + [Line(d.level, d.message)]
      else
        var s := SubmitStep(location, e, d.primitive);
        && o == StepOutcome(s)
        && requests == old(requests) + AttemptRequests(e, d.primitive, d.status)
        && logged == old(logged) + StepLog(s) + (if s == Passed then [Line(Info, d.success)] else [])
    }

    method Perform(d: Decision, e: SignExchange) returns (o: Outcome)
      modifies this`requests, this`logged
      ensures Performed(d, e, o)
    {
      if d.Skip? {
        logged := logged + [Line(d.level, d.message)];
        return Done;
      }
      o := Submit(d.primitive, d.status, e);
      if o == Done {
        logged := logged + [Line(Info, d.success)];
      }
    }

    /** `sign_in(overwrite)`: decided by the flags loaded earlier, which it
        does not change; it submits at most once, with status 2. */
    method SignIn(overwrite: bool, e: SignExchange) returns (o: Outcome)
      modifies this`requests, this`logged
      ensures Performed(SignInDecision(isSignIn, isSignOut, overwrite), e, o)
      ensures var d := SignInDecision(isSignIn, isSignOut, overwrite);
              Submissions(requests) == Submissions(old(requests)) +
                if d.Submit? && PrepareStep(location, e) == Passed then [Submission(d.primitive, 2)] else []
      ensures isSignIn == old(isSignIn) && isSignOut == old(isSignOut)
    {
      var d := SignInDecision(isSignIn, isSignOut, overwrite);
      ghost var before := requests;
      o := Perform(d, e);
      if d.Submit? {
        SubmissionsAppend(before, AttemptRequests(e, d.primitive, d.status));
        AttemptSubmissions(e, d.primitive, d.status);
      }
    }

    /** `sign_out(overwrite)`: decided by the flags loaded earlier, which it
        does not change; it submits at most once, with status 1. */
    method SignOut(overwrite: bool, e: SignExchange) returns (o: Outcome)
      modifies this`requests, this`logged
      ensures Performed(SignOutDecision(isSignIn, isSignOut, overwrite), e, o)
      ensures var d := SignOutDecision(isSignIn, isSignOut, overwrite);
              Submissions(requests) == Submissions(old(requests)) +
                if d.Submit? && PrepareStep(location, e) == Passed then [Submission(d.primitive, 1)] else []
      ensures isSignIn == old(isSignIn) && isSignOut == old(isSignOut)
    {
      var d := SignOutDecision(isSignIn, isSignOut, overwrite);
      ghost var before := requests;
      o := Perform(d, e);
      if d.Submit? {
        SubmissionsAppend(before, AttemptRequests(e, d.primitive, d.status));
        AttemptSubmissions(e, d.primitive, d.status);
      }
    }
  }

  // ---------------------------------------------------------------------
  // The registry

  /** One entry of the accounts file: the keyword arguments of `XybAccount`. */
  datatype AccountConfig = AccountConfig(openid: string, unionid: string, location: Location)

  /** What the server answers while an account is built: the login, then the
      three lookups of `load_info`. */
  datatype StartExchange = StartExchange(login: Resp<LoginData>, account: Resp<AccountData>,
                                         plan: Resp<PlanData>, detail: Resp<PlanDetail>)

  /** How building an account ends: the login, then `load_info`. */
  function StartStep(openid: string, e: StartExchange): (s: Step)
    ensures s == Passed <==> Succeeded(e.login) && Succeeded(e.account) && Succeeded(e.plan) && Succeeded(e.detail)
    ensures !s.MissingKey?
  {
    if !Succeeded(e.login) then Rejected("Login failed: " + openid, e.login.code)
    else LoadStep(openid, e.account, e.plan, e.detail)
  }

  /** `XybAccount(openid, unionid, location)`: the fields start empty, then
      `login` and `load_info` run; the first rejected request raises out of
      the construction. */
  method NewAccount(c: AccountConfig, e: StartExchange) returns (r: Result<XybAccount>)
    ensures r.Ok? <==> StartStep(c.openid, e) == Passed
    ensures r.Err? ==> Raised(r.error) == StepOutcome(StartStep(c.openid, e))
    ensures r.Ok? ==>
              && fresh(r.value) && Started(r.value, c, e)
              && r.value.requests == [LoginPost(c.openid, c.unionid)] + LoadRequests(e.account, e.plan)
  {
    var a := new XybAccount(c.openid, c.unionid, c.location);
    var o := a.Login(e.login);
    if o.Raised? {
      return Err(o.error);
    }
    o := a.LoadInfo(e.account, e.plan, e.detail);
    if o.Raised? {
      return Err(o.error);
    }
    r := Ok(a);
  }

  /** The dictionary the accounts file yields: keyed by openid, and a later
      entry with the same openid replaces the earlier one. */
  function Registry(configs: seq<AccountConfig>): (m: map<string, AccountConfig>)
    ensures forall k :: k in m ==> m[k].openid == k
  {
    if configs == [] then map[]
    else
      var last := configs[|configs| - 1];
      Registry(configs[..|configs| - 1])[last.openid := last]
  }

  predicate HasOpenid(configs: seq<AccountConfig>, k: string)
  {
    exists i :: 0 <= i < |configs| && configs[i].openid == k
  }

  /** The keys of the dictionary are exactly the openids of the file. */
  lemma {:induction false} RegistryKeys(configs: seq<AccountConfig>, k: string)
    ensures k in Registry(configs) <==> HasOpenid(configs, k)
  {
    if configs != [] {
      var init := configs[..|configs| - 1];
      RegistryKeys(init, k);
      if HasOpenid(init, k) {
        var i :| 0 <= i < |init| && init[i].openid == k;
        assert configs[i].openid == k;
      }
      if HasOpenid(configs, k) && configs[|configs| - 1].openid != k {
        var i :| 0 <= i < |configs| && configs[i].openid == k;
        assert init[i].openid == k;
      }
    }
  }

  /** Each openid maps to the last entry that has it. */
  lemma {:induction false} RegistryLast(configs: seq<AccountConfig>, i: int)
    requires 0 <= i < |configs|
    requires forall j :: i < j < |configs| ==> configs[j].openid != configs[i].openid
    ensures configs[i].openid in Registry(configs) && Registry(configs)[configs[i].openid] == configs[i]
  {
    if i < |configs| - 1 {
      var init := configs[..|configs| - 1];
      RegistryLast(init, i);
    }
  }

  /** The order of the dictionary's keys: an openid takes its place when it
      first appears, and replacing its value does not move it. */
  function KeyOrder(configs: seq<AccountConfig>): (order: seq<string>)
    ensures forall i, j :: 0 <= i < j < |order| ==> order[i] != order[j]
    ensures forall k :: k in order <==> k in Registry(configs)
  {
    if configs == [] then []
    else
      var o := KeyOrder(configs[..|configs| - 1]);
      var k := configs[|configs| - 1].openid;
      if k in o then o else o + [k]
  }

  function Openids(configs: seq<AccountConfig>): seq<string>
  {
    seq(|configs|, i requires 0 <= i < |configs| => configs[i].openid)
  }

  /** With distinct openids nothing is replaced: the keys come in file order. */
  lemma {:induction false} DistinctKeyOrder(configs: seq<AccountConfig>)
    requires forall i, j :: 0 <= i < j < |configs| ==> configs[i].openid != configs[j].openid
    ensures KeyOrder(configs) == Openids(configs)
  {
    if configs != [] {
      var init := configs[..|configs| - 1];
      var k := configs[|configs| - 1].openid;
      assert forall i :: 0 <= i < |init| ==> init[i] == configs[i];
      DistinctKeyOrder(init);
      forall i | 0 <= i < |init|
        ensures Openids(init)[i] != k
      {
        assert configs[i].openid != configs[|configs| - 1].openid;
      }
      assert Openids(configs) == Openids(init) + [k];
    }
  }

  /** ... and each openid maps to its own entry. */
  lemma DistinctRegistry(configs: seq<AccountConfig>)
    requires forall i, j :: 0 <= i < j < |configs| ==> configs[i].openid != configs[j].openid
    ensures forall i :: 0 <= i < |configs| ==>
              configs[i].openid in Registry(configs) && Registry(configs)[configs[i].openid] == configs[i]
  {
    forall i | 0 <= i < |configs|
      ensures configs[i].openid in Registry(configs) && Registry(configs)[configs[i].openid] == configs[i]
    {
      RegistryLast(configs, i);
    }
  }

  /** The first account that fails to build, if any. */
  function FirstFailure(configs: seq<AccountConfig>, exchanges: seq<StartExchange>): (s: Step)
    requires |exchanges| == |configs|
  {
    if configs == [] then Passed
    else
      var s := StartStep(configs[0].openid, exchanges[0]);
      if s != Passed then s
      else FirstFailure(configs[1..], exchanges[1..])
  }

  /** The load passes exactly when every entry builds its account. */
  lemma {:induction false} FirstFailurePasses(configs: seq<AccountConfig>, exchanges: seq<StartExchange>)
    requires |exchanges| == |configs|
    ensures FirstFailure(configs, exchanges) == Passed
        <==> forall i :: 0 <= i < |configs| ==> StartStep(configs[i].openid, exchanges[i]) == Passed
  {
    if configs != [] {
      FirstFailurePasses(configs[1..], exchanges[1..]);
      assert forall i :: 1 <= i < |configs| ==> configs[1..][i - 1] == configs[i] && exchanges[1..][i - 1] == exchanges[i];
    }
  }

  /** The first failure from entry `i` on: entry `i`'s own, or a later one. */
  lemma FirstFailureFrom(configs: seq<AccountConfig>, exchanges: seq<StartExchange>, i: int)
    requires |exchanges| == |configs| && 0 <= i < |configs|
    ensures FirstFailure(configs[i..], exchanges[i..])
         == if StartStep(configs[i].openid, exchanges[i]) != Passed then StartStep(configs[i].openid, exchanges[i])
            else FirstFailure(configs[i + 1..], exchanges[i + 1..])
  {
    assert configs[i..][1..] == configs[i + 1..] && exchanges[i..][1..] == exchanges[i + 1..];
  }

  /** An account built from the entry. */
  predicate Configured(a: XybAccount, c: AccountConfig)
  {
    a.openId == c.openid && a.unionId == c.unionid && a.location == c.location
  }

  /** The state an account is in once it was built from entry `c` while the
      server answered `e`: its session, its plan, the coordinates of the plan
      and the two flags of today's record. */
  predicate Started(a: XybAccount, c: AccountConfig, e: StartExchange)
    reads a
  {
    && Configured(a, c)
    && a.loginerId == e.login.data.loginerId && a.sessionId == e.login.data.sessionId
    && a.phone == e.login.data.phone && a.userName == e.account.data.loginer
    && a.trainId == e.plan.data.traineeId
    && a.signLat == e.detail.data.lat && a.signLng == e.detail.data.lng
    && a.isSignIn == Truthy(e.detail.data.inTime) && a.isSignOut == Truthy(e.detail.data.outTime)
  }

  /** What the server answered for the entry each openid keeps: the last one
      with that openid. */
  function Exchanges(configs: seq<AccountConfig>, exchanges: seq<StartExchange>): (m: map<string, StartExchange>)
    requires |exchanges| == |configs|
    ensures m.Keys == Registry(configs).Keys
  {
    if configs == [] then map[]
    else
      var n := |configs| - 1;
      Exchanges(configs[..n], exchanges[..n])[configs[n].openid := exchanges[n]]
  }

  /** Each openid keeps the answers to the last entry that has it. */
  lemma {:induction false} ExchangesLast(configs: seq<AccountConfig>, exchanges: seq<StartExchange>, i: int)
    requires |exchanges| == |configs| && 0 <= i < |configs|
    requires forall j :: i < j < |configs| ==> configs[j].openid != configs[i].openid
    ensures configs[i].openid in Exchanges(configs, exchanges)
         && Exchanges(configs, exchanges)[configs[i].openid] == exchanges[i]
  {
    if i < |configs| - 1 {
      var n := |configs| - 1;
      ExchangesLast(configs[..n], exchanges[..n], i);
    }
  }

  /** Every account is built from the entry under the same key, with the
      answers to that entry. */
  predicate AllStarted(accounts: map<string, XybAccount>, entries: map<string, AccountConfig>,
                       answers: map<string, StartExchange>)
    reads accounts.Values
  {
    forall k :: k in accounts ==> k in entries && k in answers && Started(accounts[k], entries[k], answers[k])
  }

  /** Storing an account built from an entry keeps every account matched. */
  lemma StartedPut(accounts: map<string, XybAccount>, entries: map<string, AccountConfig>,
                   answers: map<string, StartExchange>, a: XybAccount, c: AccountConfig, e: StartExchange)
    requires AllStarted(accounts, entries, answers) && Started(a, c, e)
    ensures AllStarted(accounts[c.openid := a], entries[c.openid := c], answers[c.openid := e])
  {
    var m := accounts[c.openid := a];
    forall k | k in m
      ensures k in entries[c.openid := c] && k in answers[c.openid := e]
      ensures Started(m[k], entries[c.openid := c][k], answers[c.openid := e][k])
    {
      if k != c.openid {
        assert m[k] == accounts[k];
      }
    }
  }

  /** The dictionary and its key order after the entries `prefix`, answered by
      `answers`. */
  predicate Loaded(accounts: map<string, XybAccount>, order: seq<string>,
                   prefix: seq<AccountConfig>, answers: seq<StartExchange>)
    requires |answers| == |prefix|
    reads accounts.Values
  {
    && order == KeyOrder(prefix)
    && accounts.Keys == Registry(prefix).Keys
    && AllStarted(accounts, Registry(prefix), Exchanges(prefix, answers))
  }

  /** Storing the account built from the next entry loads one entry more:
      the keys gain its openid, a new openid goes last in the order, and
      every account matches the entry and the answers its key now keeps. */
  lemma LoadedStep(accounts: map<string, XybAccount>, order: seq<string>, configs: seq<AccountConfig>,
                   exchanges: seq<StartExchange>, i: int, keys: set<string>, keyOrder: seq<string>)
    requires |exchanges| == |configs| && 0 <= i < |configs|
    requires keys == Registry(configs[..i]).Keys && keyOrder == KeyOrder(configs[..i])
    requires accounts.Keys == keys + {configs[i].openid}
    requires order == if configs[i].openid in keys then keyOrder else keyOrder + [configs[i].openid]
    requires AllStarted(accounts, Registry(configs[..i])[configs[i].openid := configs[i]],
                        Exchanges(configs[..i], exchanges[..i])[configs[i].openid := exchanges[i]])
    ensures Loaded(accounts, order, configs[..i + 1], exchanges[..i + 1])
  {
    PrefixStep(configs, exchanges, i);
  }

  class XybSign {
    var accounts: map<string, XybAccount>
    /** The order of the keys of `accounts`. */
    var order: seq<string>
    ghost var logged: seq<LogLine>

    ghost predicate Valid()
      reads this`accounts, this`order
    {
      && (forall i, j :: 0 <= i < j < |order| ==> order[i] != order[j])
      && (forall k :: k in order <==> k in accounts)
    }

    constructor ()
      ensures Valid() && accounts == map[] && order == [] && logged == []
    {
      accounts := map[];
      order := [];
      logged := [];
    }

    /** `self.accounts[openid] = account`: a new key goes last, a known key
        keeps its place and gets the new account. */
    method Put(openid: string, a: XybAccount)
      requires Valid()
      modifies this`accounts, this`order
      ensures Valid()
      ensures accounts == old(accounts)[openid := a]
      ensures order == if openid in old(accounts) then old(order) else old(order) + [openid]
    {
      if openid !in accounts {
        order := order + [openid];
      }
      accounts := accounts[openid := a];
    }

    /** `self.accounts[acc["openid"]] = XybAccount(**acc)`: build the account
        from the entry and store it under its openid; an account that fails
        to build raises and nothing is stored. */
    method Add(c: AccountConfig, e: StartExchange) returns (o: Outcome)
      requires Valid()
      modifies this`accounts, this`order
      ensures Valid()
      ensures o == StepOutcome(StartStep(c.openid, e))
      ensures o != Done ==> accounts == old(accounts) && order == old(order)
      ensures o == Done ==>
                && c.openid in accounts && fresh(accounts[c.openid]) && Started(accounts[c.openid], c, e)
                && accounts == old(accounts)[c.openid := accounts[c.openid]]
                && order == if c.openid in old(accounts) then old(order) else old(order) + [c.openid]
    {
      var built := NewAccount(c, e);
      if built.Err? {
        return Raised(built.error);
      }
      Put(c.openid, built.value);
      o := Done;
    }

    /** One turn of the loop of `__init__`: the account built from `c` is
        stored, and every stored account still matches the entry and the
        answers kept under its key. */
    method AddEntry(c: AccountConfig, e: StartExchange,
                    ghost entries: map<string, AccountConfig>, ghost answers: map<string, StartExchange>)
      returns (o: Outcome)
      requires Valid() && AllStarted(accounts, entries, answers)
      modifies this`accounts, this`order
      ensures o == StepOutcome(StartStep(c.openid, e))
      ensures o == Done ==>
                && Valid() && AllStarted(accounts, entries[c.openid := c], answers[c.openid := e])
                && accounts.Keys == old(accounts).Keys + {c.openid}
                && order == if c.openid in old(accounts) then old(order) else old(order) + [c.openid]
    {
      ghost var before := accounts;
      o := Add(c, e);
      if o == Done {
        StartedPut(before, entries, answers, accounts[c.openid], c, e);
      }
    }

    /** The loop of `__init__`: every entry, in file order, is built and
        stored; the first one that fails to build stops the loop. */
    method AddAll(configs: seq<AccountConfig>, exchanges: seq<StartExchange>) returns (o: Outcome)
      requires |exchanges| == |configs|
      requires Valid() && accounts == map[] && order == []
      modifies this`accounts, this`order
      ensures o == StepOutcome(FirstFailure(configs, exchanges))
      ensures o == Done ==> Valid() && Loaded(accounts, order, configs, exchanges)
    {
      for i := 0 to |configs|
        invariant Valid()
        invariant FirstFailure(configs, exchanges) == FirstFailure(configs[i..], exchanges[i..])
        invariant Loaded(accounts, order, configs[..i], exchanges[..i])
      {
        FirstFailureFrom(configs, exchanges, i);
        ghost var keys, keyOrder := accounts.Keys, order;
        o := AddEntry(configs[i], exchanges[i], Registry(configs[..i]), Exchanges(configs[..i], exchanges[..i]));
        if o.Raised? {
          return;
        }
        LoadedStep(accounts, order, configs, exchanges, i, keys, keyOrder);
      }
      assert configs[..|configs|] == configs && exchanges[..|exchanges|] == exchanges;
      o := Done;
    }

    /** The closing line of `__init__`: how many accounts were loaded. */
    method ReportLoaded()
      modifies this`logged
      ensures logged == old(logged) + [Line(Info, "Loaded " + IntToStr(|accounts|) + " account(s)")]
    {
      logged := logged + [Line(Info, "Loaded " + IntToStr(|accounts|) + " account(s)")];
    }

    /** `get_accounts`: the accounts in the order of their keys, each once. */
    method GetAccounts() returns (r: seq<XybAccount>)
      requires Valid()
      ensures |r| == |order|
      ensures forall i :: 0 <= i < |r| ==> r[i] == accounts[order[i]]
      ensures forall k :: k in accounts ==> accounts[k] in r
    {
      var keys, m := order, accounts;
      r := seq(|keys|, i requires 0 <= i < |keys| && keys[i] in m => m[keys[i]]);
      forall k | k in accounts
        ensures accounts[k] in r
      {
        var i :| 0 <= i < |order| && order[i] == k;
        assert r[i] == accounts[k];
      }
    }
  }

  /** One more entry of the file updates the dictionary, its key order and
      the answers each key keeps. */
  lemma PrefixStep(configs: seq<AccountConfig>, exchanges: seq<StartExchange>, i: int)
    requires |exchanges| == |configs| && 0 <= i < |configs|
    ensures Registry(configs[..i + 1]) == Registry(configs[..i])[configs[i].openid := configs[i]]
    ensures KeyOrder(configs[..i + 1])
         == if configs[i].openid in Registry(configs[..i]) then KeyOrder(configs[..i])
            else KeyOrder(configs[..i]) + [configs[i].openid]
    ensures Exchanges(configs[..i + 1], exchanges[..i + 1])
         == Exchanges(configs[..i], exchanges[..i])[configs[i].openid := exchanges[i]]
  {
    assert configs[..i + 1][..i] == configs[..i];
    assert exchanges[..i + 1][..i] == exchanges[..i];
  }

  /** `XybSign.__init__` after the file was read: every entry becomes an
      account stored under its openid, a later entry replacing an earlier
      one; the first account that fails to build aborts the whole load. */
  method LoadXybSign(configs: seq<AccountConfig>, exchanges: seq<StartExchange>) returns (r: Result<XybSign>)
    requires |exchanges| == |configs|
    ensures r.Ok? <==> FirstFailure(configs, exchanges) == Passed
    ensures r.Err? ==> Raised(r.error) == StepOutcome(FirstFailure(configs, exchanges))
    ensures r.Ok? ==>
              var s := r.value;
              && s.Valid()
              && Loaded(s.accounts, s.order, configs, exchanges)
              && s.logged == [Line(Info, "Loaded " + IntToStr(|s.accounts|) + " account(s)")]
  {
    var s := new XybSign();
    var o := s.AddAll(configs, exchanges);
    if o.Raised? {
      return Err(o.error);
    }
    s.ReportLoaded();
    r := Ok(s);
  }

}
