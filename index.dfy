/** index.py: the entry point of the cloud function.  The trigger's name
    chooses between signing every account in and signing every account out,
    always overwriting; any other event is refused. */
module Index {
  import opened Py

  /** The registry operation a trigger asks for. */
  datatype Action = SignInAll | SignOutAll

  /** The call the handler makes: the operation and its `overwrite` argument. */
  datatype Dispatch = Dispatch(action: Action, overwrite: bool)

  /** `sign_type`, in its order: "SignOut" first. */
  const SignType: seq<string> := ["SignOut", "SignIn"]

  const TriggerError := "触发器配置不正确，请参考配置说明"

  /** `names.index(x)`: the first position holding `x`. */
  function IndexOf(names: seq<string>, x: string): (i: nat)
    requires x in names
    ensures i < |names| && names[i] == x
    ensures forall j :: 0 <= j < i ==> names[j] != x
  {
    if names[0] == x then 0 else 1 + IndexOf(names[1..], x)
  }

  /** `event["TriggerName"] in sign_type`: only a string equal to one of the
      names is in the tuple. */
  predicate InSignType(v: PyValue)
  {
    IsStr(v) && v.a.s in SignType
  }

  /** `main_handler(event, context)` up to the call it makes on the
      registry: the position of the name in `sign_type` is used as a truth
      value, so "SignIn" (position 1) signs in and "SignOut" (position 0)
      signs out, both with `overwrite` set; a missing or unknown trigger name
      raises RuntimeError before any account is loaded. */
  function MainHandler(event: map<string, PyValue>): (r: Result<Dispatch>)
    ensures r.Ok? <==>
              "TriggerName" in event
              && (event["TriggerName"] == Atom(SStr("SignIn")) || event["TriggerName"] == Atom(SStr("SignOut")))
    ensures r.Err? ==> r.error == RuntimeError(TriggerError)
    ensures r.Ok? ==> r.value.overwrite
    ensures r.Ok? ==> (r.value.action == SignInAll <==> event["TriggerName"] == Atom(SStr("SignIn")))
  {
    if "TriggerName" in event && InSignType(event["TriggerName"]) then
      var position := IndexOf(SignType, event["TriggerName"].a.s);
      if Truthy(Atom(SInt(position))) then Ok(Dispatch(SignInAll, true)) else Ok(Dispatch(SignOutAll, true))
    else Err(RuntimeError(TriggerError))
  }

  /** The methods `XybSign` defines in xyb.py. */
  const XybSignMethods: set<string> := {"get_accounts"}

  function MethodName(a: Action): string
  {
    match a
    case SignInAll => "sign_in_all"
    case SignOutAll => "sign_out_all"
  }

  /** `main_handler` as written against xyb.py: after the dispatch decision
      the registry is built (`load` is how that ends) and the chosen method
      is looked up on it, which fails because `XybSign` has no such method. */
  function MainHandlerAsWritten(event: map<string, PyValue>, load: Outcome): (o: Outcome)
  {
    match MainHandler(event)
    case Err(e) => Raised(e)
    case Ok(d) =>
      if load.Raised? then load
      else if MethodName(d.action) in XybSignMethods then Done
      else Raised(AttributeError(MethodName(d.action)))
  }

  /** Whatever the event and however loading ends, the handler as written
      raises: a valid trigger that loads every account ends in an
      AttributeError and no account is signed. */
  lemma HandlerAlwaysRaises(event: map<string, PyValue>, load: Outcome)
    ensures MainHandlerAsWritten(event, load).Raised?
    ensures MainHandler(event).Ok? && load == Done ==>
              MainHandlerAsWritten(event, load) == Raised(AttributeError(MethodName(MainHandler(event).value.action)))
  {
    if MainHandler(event).Ok? && load == Done {
      var name := MethodName(MainHandler(event).value.action);
      assert name != "get_accounts";
    }
  }

  /** The trigger of the sign-in timer, concretely. */
  lemma SignInTriggerRaises()
    ensures MainHandlerAsWritten(map["TriggerName" := Atom(SStr("SignIn"))], Done)
         == Raised(AttributeError("sign_in_all"))
  {
    HandlerAlwaysRaises(map["TriggerName" := Atom(SStr("SignIn"))], Done);
  }
}
