/**
 * The pure part of CDVBMSClient: which action names `execute` handles, and
 * how each handler reads its JSON arguments before acting.
 */
module ClientActions {
  import opened Wrappers
  import opened JsonValues
  import opened Cordova

  /** The seven actions `execute` dispatches on. */
  datatype Action =
    | Initialize
    | RegisterAuthenticationListener
    | UnregisterAuthenticationListener
    | AddCallbackReceiver
    | SubmitAuthenticationChallengeAnswer
    | SubmitAuthenticationSuccess
    | SubmitAuthenticationFailure

  /** The action name JavaScript uses for each action. */
  function ActionName(a: Action): string
  {
    match a
    case Initialize => "initialize"
    case RegisterAuthenticationListener => "registerAuthenticationListener"
    case UnregisterAuthenticationListener => "unregisterAuthenticationListener"
    case AddCallbackReceiver => "addCallbackReceiver"
    case SubmitAuthenticationChallengeAnswer => "submitAuthenticationChallengeAnswer"
    case SubmitAuthenticationSuccess => "submitAuthenticationSuccess"
    case SubmitAuthenticationFailure => "submitAuthenticationFailure"
  }

  /**
   * The if/else chain of `execute`: the action a name selects, if any.
   * Exactly the seven names select an action, and each selects the one it names.
   */
  function ActionOf(name: string): (r: Option<Action>)
    ensures r.Some? ==> ActionName(r.value) == name
    ensures r.Some? <==> exists a :: ActionName(a) == name
  {
    if name == "initialize" then Some(Initialize)
    else if name == "registerAuthenticationListener" then Some(RegisterAuthenticationListener)
    else if name == "unregisterAuthenticationListener" then Some(UnregisterAuthenticationListener)
    else if name == "addCallbackReceiver" then Some(AddCallbackReceiver)
    else if name == "submitAuthenticationChallengeAnswer" then Some(SubmitAuthenticationChallengeAnswer)
    else if name == "submitAuthenticationSuccess" then Some(SubmitAuthenticationSuccess)
    else if name == "submitAuthenticationFailure" then Some(SubmitAuthenticationFailure)
    else None
  }

  /** Dispatch is the inverse of naming: every action is reached by its own name and by no other. */
  lemma ActionOfName(a: Action, name: string)
    ensures ActionOf(ActionName(a)) == Some(a)
    ensures ActionOf(name) == Some(a) <==> name == ActionName(a)
  {
  }

  const ErrorEmptyArg: string := "Expected non-empty string argument."

  /**
   * How register/unregister/addCallbackReceiver read their realm: argument 0
   * must be a string (else the JSONException's message goes back) and must
   * not be empty (else `errorEmptyArg` goes back).
   */
  function RealmArg(args: seq<Json>): (r: Result<string, Message>)
    ensures r.Success? <==> |args| > 0 && args[0].JStr? && args[0].s != ""
    ensures r.Success? ==> args[0] == JStr(r.value)
    ensures r == Failure(Text(ErrorEmptyArg)) <==> |args| > 0 && args[0] == JStr("")
    ensures r == Failure(ExceptionMessage) <==> GetString(args, 0).None?
  {
    match GetString(args, 0)
    case None => Failure(ExceptionMessage)
    case Some(realm) => if |realm| > 0 then Success(realm) else Failure(Text(ErrorEmptyArg))
  }

  /** The two strings `initialize` reads; None where `getString` throws out of `execute`. */
  function InitializeArgs(args: seq<Json>): (r: Option<(string, string)>)
    ensures r.Some? <==> |args| >= 2 && args[0].JStr? && args[1].JStr?
    ensures r.Some? ==> args[0] == JStr(r.value.0) && args[1] == JStr(r.value.1)
  {
    match (GetString(args, 0), GetString(args, 1))
    case (Some(route), Some(guid)) => Some((route, guid))
    case _ => None
  }

  /** What the JavaScript side submits for a challenge; forwarded to the realm's challenge handler. */
  datatype Resolution = Answer(answer: Json) | Succeeded | Failed(info: Json)

  datatype Submission = Submission(realm: string, resolution: Resolution)

  /** Which of the three submit handlers runs. */
  datatype SubmitKind = AnswerKind | SuccessKind | FailureKind

  /**
   * How the submit handlers read their arguments. The answer and failure
   * handlers take an object at 0 and the realm at 1; the success handler takes
   * the realm at 0. The realm may be empty: no handler checks it.
   */
  function SubmissionOf(kind: SubmitKind, args: seq<Json>): (r: Option<Submission>)
    ensures kind == SuccessKind ==>
      (r.Some? <==> |args| >= 1 && args[0].JStr?) &&
      (r.Some? ==> r.value == Submission(args[0].s, Succeeded))
    ensures kind != SuccessKind ==>
      (r.Some? <==> |args| >= 2 && args[0].JObj? && args[1].JStr?) &&
      (r.Some? ==> r.value.realm == args[1].s &&
                   r.value.resolution == (if kind == AnswerKind then Answer(args[0]) else Failed(args[0])))
  {
    match kind
    case SuccessKind =>
      (match GetString(args, 0)
       case None => None
       case Some(realm) => Some(Submission(realm, Succeeded)))
    case _ =>
      (match (GetJSONObject(args, 0), GetString(args, 1))
       case (Some(obj), Some(realm)) =>
         Some(Submission(realm, if kind == AnswerKind then Answer(obj) else Failed(obj)))
       case _ => None)
  }

  /** The text each submit handler returns to its caller once its arguments parse. */
  function SubmitReply(kind: SubmitKind): string
  {
    match kind
    case AnswerKind => "submitAuthenticationChallengeAnswer called"
    case SuccessKind => "submitAuthenticationSuccess called"
    case FailureKind => "submitAuthenticationFailure called"
  }
}
