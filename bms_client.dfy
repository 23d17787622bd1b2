/**
 * CDVBMSClient, the Android side of the BMS client plugin: the
 * realm-to-callback map, the handlers `execute` dispatches to, and the
 * listener the authentication SDK calls for each realm.
 *
 * The SDK itself is not modelled; every call the plugin makes into it is
 * recorded, in order, in `sdkCalls`. `delivered` is a ghost log of every
 * result sent to a registered realm callback, so that the plugin's state
 * can be read as a RealmRegistry.State. `usedIds` is a ghost record of the
 * callback ids Cordova has handed to `execute` so far: it never hands out
 * the same id twice.
 */
module BMSClient {
  import opened Wrappers
  import opened JsonValues
  import opened Cordova
  import opened RealmRegistry
  import A = ClientActions

  /** The calls the plugin makes into the BMS SDK. */
  datatype SdkCall =
    | SdkInitialize(backendRoute: string, backendGUID: string)
    | SdkRegisterAuthenticationListener(realm: string, listener: InternalAuthenticationListener)
    | SdkUnregisterAuthenticationListener(realm: string)
    | SdkSubmit(submission: A.Submission)

  /** Whether a handler ran to its end, or stopped on a NullPointerException from a realm with no callback. */
  datatype Completion = Completed | NullPointer

  /** `execute` either returns whether it knew the action, or lets the JSONException of `initialize` escape. */
  datatype ExecOutcome = Returned(ans: bool) | ThrewJsonException

  class CDVBMSClient {
    var challengeHandlersMap: map<string, CallbackContext>
    var sdkCalls: seq<SdkCall>
    ghost var delivered: seq<Delivery>
    ghost var usedIds: set<CallbackId>

    /**
     * No two realms share a callback, and every registered callback came
     * from an earlier call: each Cordova call has its own callback id.
     */
    ghost predicate Valid()
      reads this`challengeHandlersMap, this`usedIds
    {
      && (forall r1, r2 | r1 in challengeHandlersMap && r2 in challengeHandlersMap && r1 != r2 ::
            challengeHandlersMap[r1].callbackId != challengeHandlersMap[r2].callbackId)
      && Handlers().Values <= usedIds
    }

    ghost function Handlers(): map<string, CallbackId>
      reads this`challengeHandlersMap
    {
      map r | r in challengeHandlersMap :: challengeHandlersMap[r].callbackId
    }

    /** The plugin's state as a registry state. */
    ghost function View(): State
      reads this`challengeHandlersMap, this`delivered
    {
      State(Handlers(), delivered)
    }

    /** Cordova hands every call a callback of its own, with an id no earlier call was given. */
    ghost predicate FreshCallback(callbackContext: CallbackContext)
      reads this`usedIds
    {
      callbackContext.callbackId !in usedIds
    }

    /** A fresh callback is none of the registered callback objects, and its id differs from each of theirs. */
    lemma FreshCallbackIsNew(callbackContext: CallbackContext)
      requires Valid() && FreshCallback(callbackContext)
      ensures callbackContext !in challengeHandlersMap.Values
      ensures forall r | r in challengeHandlersMap :: challengeHandlersMap[r].callbackId != callbackContext.callbackId
    {
      forall r | r in challengeHandlersMap
        ensures challengeHandlersMap[r].callbackId != callbackContext.callbackId
      {
        assert Handlers()[r] == challengeHandlersMap[r].callbackId;
      }
    }

    constructor ()
      ensures Valid() && challengeHandlersMap == map[] && sdkCalls == [] && delivered == [] && usedIds == {}
    {
      challengeHandlersMap := map[];
      sdkCalls := [];
      delivered := [];
      usedIds := {};
    }

    /** The results sent to the callbacks in `channels` are unchanged. */
    twostate predicate ChannelsUnchanged(channels: set<CallbackContext>)
      reads channels
    {
      forall ch | ch in channels :: ch.sent == old(ch.sent)
    }

    /** `result` went to realm's callback, if it has one, and nothing else changed. */
    twostate predicate SentToRealm(realm: string, result: PluginResult, channels: set<CallbackContext>)
      reads this, channels
    {
      && challengeHandlersMap == old(challengeHandlersMap)
      && sdkCalls == old(sdkCalls)
      && (forall ch | ch in channels ::
            ch.sent == old(ch.sent) + (if realm in challengeHandlersMap && ch == challengeHandlersMap[realm] then [result] else []))
      && delivered == old(delivered) +
           (if realm in challengeHandlersMap then [Delivery(challengeHandlersMap[realm].callbackId, result)] else [])
    }

    /** `challengeHandlersMap.get(realm).sendPluginResult(result)`: a null callback throws before sending. */
    method SendToRealm(realm: string, result: PluginResult) returns (c: Completion)
      requires Valid()
      modifies this`delivered, challengeHandlersMap.Values
      ensures Valid()
      ensures c == Completed <==> realm in challengeHandlersMap
      ensures SentToRealm(realm, result, old(challengeHandlersMap.Values))
    {
      if realm in challengeHandlersMap {
        var ch := challengeHandlersMap[realm];
        ch.SendPluginResult(result);
        delivered := delivered + [Delivery(ch.callbackId, result)];
        c := Completed;
      } else {
        c := NullPointer;
      }
    }

    /** What `initialize` does, given what `execute` then reports. */
    twostate predicate InitializeDone(args: seq<Json>, callbackContext: CallbackContext, outcome: ExecOutcome)
      reads this, callbackContext
    {
      && challengeHandlersMap == old(challengeHandlersMap) && delivered == old(delivered)
      && match A.InitializeArgs(args)
         case None =>
           outcome == ThrewJsonException && sdkCalls == old(sdkCalls) && callbackContext.sent == old(callbackContext.sent)
         case Some((route, guid)) =>
           outcome == Returned(true) &&
           if route != "" && guid != "" then
             sdkCalls == old(sdkCalls) + [SdkInitialize(route, guid)] &&
             callbackContext.sent == old(callbackContext.sent) + [SuccessResult(NoMessage)]
           else
             sdkCalls == old(sdkCalls) &&
             callbackContext.sent == old(callbackContext.sent) + [ErrorResult(Text(A.ErrorEmptyArg))]
    }

    method Initialize(args: seq<Json>, callbackContext: CallbackContext) returns (outcome: ExecOutcome)
      modifies this`sdkCalls, callbackContext
      ensures InitializeDone(args, callbackContext, outcome)
    {
      if GetString(args, 0).None? || GetString(args, 1).None? {
        return ThrewJsonException;
      }
      var backendRoute, backendGUID := args[0].s, args[1].s;
      if |backendRoute| > 0 && |backendGUID| > 0 {
        sdkCalls := sdkCalls + [SdkInitialize(backendRoute, backendGUID)];
        callbackContext.Success(NoMessage);
      } else {
        callbackContext.Error(Text(A.ErrorEmptyArg));
      }
      outcome := Returned(true);
    }

    /** What `registerAuthenticationListener` does: hand a new listener bound to the realm to the SDK. */
    twostate predicate RegisterDone(args: seq<Json>, callbackContext: CallbackContext)
      reads this, callbackContext
    {
      && challengeHandlersMap == old(challengeHandlersMap) && delivered == old(delivered)
      && match A.RealmArg(args)
         case Failure(m) =>
           sdkCalls == old(sdkCalls) && callbackContext.sent == old(callbackContext.sent) + [ErrorResult(m)]
         case Success(realm) =>
           && |sdkCalls| == |old(sdkCalls)| + 1 && sdkCalls[..|old(sdkCalls)|] == old(sdkCalls)
           && (var call := sdkCalls[|old(sdkCalls)|];
               call.SdkRegisterAuthenticationListener? && call.realm == realm &&
               fresh(call.listener) && call.listener.realm == realm && call.listener.outer == this)
           && callbackContext.sent == old(callbackContext.sent) + [SuccessResult(Text(realm))]
    }

    method RegisterAuthenticationListener(args: seq<Json>, callbackContext: CallbackContext)
      modifies this`sdkCalls, callbackContext
      ensures RegisterDone(args, callbackContext)
    {
      match A.RealmArg(args)
      case Failure(m) =>
        callbackContext.Error(m);
      case Success(realm) =>
        var listener := new InternalAuthenticationListener(this, realm);
        sdkCalls := sdkCalls + [SdkRegisterAuthenticationListener(realm, listener)];
        callbackContext.Success(Text(realm));
    }

    /**
     * What `unregisterAuthenticationListener` does. With a registered realm:
     * one terminal result to the realm's callback, the entry removed, the
     * realm reported back. With an unregistered realm the SDK has already
     * been told when the null callback throws; nothing else happens.
     */
    twostate predicate UnregisterDone(args: seq<Json>, callbackContext: CallbackContext,
                                      channels: set<CallbackContext>, c: Completion)
      reads this, callbackContext, channels
    {
      match A.RealmArg(args)
      case Failure(m) =>
        && c == Completed
        && challengeHandlersMap == old(challengeHandlersMap) && sdkCalls == old(sdkCalls) && delivered == old(delivered)
        && callbackContext.sent == old(callbackContext.sent) + [ErrorResult(m)]
        && ChannelsUnchanged(channels)
      case Success(realm) =>
        && sdkCalls == old(sdkCalls) + [SdkUnregisterAuthenticationListener(realm)]
        && View() == Step(old(View()), Unregister(realm))
        && (c == Completed <==> realm in old(challengeHandlersMap))
        && if realm in old(challengeHandlersMap) then
             && challengeHandlersMap == old(challengeHandlersMap) - {realm}
             && callbackContext.sent == old(callbackContext.sent) + [SuccessResult(Text(realm))]
             && forall ch | ch in channels ::
                  ch.sent == old(ch.sent) + (if ch == old(challengeHandlersMap)[realm] then [UnregisteredResult] else [])
           else
             && challengeHandlersMap == old(challengeHandlersMap)
             && callbackContext.sent == old(callbackContext.sent)
             && ChannelsUnchanged(channels)
    }

    method UnregisterAuthenticationListener(args: seq<Json>, callbackContext: CallbackContext) returns (c: Completion)
      requires Valid() && FreshCallback(callbackContext)
      modifies this, callbackContext, challengeHandlersMap.Values
      ensures Valid() && usedIds == old(usedIds) + {callbackContext.callbackId}
      ensures UnregisterDone(args, callbackContext, old(challengeHandlersMap.Values), c)
    {
      FreshCallbackIsNew(callbackContext);
      usedIds := usedIds + {callbackContext.callbackId};
      match A.RealmArg(args)
      case Failure(m) =>
        callbackContext.Error(m);
        c := Completed;
      case Success(realm) =>
        sdkCalls := sdkCalls + [SdkUnregisterAuthenticationListener(realm)];
        c := SendToRealm(realm, UnregisteredResult);
        if c == Completed {
          challengeHandlersMap := challengeHandlersMap - {realm};
          assert Handlers() == old(Handlers()) - {realm};
          callbackContext.Success(Text(realm));
        }
    }

    /** What `addCallbackReceiver` does: put (or replace) the realm's callback; the caller hears back only on error. */
    twostate predicate AddCallbackReceiverDone(args: seq<Json>, callbackContext: CallbackContext)
      reads this, callbackContext
    {
      && sdkCalls == old(sdkCalls) && delivered == old(delivered)
      && callbackContext.sent == old(callbackContext.sent) + (if A.RealmArg(args).Failure? then [ErrorResult(A.RealmArg(args).error)] else [])
      && match A.RealmArg(args)
         case Failure(_) => challengeHandlersMap == old(challengeHandlersMap)
         case Success(realm) =>
           challengeHandlersMap == old(challengeHandlersMap)[realm := callbackContext] &&
           View() == Step(old(View()), Put(realm, callbackContext.callbackId))
    }

    method DoAddCallbackReceiver(args: seq<Json>, callbackContext: CallbackContext)
      requires Valid() && FreshCallback(callbackContext)
      modifies this, callbackContext
      ensures Valid() && usedIds == old(usedIds) + {callbackContext.callbackId}
      ensures AddCallbackReceiverDone(args, callbackContext)
    {
      FreshCallbackIsNew(callbackContext);
      usedIds := usedIds + {callbackContext.callbackId};
      match A.RealmArg(args)
      case Failure(m) =>
        callbackContext.Error(m);
      case Success(realm) =>
        challengeHandlersMap := challengeHandlersMap[realm := callbackContext];
        assert Handlers() == old(Handlers())[realm := callbackContext.callbackId];
    }

    /**
     * What the three submit handlers do: once the arguments parse, report
     * success to the caller and forward the submission to the SDK. Nothing
     * checks that a challenge is pending for the realm.
     */
    twostate predicate SubmitDone(kind: A.SubmitKind, args: seq<Json>, callbackContext: CallbackContext)
      reads this, callbackContext
    {
      && challengeHandlersMap == old(challengeHandlersMap) && delivered == old(delivered)
      && match A.SubmissionOf(kind, args)
         case None =>
           sdkCalls == old(sdkCalls) && callbackContext.sent == old(callbackContext.sent) + [ErrorResult(ExceptionMessage)]
         case Some(submission) =>
           sdkCalls == old(sdkCalls) + [SdkSubmit(submission)] &&
           callbackContext.sent == old(callbackContext.sent) + [SuccessResult(Text(A.SubmitReply(kind)))]
    }

    method Submit(kind: A.SubmitKind, args: seq<Json>, callbackContext: CallbackContext)
      modifies this`sdkCalls, callbackContext
      ensures SubmitDone(kind, args, callbackContext)
    {
      match A.SubmissionOf(kind, args)
      case None =>
        callbackContext.Error(ExceptionMessage);
      case Some(submission) =>
        callbackContext.Success(Text(A.SubmitReply(kind)));
        sdkCalls := sdkCalls + [SdkSubmit(submission)];
    }

    method SubmitAuthenticationChallengeAnswer(args: seq<Json>, callbackContext: CallbackContext)
      modifies this`sdkCalls, callbackContext
      ensures SubmitDone(A.AnswerKind, args, callbackContext)
    {
      Submit(A.AnswerKind, args, callbackContext);
    }

    method SubmitAuthenticationSuccess(args: seq<Json>, callbackContext: CallbackContext)
      modifies this`sdkCalls, callbackContext
      ensures SubmitDone(A.SuccessKind, args, callbackContext)
    {
      Submit(A.SuccessKind, args, callbackContext);
    }

    method SubmitAuthenticationFailure(args: seq<Json>, callbackContext: CallbackContext)
      modifies this`sdkCalls, callbackContext
      ensures SubmitDone(A.FailureKind, args, callbackContext)
    {
      Submit(A.FailureKind, args, callbackContext);
    }

    /** Record that Cordova has handed out this call's callback id. */
    method UseCallback(callbackContext: CallbackContext)
      requires Valid()
      modifies this`usedIds
      ensures Valid() && usedIds == old(usedIds) + {callbackContext.callbackId}
    {
      usedIds := usedIds + {callbackContext.callbackId};
    }

    /** The effect of the handler `a` names, with `outcome` what `execute` then reports. */
    twostate predicate Dispatched(a: A.Action, args: seq<Json>, callbackContext: CallbackContext,
                                  outcome: ExecOutcome, channels: set<CallbackContext>)
      reads this, callbackContext, channels
    {
      match a
      case Initialize =>
        InitializeDone(args, callbackContext, outcome) && ChannelsUnchanged(channels)
      case RegisterAuthenticationListener =>
        outcome == Returned(true) && RegisterDone(args, callbackContext) && ChannelsUnchanged(channels)
      case UnregisterAuthenticationListener =>
        outcome == Returned(true) && exists c :: UnregisterDone(args, callbackContext, channels, c)
      case AddCallbackReceiver =>
        outcome == Returned(true) && AddCallbackReceiverDone(args, callbackContext) && ChannelsUnchanged(channels)
      case SubmitAuthenticationChallengeAnswer =>
        outcome == Returned(true) && SubmitDone(A.AnswerKind, args, callbackContext) && ChannelsUnchanged(channels)
      case SubmitAuthenticationSuccess =>
        outcome == Returned(true) && SubmitDone(A.SuccessKind, args, callbackContext) && ChannelsUnchanged(channels)
      case SubmitAuthenticationFailure =>
        outcome == Returned(true) && SubmitDone(A.FailureKind, args, callbackContext) && ChannelsUnchanged(channels)
    }

    /** Run the handler `a` names, as the branches of `execute` do. */
    method Dispatch(a: A.Action, args: seq<Json>, callbackContext: CallbackContext) returns (outcome: ExecOutcome)
      requires Valid() && FreshCallback(callbackContext)
      modifies this, callbackContext, challengeHandlersMap.Values
      ensures Valid() && usedIds == old(usedIds) + {callbackContext.callbackId}
      ensures Dispatched(a, args, callbackContext, outcome, old(challengeHandlersMap.Values))
    {
      FreshCallbackIsNew(callbackContext);
      outcome := Returned(true);
      match a
      case Initialize =>
        UseCallback(callbackContext);
        outcome := Initialize(args, callbackContext);
      case RegisterAuthenticationListener =>
        UseCallback(callbackContext);
        RegisterAuthenticationListener(args, callbackContext);
      case UnregisterAuthenticationListener =>
        var c := UnregisterAuthenticationListener(args, callbackContext);
      case AddCallbackReceiver =>
        DoAddCallbackReceiver(args, callbackContext);
      case SubmitAuthenticationChallengeAnswer =>
        UseCallback(callbackContext);
        SubmitAuthenticationChallengeAnswer(args, callbackContext);
      case SubmitAuthenticationSuccess =>
        UseCallback(callbackContext);
        SubmitAuthenticationSuccess(args, callbackContext);
      case SubmitAuthenticationFailure =>
        UseCallback(callbackContext);
        SubmitAuthenticationFailure(args, callbackContext);
    }

    /**
     * `execute`: run the handler the action names and report true; for any
     * other name report false and change nothing. Either way the call's
     * callback id is now used, and no callback of an earlier call that no
     * realm maps to is sent anything.
     */
    method Execute(action: string, args: seq<Json>, callbackContext: CallbackContext) returns (outcome: ExecOutcome)
      requires Valid() && FreshCallback(callbackContext)
      modifies this, callbackContext, challengeHandlersMap.Values
      ensures Valid() && usedIds == old(usedIds) + {callbackContext.callbackId}
      ensures forall ch: CallbackContext | old(allocated(ch)) && ch.callbackId in old(usedIds) && ch !in old(challengeHandlersMap.Values) ::
                ch.sent == old(ch.sent)
      ensures outcome == Returned(false) <==> A.ActionOf(action).None?
      ensures A.ActionOf(action).None? ==>
                && challengeHandlersMap == old(challengeHandlersMap) && sdkCalls == old(sdkCalls) && delivered == old(delivered)
                && unchanged(callbackContext) && ChannelsUnchanged(old(challengeHandlersMap.Values))
      ensures A.ActionOf(action).Some? ==>
                Dispatched(A.ActionOf(action).value, args, callbackContext, outcome, old(challengeHandlersMap.Values))
    {
      match A.ActionOf(action)
      case None =>
        UseCallback(callbackContext);
        outcome := Returned(false);
      case Some(a) =>
        outcome := Dispatch(a, args, callbackContext);
    }
  }

  /**
   * The listener handed to the SDK for one realm. Its realm is fixed when it
   * is made; on every event it looks the realm's callback up again, so events
   * go to whichever callback is registered at that moment.
   */
  class InternalAuthenticationListener {
    const realm: string
    const outer: CDVBMSClient

    constructor (outer: CDVBMSClient, realm: string)
      ensures this.outer == outer && this.realm == realm
    {
      this.outer := outer;
      this.realm := realm;
    }

    method OnAuthenticationChallengeReceived(challenge: Json) returns (c: Completion)
      requires outer.Valid()
      modifies outer`delivered, outer.challengeHandlersMap.Values
      ensures outer.Valid()
      ensures c == Completed <==> realm in outer.challengeHandlersMap
      ensures outer.SentToRealm(realm, EventResult(ChallengeReceived(challenge)), old(outer.challengeHandlersMap.Values))
      ensures outer.View() == Step(old(outer.View()), Notify(realm, ChallengeReceived(challenge)))
    {
      c := outer.SendToRealm(realm, EventResult(ChallengeReceived(challenge)));
    }

    method OnAuthenticationSuccess(info: Json) returns (c: Completion)
      requires outer.Valid()
      modifies outer`delivered, outer.challengeHandlersMap.Values
      ensures outer.Valid()
      ensures c == Completed <==> realm in outer.challengeHandlersMap
      ensures outer.SentToRealm(realm, EventResult(AuthenticationSuccess(info)), old(outer.challengeHandlersMap.Values))
      ensures outer.View() == Step(old(outer.View()), Notify(realm, AuthenticationSuccess(info)))
    {
      c := OnAuthenticationSuccessOrFailure(AuthenticationSuccess(info));
    }

    method OnAuthenticationFailure(info: Json) returns (c: Completion)
      requires outer.Valid()
      modifies outer`delivered, outer.challengeHandlersMap.Values
      ensures outer.Valid()
      ensures c == Completed <==> realm in outer.challengeHandlersMap
      ensures outer.SentToRealm(realm, EventResult(AuthenticationFailure(info)), old(outer.challengeHandlersMap.Values))
      ensures outer.View() == Step(old(outer.View()), Notify(realm, AuthenticationFailure(info)))
    {
      c := OnAuthenticationSuccessOrFailure(AuthenticationFailure(info));
    }

    /** The shared body of the success and failure callbacks. */
    method OnAuthenticationSuccessOrFailure(event: AuthEvent) returns (c: Completion)
      requires !event.ChallengeReceived?
      requires outer.Valid()
      modifies outer`delivered, outer.challengeHandlersMap.Values
      ensures outer.Valid()
      ensures c == Completed <==> realm in outer.challengeHandlersMap
      ensures outer.SentToRealm(realm, EventResult(event), old(outer.challengeHandlersMap.Values))
      ensures outer.View() == Step(old(outer.View()), Notify(realm, event))
    {
      c := outer.SendToRealm(realm, EventResult(event));
    }
  }
}
