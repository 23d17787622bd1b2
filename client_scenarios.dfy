/**
 * Runs of CDVBMSClient built from its methods' contracts alone: a realm
 * registered twice, a full realm life cycle, and unregistering a realm that
 * was never registered.
 */
module ClientScenarios {
  import opened JsonValues
  import opened Cordova
  import opened RealmRegistry
  import opened BMSClient
  import opened Wrappers
  import A = ClientActions

  /**
   * Register "ldap" with two callbacks in turn, raise a challenge, then
   * unregister "ldap" through `execute`: the replaced first callback is sent
   * nothing at all, the second gets the challenge and the terminal result.
   */
  method ReRegistrationScenario(challenge: Json)
    returns (first: seq<PluginResult>, second: seq<PluginResult>, reply: seq<PluginResult>)
    ensures first == []
    ensures second == [EventResult(ChallengeReceived(challenge)), UnregisteredResult]
    ensures reply == [SuccessResult(Text("ldap"))]
  {
    var plugin := new CDVBMSClient();
    var c1 := new CallbackContext("callback-1");
    var c2 := new CallbackContext("callback-2");
    plugin.DoAddCallbackReceiver([JStr("ldap")], c1);
    plugin.DoAddCallbackReceiver([JStr("ldap")], c2);
    var listener := new InternalAuthenticationListener(plugin, "ldap");
    NotifyOnly(listener, c2, ChallengeReceived(challenge));
    var c3 := new CallbackContext("callback-3");
    ExecuteUnregister(plugin, "ldap", c2, c1, c3);
    first, second, reply := c1.sent, c2.sent, c3.sent;
  }

  /**
   * Register "ldap", receive a challenge and a success, unregister: the
   * callback sees the two events and then the one terminal result, the caller
   * of unregister gets the realm back, and a later challenge finds no callback.
   */
  method LifeCycleScenario(challenge: Json, info: Json)
    returns (channel: seq<PluginResult>, reply: seq<PluginResult>, late: Completion)
    ensures channel == [EventResult(ChallengeReceived(challenge)), EventResult(AuthenticationSuccess(info)), UnregisteredResult]
    ensures reply == [SuccessResult(Text("ldap"))]
    ensures late == NullPointer
  {
    var plugin := new CDVBMSClient();
    var receiver := new CallbackContext("callback-1");
    plugin.DoAddCallbackReceiver([JStr("ldap")], receiver);
    assert plugin.challengeHandlersMap == map["ldap" := receiver];
    var listener := new InternalAuthenticationListener(plugin, "ldap");
    NotifyOnly(listener, receiver, ChallengeReceived(challenge));
    NotifyOnly(listener, receiver, AuthenticationSuccess(info));
    var caller := new CallbackContext("callback-2");
    UnregisterOnly(plugin, "ldap", receiver, caller);
    late := NotifyAbsent(listener, ChallengeReceived(challenge));
    channel, reply := receiver.sent, caller.sent;
  }

  /** An event for the one registered realm, raised through the listener method the SDK would call. */
  method NotifyOnly(listener: InternalAuthenticationListener, receiver: CallbackContext, event: AuthEvent)
    requires listener.outer.Valid() && listener.outer.challengeHandlersMap == map[listener.realm := receiver]
    modifies listener.outer, receiver
    ensures listener.outer.Valid() && listener.outer.challengeHandlersMap == map[listener.realm := receiver]
    ensures listener.outer.usedIds == old(listener.outer.usedIds)
    ensures receiver.sent == old(receiver.sent) + [EventResult(event)]
  {
    var done;
    match event
    case ChallengeReceived(challenge) =>
      done := listener.OnAuthenticationChallengeReceived(challenge);
    case AuthenticationSuccess(info) =>
      done := listener.OnAuthenticationSuccess(info);
    case AuthenticationFailure(info) =>
      done := listener.OnAuthenticationFailure(info);
  }

  /** An event for a realm with no callback stops on the null callback and changes nothing. */
  method NotifyAbsent(listener: InternalAuthenticationListener, event: AuthEvent) returns (c: Completion)
    requires listener.outer.Valid() && listener.realm !in listener.outer.challengeHandlersMap
    modifies listener.outer, listener.outer.challengeHandlersMap.Values
    ensures c == NullPointer && unchanged(listener.outer)
    ensures listener.outer.ChannelsUnchanged(listener.outer.challengeHandlersMap.Values)
  {
    match event
    case ChallengeReceived(challenge) =>
      c := listener.OnAuthenticationChallengeReceived(challenge);
    case AuthenticationSuccess(info) =>
      c := listener.OnAuthenticationSuccess(info);
    case AuthenticationFailure(info) =>
      c := listener.OnAuthenticationFailure(info);
  }

  /** Unregister the one registered realm: its callback gets the terminal result, the caller gets the realm. */
  method UnregisterOnly(plugin: CDVBMSClient, realm: string, receiver: CallbackContext, caller: CallbackContext)
    requires realm != "" && plugin.Valid() && plugin.challengeHandlersMap == map[realm := receiver]
    requires caller.callbackId !in plugin.usedIds
    modifies plugin, receiver, caller
    ensures plugin.Valid() && plugin.challengeHandlersMap == map[]
    ensures receiver.sent == old(receiver.sent) + [UnregisteredResult]
    ensures caller.sent == old(caller.sent) + [SuccessResult(Text(realm))]
  {
    assert plugin.Handlers() == map[realm := receiver.callbackId];
    var done := plugin.UnregisterAuthenticationListener([JStr(realm)], caller);
    assert A.RealmArg([JStr(realm)]) == Success(realm);
  }

  /**
   * `execute("unregisterAuthenticationListener", [realm])` for the one
   * registered realm: its callback gets the terminal result, the caller gets
   * the realm, and a callback of an earlier call that no realm maps to any
   * more is sent nothing.
   */
  method ExecuteUnregister(plugin: CDVBMSClient, realm: string, receiver: CallbackContext,
                           orphan: CallbackContext, caller: CallbackContext)
    requires realm != "" && plugin.Valid() && plugin.challengeHandlersMap == map[realm := receiver]
    requires orphan.callbackId in plugin.usedIds && orphan != receiver
    requires caller.callbackId !in plugin.usedIds
    modifies plugin, receiver, caller
    ensures orphan.sent == old(orphan.sent)
    ensures receiver.sent == old(receiver.sent) + [UnregisteredResult]
    ensures caller.sent == old(caller.sent) + [SuccessResult(Text(realm))]
  {
    assert A.ActionOf("unregisterAuthenticationListener") == Some(A.UnregisterAuthenticationListener);
    assert A.RealmArg([JStr(realm)]) == Success(realm);
    var outcome := plugin.Execute("unregisterAuthenticationListener", [JStr(realm)], caller);
  }

  /** Unregistering a realm nobody registered stops on the null callback: the caller hears nothing. */
  method UnregisterUnknownScenario() returns (c: Completion, reply: seq<PluginResult>, registered: set<string>)
    ensures c == NullPointer && reply == [] && registered == {}
  {
    var plugin := new CDVBMSClient();
    var caller := new CallbackContext("callback-1");
    c := plugin.UnregisterAuthenticationListener([JStr("unknown-realm")], caller);
    reply, registered := caller.sent, plugin.challengeHandlersMap.Keys;
  }
}
