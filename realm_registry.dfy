/**
 * The realm registry of CDVBMSClient as a state machine on values: which
 * callback each realm's events go to, and every result sent to a realm's
 * callback, in order. CDVBMSClient's methods are proved to move this state
 * exactly as `Step` does; the lemmas here say what any run of operations
 * then guarantees.
 */
module RealmRegistry {
  import opened Wrappers
  import opened JsonValues
  import opened Cordova

  /** A JavaScript callback is identified by its Cordova callback id. */
  type CallbackId = string

  /** What the authentication SDK reports to a realm's listener. */
  datatype AuthEvent =
    | ChallengeReceived(challenge: Json)
    | AuthenticationSuccess(info: Json)
    | AuthenticationFailure(info: Json)

  /** The `action` tag the listener puts in the object it sends. */
  function EventAction(e: AuthEvent): string
  {
    match e
    case ChallengeReceived(_) => "onAuthenticationChallengeReceived"
    case AuthenticationSuccess(_) => "onAuthenticationSuccess"
    case AuthenticationFailure(_) => "onAuthenticationFailure"
  }

  /** The object sent for an event: its action tag, and the challenge or info passed through unopened. */
  function EventResponse(e: AuthEvent): Json
  {
    match e
    case ChallengeReceived(challenge) => JObj([("action", JStr(EventAction(e))), ("challenge", challenge)])
    case AuthenticationSuccess(info) => JObj([("action", JStr(EventAction(e))), ("info", info)])
    case AuthenticationFailure(info) => JObj([("action", JStr(EventAction(e))), ("info", info)])
  }

  /** Every event is sent as OK with the callback kept open for further events. */
  function EventResult(e: AuthEvent): PluginResult
  {
    PluginResult(Ok, Object(EventResponse(e)), true)
  }

  /** The one result unregistering sends: OK, an empty object, and the callback released. */
  const UnregisteredResult: PluginResult := PluginResult(Ok, Object(JObj([])), false)

  datatype Delivery = Delivery(channel: CallbackId, result: PluginResult)

  /** The registry: realm to callback, and every result sent to a registered callback so far. */
  datatype State = State(handlers: map<string, CallbackId>, delivered: seq<Delivery>)

  /**
   * The operations that touch the registry: `Put` is doAddCallbackReceiver
   * with a valid realm, `Unregister` is the registry half of
   * unregisterAuthenticationListener, `Notify` is a listener receiving an event.
   */
  datatype Op =
    | Put(realm: string, channel: CallbackId)
    | Unregister(realm: string)
    | Notify(realm: string, event: AuthEvent)

  /**
   * One operation. A realm without an entry makes `Unregister` and `Notify`
   * fail on a null callback before they change anything, so the state is kept.
   */
  function Step(s: State, op: Op): (t: State)
    ensures s.delivered <= t.delivered && |t.delivered| <= |s.delivered| + 1
    ensures op.Put? ==> t.delivered == s.delivered
    ensures op.Notify? ==> t.handlers == s.handlers
    ensures !op.Put? && op.realm !in s.handlers ==> t == s
  {
    match op
    case Put(r, c) => State(s.handlers[r := c], s.delivered)
    case Unregister(r) =>
      if r in s.handlers then State(s.handlers - {r}, s.delivered + [Delivery(s.handlers[r], UnregisteredResult)])
      else s
    case Notify(r, e) =>
      if r in s.handlers then State(s.handlers, s.delivered + [Delivery(s.handlers[r], EventResult(e))])
      else s
  }

  /** A sequence of operations, one after the other. */
  function Run(s: State, ops: seq<Op>): State
    decreases |ops|
  {
    if ops == [] then s else Run(Step(s, ops[0]), ops[1..])
  }

  function Lookup(handlers: map<string, CallbackId>, r: string): Option<CallbackId>
  {
    if r in handlers then Some(handlers[r]) else None
  }

  /** What one operation does to realm r's entry, looking at r alone. */
  function Bind(b: Option<CallbackId>, op: Op, r: string): Option<CallbackId>
  {
    if op.realm != r then b
    else match op
      case Put(_, c) => Some(c)
      case Unregister(_) => None
      case Notify(_, _) => b
  }

  /** Reference definition of realm r's entry after a run: only r's own operations matter. */
  function LastBinding(b: Option<CallbackId>, ops: seq<Op>, r: string): Option<CallbackId>
    decreases |ops|
  {
    if ops == [] then b else LastBinding(Bind(b, ops[0], r), ops[1..], r)
  }

  /** A run's entry for any realm is that realm's own last registration: other realms never interfere. */
  lemma {:induction false} RunLookup(s: State, ops: seq<Op>, r: string)
    ensures Lookup(Run(s, ops).handlers, r) == LastBinding(Lookup(s.handlers, r), ops, r)
    decreases |ops|
  {
    if ops != [] {
      assert Lookup(Step(s, ops[0]).handlers, r) == Bind(Lookup(s.handlers, r), ops[0], r);
      RunLookup(Step(s, ops[0]), ops[1..], r);
    }
  }

  predicate NoPutFor(ops: seq<Op>, r: string)
  {
    forall i | 0 <= i < |ops| :: !(ops[i].Put? && ops[i].realm == r)
  }

  lemma {:induction false} LastBindingWithoutPut(b: Option<CallbackId>, ops: seq<Op>, r: string)
    requires b.None? && NoPutFor(ops, r)
    ensures LastBinding(b, ops, r).None?
    decreases |ops|
  {
    if ops != [] {
      assert !(ops[0].Put? && ops[0].realm == r);
      LastBindingWithoutPut(Bind(b, ops[0], r), ops[1..], r);
    }
  }

  /** Once a realm is unregistered it stays absent until it is registered again, whatever other realms do. */
  lemma UnregisterThenLookup(s: State, ops: seq<Op>, r: string)
    requires NoPutFor(ops, r)
    ensures r !in Run(s, [Unregister(r)] + ops).handlers
  {
    var all := [Unregister(r)] + ops;
    assert all[1..] == ops;
    LastBindingWithoutPut(Bind(Lookup(s.handlers, r), Unregister(r), r), ops, r);
    RunLookup(s, all, r);
  }

  predicate Untouched(ops: seq<Op>, r: string)
  {
    forall i | 0 <= i < |ops| :: ops[i].realm != r || ops[i].Notify?
  }

  lemma {:induction false} LastBindingUntouched(b: Option<CallbackId>, ops: seq<Op>, r: string)
    requires Untouched(ops, r)
    ensures LastBinding(b, ops, r) == b
    decreases |ops|
  {
    if ops != [] {
      assert ops[0].realm != r || ops[0].Notify?;
      LastBindingUntouched(Bind(b, ops[0], r), ops[1..], r);
    }
  }

  /**
   * Registering replaces: after Put(r, c), r's events go to c, and only to c,
   * until r itself is registered again or unregistered.
   */
  lemma LatestRegistrationWins(s: State, r: string, c: CallbackId, ops: seq<Op>)
    requires Untouched(ops, r)
    ensures r in Run(s, [Put(r, c)] + ops).handlers
    ensures Run(s, [Put(r, c)] + ops).handlers[r] == c
  {
    var all := [Put(r, c)] + ops;
    assert all[1..] == ops;
    LastBindingUntouched(Some(c), ops, r);
    RunLookup(s, all, r);
  }

  /** The results sent to one callback, in the order they were sent. */
  function DeliveredTo(ds: seq<Delivery>, c: CallbackId): seq<PluginResult>
    decreases |ds|
  {
    if ds == [] then []
    else DeliveredTo(ds[..|ds| - 1], c) + (if ds[|ds| - 1].channel == c then [ds[|ds| - 1].result] else [])
  }

  lemma {:induction false} DeliveredToAppend(ds: seq<Delivery>, d: Delivery, c: CallbackId)
    ensures DeliveredTo(ds + [d], c) == DeliveredTo(ds, c) + (if d.channel == c then [d.result] else [])
  {
    assert (ds + [d])[..|ds + [d]| - 1] == ds;
  }

  predicate NeverPut(ops: seq<Op>, c: CallbackId)
  {
    forall i | 0 <= i < |ops| :: !(ops[i].Put? && ops[i].channel == c)
  }

  /** What one operation sends to callback c: the result for the realm's event, if that realm maps to c. */
  function SentTo(s: State, op: Op, c: CallbackId): seq<PluginResult>
  {
    if op.Put? || op.realm !in s.handlers || s.handlers[op.realm] != c then []
    else if op.Unregister? then [UnregisteredResult]
    else [EventResult(op.event)]
  }

  lemma StepDeliveredTo(s: State, op: Op, c: CallbackId)
    ensures DeliveredTo(Step(s, op).delivered, c) == DeliveredTo(s.delivered, c) + SentTo(s, op, c)
  {
    var t := Step(s, op);
    if t.delivered != s.delivered {
      DeliveredToAppend(s.delivered, t.delivered[|s.delivered|], c);
      assert t.delivered == s.delivered + [t.delivered[|s.delivered|]];
    }
  }

  /** The callbacks registered after one operation: the old ones, and the one a `Put` adds. */
  lemma StepValues(s: State, op: Op)
    ensures Step(s, op).handlers.Values <= s.handlers.Values + (if op.Put? then {op.channel} else {})
  {
    var t := Step(s, op);
    forall v | v in t.handlers.Values
      ensures v in s.handlers.Values || (op.Put? && v == op.channel)
    {
      var r :| r in t.handlers && t.handlers[r] == v;
      if !(op.Put? && r == op.realm) {
        assert r in s.handlers && s.handlers[r] == v;
      }
    }
  }

  /** A callback no realm maps to, and that is never registered again, is sent nothing more. */
  lemma {:induction false} DetachedChannelIsSilent(s: State, ops: seq<Op>, c: CallbackId)
    requires c !in s.handlers.Values
    requires NeverPut(ops, c)
    ensures DeliveredTo(Run(s, ops).delivered, c) == DeliveredTo(s.delivered, c)
    decreases |ops|
  {
    if ops != [] {
      var t := Step(s, ops[0]);
      assert !(ops[0].Put? && ops[0].channel == c);
      StepValues(s, ops[0]);
      StepDeliveredTo(s, ops[0], c);
      assert !ops[0].Put? && ops[0].realm in s.handlers ==> s.handlers[ops[0].realm] in s.handlers.Values;
      assert forall i | 0 <= i < |ops[1..]| :: ops[1..][i] == ops[i + 1];
      DetachedChannelIsSilent(t, ops[1..], c);
    }
  }

  /** Realm r maps to c, and no other realm does. */
  predicate OnlyAt(handlers: map<string, CallbackId>, r: string, c: CallbackId)
  {
    r in handlers && handlers[r] == c && forall r' | r' in handlers && r' != r :: handlers[r'] != c
  }

  /**
   * Re-registering a realm orphans its previous callback: that callback is
   * not told, and receives nothing from then on.
   */
  lemma ReplacedChannelIsOrphaned(s: State, r: string, c1: CallbackId, c2: CallbackId, ops: seq<Op>)
    requires OnlyAt(s.handlers, r, c1) && c1 != c2
    requires NeverPut(ops, c1)
    ensures DeliveredTo(Run(s, [Put(r, c2)] + ops).delivered, c1) == DeliveredTo(s.delivered, c1)
  {
    var all := [Put(r, c2)] + ops;
    assert all[1..] == ops;
    var t := Step(s, Put(r, c2));
    assert c1 !in t.handlers.Values;
    DetachedChannelIsSilent(t, ops, c1);
  }

  /**
   * Unregistering sends the realm's callback exactly one terminal result,
   * after which it is sent nothing more unless registered again.
   */
  lemma UnregisterIsTerminal(s: State, r: string, ops: seq<Op>)
    requires r in s.handlers && OnlyAt(s.handlers, r, s.handlers[r])
    requires NeverPut(ops, s.handlers[r])
    ensures DeliveredTo(Run(s, [Unregister(r)] + ops).delivered, s.handlers[r])
         == DeliveredTo(s.delivered, s.handlers[r]) + [UnregisteredResult]
  {
    var c := s.handlers[r];
    var all := [Unregister(r)] + ops;
    assert all[1..] == ops;
    var t := Step(s, Unregister(r));
    StepDeliveredTo(s, Unregister(r), c);
    assert c !in t.handlers.Values;
    DetachedChannelIsSilent(t, ops, c);
  }

  /** The results the events raised for realm r produce, in raise order. */
  function EventResults(ops: seq<Op>, r: string): seq<PluginResult>
    decreases |ops|
  {
    if ops == [] then []
    else (if ops[0].Notify? && ops[0].realm == r then [EventResult(ops[0].event)] else []) + EventResults(ops[1..], r)
  }

  /** An operation that neither touches realm r nor registers c keeps r mapped to c alone. */
  lemma StepKeepsOnlyAt(s: State, op: Op, r: string, c: CallbackId)
    requires OnlyAt(s.handlers, r, c)
    requires op.realm != r || op.Notify?
    requires !(op.Put? && op.channel == c)
    ensures OnlyAt(Step(s, op).handlers, r, c)
  {
  }

  /**
   * While realm r keeps its callback c, c receives the results of r's events
   * in the order they were raised, and nothing from other realms' events.
   */
  lemma {:induction false} EventsInRaiseOrder(s: State, ops: seq<Op>, r: string, c: CallbackId)
    requires OnlyAt(s.handlers, r, c)
    requires Untouched(ops, r) && NeverPut(ops, c)
    ensures DeliveredTo(Run(s, ops).delivered, c) == DeliveredTo(s.delivered, c) + EventResults(ops, r)
    decreases |ops|
  {
    if ops != [] {
      var op, rest := ops[0], ops[1..];
      assert op.realm != r || op.Notify?;
      assert !(op.Put? && op.channel == c);
      var t := Step(s, op);
      StepKeepsOnlyAt(s, op, r, c);
      StepDeliveredTo(s, op, c);
      var here := if op.Notify? && op.realm == r then [EventResult(op.event)] else [];
      assert SentTo(s, op, c) == here;
      assert Untouched(rest, r) && NeverPut(rest, c) by {
        assert forall i | 0 <= i < |rest| :: rest[i] == ops[i + 1];
      }
      EventsInRaiseOrder(t, rest, r, c);
      calc {
        DeliveredTo(Run(s, ops).delivered, c);
        DeliveredTo(Run(t, rest).delivered, c);
        DeliveredTo(t.delivered, c) + EventResults(rest, r);
        DeliveredTo(s.delivered, c) + here + EventResults(rest, r);
        { assert EventResults(ops, r) == here + EventResults(rest, r); }
        DeliveredTo(s.delivered, c) + EventResults(ops, r);
      }
    }
  }

  predicate NoUnregister(ops: seq<Op>)
  {
    forall i | 0 <= i < |ops| :: !ops[i].Unregister?
  }

  /**
   * Only unregistering releases a callback: a run without it sends results
   * that all keep their callback open, challenges, successes and failures alike.
   */
  lemma {:induction false} EventsKeepCallback(s: State, ops: seq<Op>)
    requires NoUnregister(ops)
    ensures s.delivered <= Run(s, ops).delivered
    ensures forall i | |s.delivered| <= i < |Run(s, ops).delivered| :: Run(s, ops).delivered[i].result.keepCallback
    decreases |ops|
  {
    if ops != [] {
      var t := Step(s, ops[0]);
      assert !ops[0].Unregister?;
      assert forall i | |s.delivered| <= i < |t.delivered| :: t.delivered[i].result.keepCallback;
      assert NoUnregister(ops[1..]) by {
        assert forall i | 0 <= i < |ops[1..]| :: ops[1..][i] == ops[i + 1];
      }
      EventsKeepCallback(t, ops[1..]);
    }
  }
}
