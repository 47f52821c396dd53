/**
 The world around the Push service: the preferences store, the logs Push
 enqueued to the channel (append-only), the calls the application's listener received and the
 deliveries posted to the UI thread but not yet run. Events drive the service;
 the effects of each transition are applied to this world in order.
 */
module PushDevice {
  import opened Wrappers
  import opened PushTypes
  import opened Push

  /** A log Push enqueued, with the group it was enqueued to. */
  datatype Enqueued = Enqueued(log: PushInstallationLog, group: string)

  /** One call of the listener: the activity it was given and the notification. */
  datatype Callback = Callback(activity: Option<Activity>, notification: PushNotification)

  datatype Device = Device(
    prefs: map<string, string>,
    channel: seq<Enqueued>,
    callbacks: seq<Callback>,
    uiQueue: seq<PushNotification>)

  /** The service together with the world it acts on. */
  datatype System = System(push: PushState, device: Device)

  /** What can happen to the service, in the order the platform calls it. */
  datatype Event =
    | TokenRefresh(token: string, inactive: bool)
    | SetEnabled(enabled: bool, providerToken: Option<string>, inactive: bool)
    | Started(channelPresent: bool, providerToken: Option<string>, inactive: bool)
    | SetListener(present: bool)
    | ActivityCreated(a: Activity)
    | ActivityStarted(a: Activity)
    | ActivityResumed(a: Activity)
    | ActivityPaused(a: Activity)
    | MessageReceived(message: RemoteMessage)
    | UiRun   // the UI thread runs the oldest posted delivery

  /** Apply one effect to the world. */
  function Perform(d: Device, e: Effect): (r: Device)
    ensures e.PutString? ==> r == d.(prefs := d.prefs[e.key := e.value])
    ensures e.Enqueue? ==> r == d.(channel := d.channel + [Enqueued(e.log, e.group)])
    ensures e.NotifyListener? ==> r == d.(callbacks := d.callbacks + [Callback(e.activity, e.notification)])
    ensures e.PostToUi? ==> r == d.(uiQueue := d.uiQueue + [e.notification])
  {
    match e
    case PutString(key, value) => d.(prefs := d.prefs[key := value])
    case Enqueue(log, group) => d.(channel := d.channel + [Enqueued(log, group)])
    case NotifyListener(activity, n) => d.(callbacks := d.callbacks + [Callback(activity, n)])
    case PostToUi(n) => d.(uiQueue := d.uiQueue + [n])
  }

  /** Apply effects to the world, first to last. */
  function PerformAll(d: Device, effects: seq<Effect>): Device
    decreases |effects|
  {
    if effects == [] then d else PerformAll(Perform(d, effects[0]), effects[1..])
  }

  /** The transition an event causes, given the current world (the UI queue feeds `UiRun`). */
  function Transition(s: PushState, d: Device, ev: Event): Step
  {
    match ev
    case TokenRefresh(token, inactive) => OnTokenRefresh(s, token, inactive)
    case SetEnabled(enabled, providerToken, inactive) => SetInstanceEnabled(s, enabled, providerToken, inactive)
    case Started(channelPresent, providerToken, inactive) => OnStarted(s, channelPresent, providerToken, inactive)
    case SetListener(present) => SetInstanceListener(s, present)
    case ActivityCreated(a) => CheckPushInActivityIntent(s, a)
    case ActivityStarted(a) => CheckPushInActivityIntent(s, a)
    case ActivityResumed(a) => CheckPushInActivityIntent(s, a)
    case ActivityPaused(a) => OnActivityPaused(s, a)
    case MessageReceived(m) => OnMessageReceived(s, m)
    case UiRun => if d.uiQueue == [] then Step(s, []) else DeliverForegroundPushNotification(s, d.uiQueue[0])
  }

  /** One event: the transition, then its effects on the world (a run delivery leaves the UI queue first). */
  function Next(sys: System, ev: Event): System
  {
    var step := Transition(sys.push, sys.device, ev);
    var d := if ev.UiRun? && sys.device.uiQueue != [] then sys.device.(uiQueue := sys.device.uiQueue[1..]) else sys.device;
    System(step.state, PerformAll(d, step.effects))
  }

  /** A sequence of events, first to last. */
  function Run(sys: System, events: seq<Event>): System
    decreases |events|
  {
    if events == [] then sys else Run(Next(sys, events[0]), events[1..])
  }

  /* ---------------- The cached token is always on record ---------------- */

  /**
   Whenever a token is cached, it is the stored preference and the last log Push
   enqueued is an installation log for it in the push group.
   */
  ghost predicate TokenOnRecord(sys: System)
  {
    sys.push.pushToken.Some? ==>
      && PreferenceKeyPushToken in sys.device.prefs
      && sys.device.prefs[PreferenceKeyPushToken] == sys.push.pushToken.value
      && |sys.device.channel| > 0
      && sys.device.channel[|sys.device.channel| - 1] == Enqueued(PushInstallationLog(sys.push.pushToken.value), PushGroup)
  }

  /** Effects other than preference writes and enqueues leave the preferences and the channel as they are. */
  lemma {:induction false} QuietEffectsKeepRecord(d: Device, effects: seq<Effect>)
    requires forall i :: 0 <= i < |effects| ==> effects[i].NotifyListener? || effects[i].PostToUi?
    ensures PerformAll(d, effects).prefs == d.prefs
    ensures PerformAll(d, effects).channel == d.channel
    decreases |effects|
  {
    if effects != [] {
      QuietEffectsKeepRecord(Perform(d, effects[0]), effects[1..]);
    }
  }

  /** A refresh while the service is inactive leaves the service and the whole world unchanged. */
  lemma InactiveRefreshChangesNothing(sys: System, token: string)
    ensures Next(sys, TokenRefresh(token, true)) == sys
  {
  }

  /** A refresh that caches a new token writes it and enqueues it, in that order. */
  lemma RefreshRecordsToken(d: Device, token: string)
    ensures var r := PerformAll(d, [PutString(PreferenceKeyPushToken, token), Enqueue(PushInstallationLog(token), PushGroup)]);
      && r.prefs == d.prefs[PreferenceKeyPushToken := token]
      && r.channel == d.channel + [Enqueued(PushInstallationLog(token), PushGroup)]
  {
    var effects := [PutString(PreferenceKeyPushToken, token), Enqueue(PushInstallationLog(token), PushGroup)];
    var d1 := Perform(d, effects[0]);
    var d2 := Perform(d1, effects[1]);
    assert effects[1..][1..] == [];
    assert PerformAll(d, effects) == PerformAll(d1, effects[1..]) == PerformAll(d2, []);
  }

  /** Every event keeps the cached token on record. */
  lemma NextKeepsTokenOnRecord(sys: System, ev: Event)
    requires TokenOnRecord(sys)
    ensures TokenOnRecord(Next(sys, ev))
  {
    PreferenceKeyPushTokenValue();
    var step := Transition(sys.push, sys.device, ev);
    var d := if ev.UiRun? && sys.device.uiQueue != [] then sys.device.(uiQueue := sys.device.uiQueue[1..]) else sys.device;
    if step.effects == [] {
    } else if step.effects[0].PutString? {
      RefreshRecordsToken(d, step.state.pushToken.value);
    } else {
      QuietEffectsKeepRecord(d, step.effects);
    }
  }

  /** Any run of events keeps the cached token on record. */
  lemma {:induction false} RunKeepsTokenOnRecord(sys: System, events: seq<Event>)
    requires TokenOnRecord(sys)
    ensures TokenOnRecord(Run(sys, events))
    decreases |events|
  {
    if events != [] {
      NextKeepsTokenOnRecord(sys, events[0]);
      RunKeepsTokenOnRecord(Next(sys, events[0]), events[1..]);
    }
  }

  /**
   With the cached token on record, a refresh never enqueues the same log twice
   in a row: a log it adds differs from the previous log Push enqueued.
   */
  lemma RefreshNeverRepeatsLastLog(sys: System, token: string, inactive: bool)
    requires TokenOnRecord(sys) && sys.push.pushToken.Some?
    ensures var after := Next(sys, TokenRefresh(token, inactive)).device.channel;
      |after| > |sys.device.channel| ==> after[|after| - 1] != after[|after| - 2]
  {
    var step := OnTokenRefresh(sys.push, token, inactive);
    if !inactive && sys.push.pushToken != Some(token) {
      RefreshRecordsToken(sys.device, token);
    }
  }

  /* ---------------- Enqueued logs and listener calls only grow; only the token preference changes ---------------- */

  /** Applying effects never removes from the channel or the callbacks, and writes no preference but the token's. */
  lemma {:induction false} PerformAllOnlyAppends(d: Device, effects: seq<Effect>)
    requires forall i :: 0 <= i < |effects| ==> effects[i].PutString? ==> effects[i].key == PreferenceKeyPushToken
    ensures var r := PerformAll(d, effects);
      && d.channel <= r.channel
      && d.callbacks <= r.callbacks
      && r.prefs.Keys <= d.prefs.Keys + {PreferenceKeyPushToken}
      && (forall k :: k in d.prefs && k != PreferenceKeyPushToken ==> k in r.prefs && r.prefs[k] == d.prefs[k])
    decreases |effects|
  {
    if effects != [] {
      PerformAllOnlyAppends(Perform(d, effects[0]), effects[1..]);
    }
  }

  /** The only preference any transition writes is the push token. */
  lemma TransitionWritesOnlyToken(s: PushState, d: Device, ev: Event)
    ensures var effects := Transition(s, d, ev).effects;
      forall i :: 0 <= i < |effects| ==> effects[i].PutString? ==> effects[i].key == PreferenceKeyPushToken
  {
  }

  /**
   Over any run, the channel and the listener's calls are only appended to, and
   every preference other than the push token keeps its value.
   */
  lemma {:induction false} RunOnlyAppends(sys: System, events: seq<Event>)
    ensures var r := Run(sys, events).device;
      && sys.device.channel <= r.channel
      && sys.device.callbacks <= r.callbacks
      && r.prefs.Keys <= sys.device.prefs.Keys + {PreferenceKeyPushToken}
      && (forall k :: k in sys.device.prefs && k != PreferenceKeyPushToken ==> k in r.prefs && r.prefs[k] == sys.device.prefs[k])
    decreases |events|
  {
    if events != [] {
      var ev := events[0];
      var d := if ev.UiRun? && sys.device.uiQueue != [] then sys.device.(uiQueue := sys.device.uiQueue[1..]) else sys.device;
      TransitionWritesOnlyToken(sys.push, sys.device, ev);
      PerformAllOnlyAppends(d, Transition(sys.push, sys.device, ev).effects);
      RunOnlyAppends(Next(sys, ev), events[1..]);
    }
  }

  /* ---------------- Clicked notifications over a run ---------------- */

  /** The activity an event asks the service to inspect, if it is one of the three inspecting callbacks. */
  function Inspected(ev: Event): (r: Option<Activity>)
    ensures r.Some? <==> ev.ActivityCreated? || ev.ActivityStarted? || ev.ActivityResumed?
    ensures r.Some? ==> r.value == ev.a
  {
    match ev
    case ActivityCreated(a) => Some(a)
    case ActivityStarted(a) => Some(a)
    case ActivityResumed(a) => Some(a)
    case _ => None
  }

  /** Created, started and resumed all hand their activity to the clicked-notification inspection. */
  lemma InspectingEventsCheckIntent(s: PushState, d: Device, ev: Event)
    requires Inspected(ev).Some?
    ensures Transition(s, d, ev) == CheckPushInActivityIntent(s, ev.a)
  {
  }

  /**
   An inspecting event adds to the listener's calls exactly the clicked
   notification it detects, if any: the activity with a notification without
   title or message carrying the custom data.
   */
  lemma InspectingEventRecordsClickCallback(sys: System, ev: Event)
    requires Inspected(ev).Some?
    ensures var a := ev.a;
      Next(sys, ev).device.callbacks == sys.device.callbacks +
        (if ClickDetected(sys.push, a)
         then [Callback(Some(a), PushNotification(None, None, CustomData(a.extras.value)))]
         else [])
  {
    var a := ev.a;
    var effects := CheckPushInActivityIntent(sys.push, a).effects;
    if ClickDetected(sys.push, a) {
      assert PerformAll(sys.device, effects) == PerformAll(Perform(sys.device, effects[0]), []);
    }
  }

  /** Over a run, the run adds at least as many listener calls as it reports clicked ids. */
  lemma {:induction false} ClickedIdsAreCallbacks(sys: System, events: seq<Event>)
    ensures |Run(sys, events).device.callbacks| >= |sys.device.callbacks| + |ClickedIds(sys, events)|
    decreases |events|
  {
    if events != [] {
      var ev := events[0];
      var next := Next(sys, ev);
      ClickedIdsAreCallbacks(next, events[1..]);
      if Inspected(ev).Some? {
        InspectingEventRecordsClickCallback(sys, ev);
      } else {
        var d := if ev.UiRun? && sys.device.uiQueue != [] then sys.device.(uiQueue := sys.device.uiQueue[1..]) else sys.device;
        PerformAllOnlyAppends(d, Transition(sys.push, sys.device, ev).effects);
      }
    }
  }

  /** The message ids of the clicked notifications reported to the listener over a run, in order. */
  function ClickedIds(sys: System, events: seq<Event>): seq<string>
    decreases |events|
  {
    if events == [] then []
    else
      var ev := events[0];
      var here := if Inspected(ev).Some? && ClickDetected(sys.push, Inspected(ev).value)
        then [Inspected(ev).value.extras.value[MessageIdKey]] else [];
      here + ClickedIds(Next(sys, ev), events[1..])
  }

  /** Only a reported click changes the last message id. */
  lemma NextKeepsLastIdUnlessClicked(sys: System, ev: Event)
    requires !(Inspected(ev).Some? && ClickDetected(sys.push, Inspected(ev).value))
    ensures Next(sys, ev).push.lastGoogleMessageId == sys.push.lastGoogleMessageId
  {
  }

  /**
   Over any run, the listener is never told of the same clicked message twice in
   a row: consecutive reported ids differ, the first differs from the id last
   reported before the run, and the run ends remembering the last one reported.
   */
  lemma {:induction false} ClickedIdsNeverRepeatConsecutively(sys: System, events: seq<Event>)
    ensures var ids := ClickedIds(sys, events);
      && (forall i :: 0 <= i < |ids| - 1 ==> ids[i] != ids[i + 1])
      && (|ids| > 0 ==> sys.push.lastGoogleMessageId != Some(ids[0]))
      && Run(sys, events).push.lastGoogleMessageId ==
           (if |ids| > 0 then Some(ids[|ids| - 1]) else sys.push.lastGoogleMessageId)
    decreases |events|
  {
    if events != [] {
      var ev := events[0];
      var next := Next(sys, ev);
      ClickedIdsNeverRepeatConsecutively(next, events[1..]);
      var rest := ClickedIds(next, events[1..]);
      if Inspected(ev).Some? && ClickDetected(sys.push, Inspected(ev).value) {
        var id := Inspected(ev).value.extras.value[MessageIdKey];
        assert next.push.lastGoogleMessageId == Some(id);
        assert ClickedIds(sys, events) == [id] + rest;
      } else {
        NextKeepsLastIdUnlessClicked(sys, ev);
        assert ClickedIds(sys, events) == rest;
      }
    }
  }

  /**
   Deduplication is against the last reported id only: notifications A, B, A
   clicked in turn are all three reported.
   */
  lemma AlternatingClicksAreAllReported()
    ensures var s := System(PushState(None, None, true, true, true, None), Device(map[], [], [], []));
      var a := Activity(1, Some(map[MessageIdKey := "A"]));
      var b := Activity(2, Some(map[MessageIdKey := "B"]));
      ClickedIds(s, [ActivityResumed(a), ActivityResumed(b), ActivityResumed(a)]) == ["A", "B", "A"]
  {
    var s := System(PushState(None, None, true, true, true, None), Device(map[], [], [], []));
    var a := Activity(1, Some(map[MessageIdKey := "A"]));
    var b := Activity(2, Some(map[MessageIdKey := "B"]));
    var s1 := Next(s, ActivityResumed(a));
    assert s1.push.lastGoogleMessageId == Some("A");
    var s2 := Next(s1, ActivityResumed(b));
    assert s2.push.lastGoogleMessageId == Some("B");
    var s3 := Next(s2, ActivityResumed(a));
    assert ClickedIds(s2, [ActivityResumed(a)]) == ["A"];
    assert ClickedIds(s1, [ActivityResumed(b), ActivityResumed(a)]) == ["B", "A"];
  }

  /* ---------------- Foreground delivery ---------------- */

  /**
   When the UI thread runs a posted delivery, the listener is called exactly when
   the service is enabled and a listener is set at that moment, with the then
   current activity; the delivery leaves the queue either way.
   */
  lemma UiRunDeliversOnlyIfStillEnabled(sys: System)
    requires sys.device.uiQueue != []
    ensures var after := Next(sys, UiRun);
      && after.push == sys.push
      && after.device.uiQueue == sys.device.uiQueue[1..]
      && (sys.push.enabled && sys.push.listenerSet ==>
            after.device.callbacks == sys.device.callbacks + [Callback(sys.push.activity, sys.device.uiQueue[0])])
      && (!(sys.push.enabled && sys.push.listenerSet) ==> after.device.callbacks == sys.device.callbacks)
  {
    var n := sys.device.uiQueue[0];
    var d := sys.device.(uiQueue := sys.device.uiQueue[1..]);
    if sys.push.enabled && sys.push.listenerSet {
      var effects := [NotifyListener(sys.push.activity, n)];
      assert PerformAll(d, effects) == PerformAll(Perform(d, effects[0]), []);
    }
  }
}
