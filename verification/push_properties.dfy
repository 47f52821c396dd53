/**
 Properties relating several transitions of the Push service: token
 deduplication and reset, at-most-once reporting of a clicked notification,
 the custom data of a clicked notification, and the re-check made when a
 foreground notification is finally delivered.
 */
module PushProperties {
  import opened Wrappers
  import opened PushTypes
  import opened Push

  /* ---------------- Push token ---------------- */

  /** `n` consecutive refreshes with the same token, with their effects concatenated. */
  function RefreshRepeatedly(s: PushState, token: string, inactive: bool, n: nat): Step
    decreases n
  {
    if n == 0 then Step(s, [])
    else
      var first := OnTokenRefresh(s, token, inactive);
      var rest := RefreshRepeatedly(first.state, token, inactive, n - 1);
      Step(rest.state, first.effects + rest.effects)
  }

  /** Refreshing twice with the same token is the same as refreshing once: the second call does nothing. */
  lemma RefreshIdempotent(s: PushState, token: string, inactive: bool)
    ensures var once := OnTokenRefresh(s, token, inactive);
      OnTokenRefresh(once.state, token, inactive) == Step(once.state, [])
  {
  }

  /** Once a refresh is a no-op (inactive service, or token already cached), any number of further ones are too. */
  lemma {:induction false} NoOpRefreshStaysNoOp(s: PushState, token: string, inactive: bool, n: nat)
    requires inactive || s.pushToken == Some(token)
    ensures RefreshRepeatedly(s, token, inactive, n) == Step(s, [])
    decreases n
  {
    if n > 0 {
      NoOpRefreshStaysNoOp(s, token, inactive, n - 1);
    }
  }

  /**
   However many times the same token is refreshed, at most one installation log
   is enqueued: exactly one, carrying the token, when the service is active and
   the token is not the cached one, and none otherwise. The token ends up cached
   whenever the service was active.
   */
  lemma {:induction false} RefreshRepeatedlyEnqueuesAtMostOnce(s: PushState, token: string, inactive: bool, n: nat)
    requires n >= 1
    ensures var r := RefreshRepeatedly(s, token, inactive, n);
      && InstallationLogs(r.effects) == (if !inactive && s.pushToken != Some(token) then [PushInstallationLog(token)] else [])
      && (!inactive ==> r.state.pushToken == Some(token))
      && (inactive ==> r.state == s)
  {
    var first := OnTokenRefresh(s, token, inactive);
    NoOpRefreshStaysNoOp(first.state, token, inactive, n - 1);
    var rest := RefreshRepeatedly(first.state, token, inactive, n - 1);
    assert rest == Step(first.state, []);
    InstallationLogsAppend(first.effects, rest.effects);
    if !inactive && s.pushToken != Some(token) {
      assert first.effects == [PutString("Push.push_token", token), Enqueue(PushInstallationLog(token), "group_push")];
      assert InstallationLogs(first.effects[1..]) == [PushInstallationLog(token)];
    }
  }

  /**
   Disabling the service, or applying the enabled state without a channel,
   forgets the cached token, so a later refresh with the very token that was
   cached stores and enqueues it again.
   */
  lemma ResetThenRefreshEnqueuesAgain(s: PushState, enabled: bool, providerToken: Option<string>, inactive: bool)
    requires s.pushToken.Some?
    requires !enabled || !s.hasChannel
    ensures var reset := ApplyEnabledState(s, enabled, providerToken, inactive);
      && reset.state.pushToken == None
      && reset.effects == []
      && InstallationLogs(OnTokenRefresh(reset.state, s.pushToken.value, false).effects) == [PushInstallationLog(s.pushToken.value)]
  {
  }

  /**
   Disabling and then re-enabling a started service sends the token it had
   cached once more: re-enabling fetches the provider token and refreshes with it.
   */
  lemma DisableThenEnableResendsToken(s: PushState, token: string, inactive: bool)
    requires s.pushToken == Some(token) && s.hasChannel
    ensures var disabled := SetInstanceEnabled(s, false, None, inactive);
      var enabled := SetInstanceEnabled(disabled.state, true, Some(token), false);
      && disabled.effects == []
      && InstallationLogs(enabled.effects) == [PushInstallationLog(token)]
      && enabled.state.pushToken == Some(token)
  {
  }

  /**
   Enabling a service that has a channel and a provider token behaves exactly
   as a refresh with that token; without a provider token it changes nothing.
   */
  lemma EnableWithChannelIsRefresh(s: PushState, providerToken: Option<string>, inactive: bool)
    requires s.hasChannel
    ensures providerToken.Some? ==>
      SetInstanceEnabled(s, true, providerToken, inactive) == OnTokenRefresh(s.(enabled := true), providerToken.value, inactive)
    ensures providerToken.None? ==>
      SetInstanceEnabled(s, true, providerToken, inactive) == Step(s.(enabled := true), [])
  {
  }

  /* ---------------- Clicked notifications ---------------- */

  /**
   Immediately after a clicked notification has been reported, inspecting any
   activity whose intent carries the same message id reports nothing, whatever
   else it holds. Only the last reported id is remembered, so the same id can
   be reported again after another one.
   */
  lemma ClickNotReportedTwiceInARow(s: PushState, a: Activity, b: Activity)
    requires ClickDetected(s, a)
    requires b.extras.Some? && MessageIdKey in b.extras.value
    requires b.extras.value[MessageIdKey] == a.extras.value[MessageIdKey]
    ensures var first := CheckPushInActivityIntent(s, a);
      && |first.effects| == 1
      && CheckPushInActivityIntent(first.state, b).effects == []
  {
  }

  /**
   The last reported message id survives disabling and re-enabling the service:
   a clicked notification reported before is not reported again afterwards.
   */
  lemma ReEnableDoesNotRepeatClick(s: PushState, a: Activity, providerToken: Option<string>, inactive: bool)
    requires ClickDetected(s, a)
    ensures var clicked := CheckPushInActivityIntent(s, a).state;
      var disabled := SetInstanceEnabled(clicked, false, None, inactive).state;
      var enabled := SetInstanceEnabled(disabled, true, providerToken, inactive).state;
      && !disabled.enabled && enabled.enabled
      && CheckPushInActivityIntent(enabled, a).effects == []
  {
  }

  /**
   Inspecting an activity records it as the current one even when the service is
   disabled or has no listener, and then reports nothing.
   */
  lemma InspectionAlwaysRecordsActivity(s: PushState, a: Activity)
    requires !s.enabled || !s.listenerSet
    ensures CheckPushInActivityIntent(s, a) == Step(s.(activity := Some(a)), [])
  {
  }

  /**
   The custom data and the standard extras together make up the extras: no
   extra is lost or altered, and the two parts are disjoint.
   */
  lemma CustomDataSplitsExtras(extras: Extras)
    ensures var standard := map k | k in extras && k in StandardKeys :: extras[k];
      && CustomData(extras).Keys !! standard.Keys
      && CustomData(extras) + standard == extras
  {
  }

  /** The custom data never holds any of the four standard keys, the message id included. */
  lemma CustomDataOmitsStandardKeys(extras: Extras)
    ensures MessageIdKey !in CustomData(extras)
    ensures "google.sent_time" !in CustomData(extras)
    ensures "collapse_key" !in CustomData(extras)
    ensures "from" !in CustomData(extras)
  {
  }

  /** Extras without standard keys are their own custom data; taking custom data twice changes nothing. */
  lemma CustomDataIdempotent(extras: Extras)
    ensures CustomData(CustomData(extras)) == CustomData(extras)
    ensures extras.Keys !! StandardKeys ==> CustomData(extras) == extras
  {
  }

  /* ---------------- Foreground messages and activities ---------------- */

  /**
   A foreground message whose delivery was posted is not delivered if, before
   the UI thread runs it, the service was disabled or the listener removed.
   */
  lemma DeliveryRechecksState(s: PushState, m: RemoteMessage, providerToken: Option<string>, inactive: bool)
    requires s.enabled && s.listenerSet
    ensures OnMessageReceived(s, m).effects == [PostToUi(ForegroundNotification(m))]
    ensures var disabled := SetInstanceEnabled(s, false, providerToken, inactive).state;
      DeliverForegroundPushNotification(disabled, ForegroundNotification(m)).effects == []
    ensures var unlistened := SetInstanceListener(s, false).state;
      DeliverForegroundPushNotification(unlistened, ForegroundNotification(m)).effects == []
  {
  }

  /**
   A delivery hands the listener the activity current when it runs: after a
   pause that is no activity at all, whichever activity was paused.
   */
  lemma DeliveryAfterPauseHasNoActivity(s: PushState, a: Activity, n: PushNotification)
    requires s.enabled && s.listenerSet
    ensures var paused := OnActivityPaused(s, a).state;
      DeliverForegroundPushNotification(paused, n).effects == [NotifyListener(None, n)]
  {
  }
}
