/**
 The transitions of the Push service. Each call of the service becomes a pure
 function from the current state (and the call's inputs) to a `Step`: the new
 state and the effects emitted, in order.

 Inputs the service obtains from code outside this model are parameters:
 `inactive` is the superclass's verdict on whether the service may act, and
 `providerToken` is the token the push provider hands out (None for null).
 */
module Push {
  import opened Wrappers
  import opened PushTypes

  /** The effects of sending a push installation log for `token` to the channel. */
  function EnqueuePushInstallationLog(token: string): (r: seq<Effect>)
    ensures |r| == 1 && r[0].Enqueue?
    ensures r[0].log.pushToken == token && r[0].group == "group_push"
  {
    [Enqueue(PushInstallationLog(token), PushGroup)]
  }

  /**
   The provider issued `token`. Nothing happens while the service is inactive or
   when `token` is the cached one; otherwise the token is stored in the
   preferences, sent to the channel once and cached, and nothing else changes.
   */
  function OnTokenRefresh(s: PushState, token: string, inactive: bool): (r: Step)
    ensures inactive ==> r == Step(s, [])
    ensures !inactive && s.pushToken == Some(token) ==> r == Step(s, [])
    ensures !inactive && s.pushToken != Some(token) ==>
      && r.state == s.(pushToken := Some(token))
      && r.effects == [PutString("Push.push_token", token), Enqueue(PushInstallationLog(token), "group_push")]
  {
    PreferenceKeyPushTokenValue();
    if inactive then Step(s, [])
    else if s.pushToken.Some? && s.pushToken.value == token then Step(s, [])
    else Step(s.(pushToken := Some(token)),
              [PutString(PreferenceKeyPushToken, token)] + EnqueuePushInstallationLog(token))
  }

  /**
   React to the enabled state `enabled`. Enabled with a channel, the provider's
   token (when there is one) is handled as a token refresh; in every other case
   the cached token is forgotten. The last clicked message id is never reset.
   */
  function ApplyEnabledState(s: PushState, enabled: bool, providerToken: Option<string>, inactive: bool): (r: Step)
    ensures !(enabled && s.hasChannel) ==> r == Step(s.(pushToken := None), [])
    ensures enabled && s.hasChannel && providerToken.None? ==> r == Step(s, [])
    ensures enabled && s.hasChannel && providerToken.Some? ==> r == OnTokenRefresh(s, providerToken.value, inactive)
    ensures r.state.lastGoogleMessageId == s.lastGoogleMessageId
  {
    if enabled && s.hasChannel then
      match providerToken
      case Some(token) => OnTokenRefresh(s, token, inactive)
      case None => Step(s, [])
    else
      Step(s.(pushToken := None), [])
  }

  /**
   Enable or disable the service: the superclass records the flag, then the
   enabled state is applied.
   */
  function SetInstanceEnabled(s: PushState, enabled: bool, providerToken: Option<string>, inactive: bool): (r: Step)
    ensures r.state.enabled == enabled
    ensures r == ApplyEnabledState(s.(enabled := enabled), enabled, providerToken, inactive)
  {
    ApplyEnabledState(s.(enabled := enabled), enabled, providerToken, inactive)
  }

  /**
   The SDK started the service. `channelPresent` says whether the superclass's
   start left a channel in place; then the current enabled state is applied.
   Firebase analytics handling is not part of this model.
   */
  function OnStarted(s: PushState, channelPresent: bool, providerToken: Option<string>, inactive: bool): (r: Step)
    ensures r.state.hasChannel == channelPresent && r.state.enabled == s.enabled
    ensures r == ApplyEnabledState(s.(hasChannel := channelPresent), s.enabled, providerToken, inactive)
  {
    ApplyEnabledState(s.(hasChannel := channelPresent), s.enabled, providerToken, inactive)
  }

  /** Register (`present`) or remove the application's listener. */
  function SetInstanceListener(s: PushState, present: bool): (r: Step)
    ensures r == Step(s.(listenerSet := present), [])
  {
    Step(s.(listenerSet := present), [])
  }

  /** The message id an intent's extras carry, if any. */
  function MessageId(extras: Extras): (r: Option<string>)
    ensures r.Some? <==> MessageIdKey in extras
    ensures r.Some? ==> r.value == extras[MessageIdKey]
  {
    if MessageIdKey in extras then Some(extras[MessageIdKey]) else None
  }

  /**
   Whether inspecting `a` in state `s` finds a clicked notification to report:
   the service is enabled, a listener is set, the intent has extras carrying a
   message id, and that id differs from the last one reported.
   */
  predicate ClickDetected(s: PushState, a: Activity)
  {
    && s.enabled
    && s.listenerSet
    && a.extras.Some?
    && MessageIdKey in a.extras.value
    && s.lastGoogleMessageId != Some(a.extras.value[MessageIdKey])
  }

  /**
   Inspect the intent of activity `a` (created, started or resumed) for a
   notification the user clicked. The activity always becomes the current one.
   A detected click records its id as the last one seen and calls the listener
   with `a` and a notification without title or message whose custom data is
   the non-standard extras.
   */
  function CheckPushInActivityIntent(s: PushState, a: Activity): (r: Step)
    ensures r.state.activity == Some(a)
    ensures ClickDetected(s, a) ==>
      && r.state == s.(activity := Some(a), lastGoogleMessageId := Some(a.extras.value[MessageIdKey]))
      && r.effects == [NotifyListener(Some(a), PushNotification(None, None, CustomData(a.extras.value)))]
    ensures !ClickDetected(s, a) ==> r == Step(s.(activity := Some(a)), [])
  {
    var s1 := s.(activity := Some(a));
    if s.enabled && s.listenerSet then
      match a.extras
      case None => Step(s1, [])
      case Some(extras) =>
        match MessageId(extras)
        case Some(id) =>
          if s.lastGoogleMessageId != Some(id) then
            Step(s1.(lastGoogleMessageId := Some(id)),
                 [NotifyListener(Some(a), PushNotification(None, None, CustomData(extras)))])
          else Step(s1, [])
        case None => Step(s1, [])
    else Step(s1, [])
  }

  /** An activity was paused: whichever it was, there is no current activity any more. */
  function OnActivityPaused(s: PushState, a: Activity): (r: Step)
    ensures r == Step(s.(activity := None), [])
  {
    Step(s.(activity := None), [])
  }

  /** The notification the listener receives for a foreground message. */
  function ForegroundNotification(m: RemoteMessage): (n: PushNotification)
    ensures m.notification.None? ==> n.title.None? && n.message.None?
    ensures m.notification.Some? ==> n.title == m.notification.value.title && n.message == m.notification.value.body
    ensures n.customData == m.data
  {
    match m.notification
    case Some(notification) => PushNotification(notification.title, notification.body, m.data)
    case None => PushNotification(None, None, m.data)
  }

  /**
   A message arrived while the application is in the foreground. When the
   service is enabled and a listener is set, its delivery is posted to the UI
   thread; the state does not change.
   */
  function OnMessageReceived(s: PushState, m: RemoteMessage): (r: Step)
    ensures r.state == s
    ensures s.enabled && s.listenerSet ==> r.effects == [PostToUi(ForegroundNotification(m))]
    ensures !(s.enabled && s.listenerSet) ==> r.effects == []
  {
    if s.enabled && s.listenerSet then Step(s, [PostToUi(ForegroundNotification(m))])
    else Step(s, [])
  }

  /**
   The UI thread runs a posted delivery. The enabled flag and the listener are
   checked again against the state at this later point; if both still hold the
   listener receives the current activity and the notification.
   */
  function DeliverForegroundPushNotification(s: PushState, n: PushNotification): (r: Step)
    ensures r.state == s
    ensures s.enabled && s.listenerSet ==> r.effects == [NotifyListener(s.activity, n)]
    ensures !(s.enabled && s.listenerSet) ==> r.effects == []
  {
    if s.enabled && s.listenerSet then Step(s, [NotifyListener(s.activity, n)])
    else Step(s, [])
  }
}
