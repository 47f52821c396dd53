/**
 The values the Push service works with: its constants, the records Android and
 Firebase hand to it (reduced to plain values), the state it keeps between calls
 and the effects a call has on the world outside it.
 */
module PushTypes {
  import opened Wrappers

  /** Intent extras key holding the Google message identifier. */
  const MessageIdKey: string := "google.message_id"

  /** Intent extras that are not part of a notification's custom data. */
  const StandardKeys: set<string> := {MessageIdKey, "google.sent_time", "collapse_key", "from"}

  /** Name of the service, also the base of its preference keys. */
  const ServiceName: string := "Push"

  /** Channel group that push installation logs are enqueued to. */
  const PushGroup: string := "group_push"

  /** Prefix shared by every preference key of the service. */
  const PreferencePrefix: string := ServiceName + "."

  /** Preference key under which the push token is stored. */
  const PreferenceKeyPushToken: string := PreferencePrefix + "push_token"

  /** The preference key spelled out: the service name, a dot, then "push_token". */
  lemma PreferenceKeyPushTokenValue()
    ensures PreferenceKeyPushToken == "Push.push_token"
    ensures PreferenceKeyPushToken[..|PreferencePrefix|] == PreferencePrefix
  {
  }

  /** An intent's extras bundle, restricted to string values. */
  type Extras = map<string, string>

  /** An activity, identified by `id`, with the extras of the intent that started it. */
  datatype Activity = Activity(id: nat, extras: Option<Extras>)

  /** The notification part of a Firebase message; each field may be null. */
  datatype Notification = Notification(title: Option<string>, body: Option<string>)

  /** A Firebase message received while the application is in the foreground. */
  datatype RemoteMessage = RemoteMessage(messageId: Option<string>, notification: Option<Notification>, data: map<string, string>)

  /** What the application's listener receives. */
  datatype PushNotification = PushNotification(title: Option<string>, message: Option<string>, customData: map<string, string>)

  /** The log Push enqueues to the channel when a new push token is known. */
  datatype PushInstallationLog = PushInstallationLog(pushToken: string)

  /**
   The state of the Push service between calls:
   - `pushToken`: the last push token sent to the channel (the cached token);
   - `lastGoogleMessageId`: the id of the last clicked notification delivered;
   - `enabled`: the service's enabled flag;
   - `hasChannel`: whether the service was started with a channel;
   - `listenerSet`: whether the application registered a listener;
   - `activity`: the activity currently in the foreground, if known.
   */
  datatype PushState = PushState(
    pushToken: Option<string>,
    lastGoogleMessageId: Option<string>,
    enabled: bool,
    hasChannel: bool,
    listenerSet: bool,
    activity: Option<Activity>)

  /** Observable effects of a transition, in the order they happen. */
  datatype Effect =
    | PutString(key: string, value: string)                            // preference write
    | Enqueue(log: PushInstallationLog, group: string)                 // log sent to the channel
    | NotifyListener(activity: Option<Activity>, notification: PushNotification)  // listener callback
    | PostToUi(notification: PushNotification)                         // delivery posted to the UI thread

  /** A transition's outcome: the new state and the effects it emitted. */
  datatype Step = Step(state: PushState, effects: seq<Effect>)

  /**
   The custom data of a clicked notification: every extra whose key is not one
   of the standard keys, with its value.
   */
  function CustomData(extras: Extras): (r: map<string, string>)
    ensures r.Keys == extras.Keys - StandardKeys
    ensures forall k :: k in r ==> r[k] == extras[k]
  {
    map k | k in extras && k !in StandardKeys :: extras[k]
  }

  /** The installation logs among `effects`, in the order they were enqueued. */
  function InstallationLogs(effects: seq<Effect>): (r: seq<PushInstallationLog>)
    ensures |r| <= |effects|
    ensures (forall i :: 0 <= i < |effects| ==> !effects[i].Enqueue?) ==> r == []
  {
    if effects == [] then []
    else (if effects[0].Enqueue? then [effects[0].log] else []) + InstallationLogs(effects[1..])
  }

  /** Collecting logs distributes over concatenation of effect sequences. */
  lemma {:induction false} InstallationLogsAppend(a: seq<Effect>, b: seq<Effect>)
    ensures InstallationLogs(a + b) == InstallationLogs(a) + InstallationLogs(b)
    decreases |a|
  {
    if a == [] {
      assert a + b == b;
    } else {
      assert (a + b)[0] == a[0];
      assert (a + b)[1..] == a[1..] + b;
      assert InstallationLogs(a + b) ==
        (if a[0].Enqueue? then [a[0].log] else []) + InstallationLogs(a[1..] + b);
      InstallationLogsAppend(a[1..], b);
    }
  }
}
