# Push service and no-op crypto handler — a Dafny model

This project models two pieces of the Mobile Center Android SDK.

**The `Push` service** registers the app for push notifications. It receives push tokens from Firebase. It forwards each new token to the ingestion channel as a push installation log. It reports notifications to the application's `PushListener`: both notifications the user clicked in the notification centre and messages received while the app is in the foreground.

Each call of the service is a pure function from a `PushState` record to a `Step`. A `Step` holds the new state and the list of effects, in order. The state holds:

- the cached push token;
- the last clicked Google message id;
- the enabled flag;
- whether a channel is present;
- whether a listener is set;
- the current activity.

There are four kinds of effect: a preference write, a log enqueued to a channel group, a listener callback, and a delivery posted to the UI thread.

`PushDevice` applies these effects to a world made of:

- a preferences map;
- an append-only channel of (log, group) entries: the logs Push itself enqueued;
- the list of listener calls;
- the queue of posted deliveries.

Event traces are run over this world. That is where the properties over many calls live: the cached token stays on record; Push's enqueued logs and the listener calls only grow, and no preference but the push token changes; and a clicked message id is never reported twice in a row. An inspecting event records exactly the click it reports as a listener call. The proofs of substance are these run invariants, chiefly `PushDevice.RunKeepsTokenOnRecord` and `PushDevice.ClickedIdsNeverRepeatConsecutively`.

**`CryptoNoOpHandler`** is the identity strategy of the SDK's encryption abstraction. It encrypts and decrypts by returning the bytes unchanged, whatever factory, API level or key store entry it is given. Its algorithm name is `"None"`, and key generation does nothing.

Inputs from code outside the model are parameters:

- `isInactive()` of the superclass is the `inactive` flag.
- The token `FirebaseInstanceId.getToken()` returns is `providerToken: Option<string>`.
- Whether `super.onStarted` left a channel in place is the `channelPresent` flag.
- `super.setInstanceEnabled` is taken to set the enabled flag, as the service interface describes.

Intent extras are `map<string, string>`. An activity is an id together with its intent's extras, if any.

Files:

- `wrappers.dfy`: `Option`.
- `push_types.dfy`: constants, records, effects, custom data.
- `push.dfy`: the transitions.
- `push_properties.dfy`: lemmas relating transitions.
- `push_device.dfy`: the world, event runs and the invariants over runs.
- `crypto.dfy`: the no-op handler.

Clicked-notification deduplication compares only against the last reported id (`mLastGoogleMessageId`). The guarantee is therefore "never the same id twice in a row", not "once per distinct id". `PushDevice.ClickedIdsNeverRepeatConsecutively` proves the first. `PushDevice.AlternatingClicksAreAllReported` shows that clicks on A, B, A are all three reported.

## Model

| member | source | states |
|---|---|---|
| PushTypes.PreferenceKeyPushTokenValue | sdk/mobile-center-push/src/main/java/com/microsoft/azure/mobile/push/Push.java:68-74 | the push token preference key is `"Push.push_token"`, the service name followed by a dot |
| PushTypes.CustomData | sdk/mobile-center-push/src/main/java/com/microsoft/azure/mobile/push/Push.java:323-330 | a clicked notification's custom data has exactly the extras' keys minus the four standard keys, each with its extra's value |
| Push.EnqueuePushInstallationLog | sdk/mobile-center-push/src/main/java/com/microsoft/azure/mobile/push/Push.java:196-200 | exactly one log is enqueued; it is an installation log carrying the token, in group `"group_push"` |
| Push.OnTokenRefresh | sdk/mobile-center-push/src/main/java/com/microsoft/azure/mobile/push/Push.java:207-216 | inactive: no effect and no state change; token equal to the cached one: likewise; otherwise the token is written under `"Push.push_token"`, then one installation log is enqueued to `"group_push"`, the token becomes the cached one and nothing else changes |
| Push.ApplyEnabledState | sdk/mobile-center-push/src/main/java/com/microsoft/azure/mobile/push/Push.java:223-234 | not (enabled with a channel): the cached token becomes null and nothing is emitted; enabled with a channel: a null provider token changes nothing and a non-null one acts as a token refresh; the last message id is kept in every case |
| Push.SetInstanceEnabled | sdk/mobile-center-push/src/main/java/com/microsoft/azure/mobile/push/Push.java:271-275 | the enabled flag takes the new value, then the enabled state is applied with it |
| Push.OnStarted | sdk/mobile-center-push/src/main/java/com/microsoft/azure/mobile/push/Push.java:262-264 | after the superclass start sets the channel presence, the current enabled flag is applied |
| Push.SetInstanceListener | sdk/mobile-center-push/src/main/java/com/microsoft/azure/mobile/push/Push.java:280-282 | only the listener presence changes; nothing is emitted |
| Push.MessageId | sdk/mobile-center-push/src/main/java/com/microsoft/azure/mobile/push/Push.java:319 | the message id is present exactly when the extras hold `"google.message_id"`, and it is that extra's value |
| Push.CheckPushInActivityIntent | sdk/mobile-center-push/src/main/java/com/microsoft/azure/mobile/push/Push.java:314-336 | the activity always becomes the current one; the listener is called, once, exactly when the service is enabled, a listener is set, there are extras, and they carry a message id different from the last one; it is then called with the activity and a notification with null title and message and the custom data, and the id is remembered; otherwise nothing else changes |
| Push.OnActivityPaused | sdk/mobile-center-push/src/main/java/com/microsoft/azure/mobile/push/Push.java:305-307 | the current activity is cleared, whichever activity paused; nothing else changes |
| Push.ForegroundNotification | sdk/mobile-center-push/src/main/java/com/microsoft/azure/mobile/push/Push.java:346-353 | title and message come from the message's notification part when it is present, and are null otherwise; the data map is the message's data |
| Push.OnMessageReceived | sdk/mobile-center-push/src/main/java/com/microsoft/azure/mobile/push/Push.java:343-362 | the state never changes; a delivery is posted to the UI thread exactly when the service is enabled and a listener is set |
| Push.DeliverForegroundPushNotification | sdk/mobile-center-push/src/main/java/com/microsoft/azure/mobile/push/Push.java:367-373 | the state never changes; the listener is called with the current activity exactly when the service is enabled and a listener is set at delivery time |
| PushProperties.RefreshIdempotent | sdk/mobile-center-push/src/main/java/com/microsoft/azure/mobile/push/Push.java:210-211 | a second refresh with the same token does nothing |
| PushProperties.NoOpRefreshStaysNoOp | sdk/mobile-center-push/src/main/java/com/microsoft/azure/mobile/push/Push.java:207-211 | after one refresh is a no-op, any number of further refreshes with that token are no-ops too |
| PushProperties.RefreshRepeatedlyEnqueuesAtMostOnce | sdk/mobile-center-push/src/main/java/com/microsoft/azure/mobile/push/Push.java:207-216 | n refreshes with the same token enqueue exactly one log carrying it when the service is active and the token is not cached, and none otherwise |
| PushProperties.ResetThenRefreshEnqueuesAgain | sdk/mobile-center-push/src/main/java/com/microsoft/azure/mobile/push/Push.java:223-233 | disabling, or applying the enabled state without a channel, forgets the cached token, so refreshing with that same token enqueues it again |
| PushProperties.DisableThenEnableResendsToken | sdk/mobile-center-push/src/main/java/com/microsoft/azure/mobile/push/Push.java:272-274 | disabling a started service with a cached token and then re-enabling it with that provider token enqueues the token's installation log once more and caches it again |
| PushProperties.EnableWithChannelIsRefresh | sdk/mobile-center-push/src/main/java/com/microsoft/azure/mobile/push/Push.java:224-228 | enabling with a channel and a provider token equals a refresh with that token; with no provider token only the flag changes |
| PushProperties.ClickNotReportedTwiceInARow | sdk/mobile-center-push/src/main/java/com/microsoft/azure/mobile/push/Push.java:320-322 | immediately after a click is reported, the next inspection of any activity carrying the same message id reports nothing |
| PushProperties.ReEnableDoesNotRepeatClick | sdk/mobile-center-push/src/main/java/com/microsoft/azure/mobile/push/Push.java:102-106 | disabling and then re-enabling does not clear the last message id, so the same click is not reported again |
| PushProperties.InspectionAlwaysRecordsActivity | sdk/mobile-center-push/src/main/java/com/microsoft/azure/mobile/push/Push.java:314-316 | when disabled or with no listener, inspection only records the activity |
| PushProperties.CustomDataSplitsExtras | sdk/mobile-center-push/src/main/java/com/microsoft/azure/mobile/push/Push.java:323-330 | the custom data and the standard extras are disjoint, and together they are exactly the extras |
| PushProperties.CustomDataOmitsStandardKeys | sdk/mobile-center-push/src/main/java/com/microsoft/azure/mobile/push/Push.java:41-48 | none of `google.message_id`, `google.sent_time`, `collapse_key`, `from` is ever in the custom data |
| PushProperties.CustomDataIdempotent | sdk/mobile-center-push/src/main/java/com/microsoft/azure/mobile/push/Push.java:325-329 | taking custom data twice changes nothing; extras without standard keys are their own custom data |
| PushProperties.DeliveryRechecksState | sdk/mobile-center-push/src/main/java/com/microsoft/azure/mobile/push/Push.java:367-372 | a posted foreground delivery does nothing if the service was disabled or the listener was removed before it ran |
| PushProperties.DeliveryAfterPauseHasNoActivity | sdk/mobile-center-push/src/main/java/com/microsoft/azure/mobile/push/Push.java:305-307 | a delivery after a pause gives the listener no activity |
| PushDevice.InactiveRefreshChangesNothing | sdk/mobile-center-push/src/main/java/com/microsoft/azure/mobile/push/Push.java:207-209 | a refresh while inactive leaves the state, the preferences, the channel and the listener calls unchanged |
| PushDevice.RefreshRecordsToken | sdk/mobile-center-push/src/main/java/com/microsoft/azure/mobile/push/Push.java:212-215 | a new token's effects set the preference to the token and append exactly one installation log to the channel |
| PushDevice.NextKeepsTokenOnRecord | sdk/mobile-center-push/src/main/java/com/microsoft/azure/mobile/push/Push.java:207-233 | every event preserves the invariant: a cached token is the stored preference, and the last log Push enqueued is its installation log in the push group |
| PushDevice.RunKeepsTokenOnRecord | sdk/mobile-center-push/src/main/java/com/microsoft/azure/mobile/push/Push.java:207-233 | any run of events preserves that invariant: the cached token is the stored preference and the last log Push enqueued |
| PushDevice.RefreshNeverRepeatsLastLog | sdk/mobile-center-push/src/main/java/com/microsoft/azure/mobile/push/Push.java:210-214 | while a token is cached, a refresh that enqueues adds a log that differs from the previous log Push enqueued |
| PushDevice.TransitionWritesOnlyToken | sdk/mobile-center-push/src/main/java/com/microsoft/azure/mobile/push/Push.java:213 | the only preference any transition writes is the push token key |
| PushDevice.RunOnlyAppends | sdk/mobile-center-push/src/main/java/com/microsoft/azure/mobile/push/Push.java:196-215 | over any run, Push's enqueued logs and the listener calls are only appended to, and Push writes no preference other than the push token |
| PushDevice.Inspected | sdk/mobile-center-push/src/main/java/com/microsoft/azure/mobile/push/Push.java:289-302 | created, started and resumed, and only these, inspect an activity, and the activity inspected is the event's own |
| PushDevice.InspectingEventsCheckIntent | sdk/mobile-center-push/src/main/java/com/microsoft/azure/mobile/push/Push.java:289-302 | created, started and resumed all dispatch to the clicked-notification inspection of their activity |
| PushDevice.InspectingEventRecordsClickCallback | sdk/mobile-center-push/src/main/java/com/microsoft/azure/mobile/push/Push.java:314-333 | an inspecting event adds to the listener's calls exactly the detected click (the activity, null title and message, the custom data) and nothing otherwise |
| PushDevice.ClickedIdsAreCallbacks | sdk/mobile-center-push/src/main/java/com/microsoft/azure/mobile/push/Push.java:320-332 | over any run, the run adds at least as many listener calls as it reports click ids |
| PushDevice.NextKeepsLastIdUnlessClicked | sdk/mobile-center-push/src/main/java/com/microsoft/azure/mobile/push/Push.java:320-322 | only a reported click changes the last message id; disabling does not |
| PushDevice.ClickedIdsNeverRepeatConsecutively | sdk/mobile-center-push/src/main/java/com/microsoft/azure/mobile/push/Push.java:314-333 | over any run, consecutive reported click ids differ, the first differs from the id remembered before the run, and the run ends remembering the last id reported |
| PushDevice.AlternatingClicksAreAllReported | sdk/mobile-center-push/src/main/java/com/microsoft/azure/mobile/push/Push.java:320-322 | deduplication is against the last id only: clicks on A, B, A are all reported |
| PushDevice.UiRunDeliversOnlyIfStillEnabled | sdk/mobile-center-push/src/main/java/com/microsoft/azure/mobile/push/Push.java:354-372 | a posted delivery leaves the queue when the UI thread runs it, and calls the listener with the then-current activity exactly when the service is enabled and a listener is set at that moment |
| CryptoNoOpHandler.GetAlgorithm | sdk/mobile-center/src/main/java/com/microsoft/azure/mobile/utils/crypto/CryptoNoOpHandler.java:13-15 | the algorithm name is always `"None"` |
| CryptoNoOpHandler.GenerateKey | sdk/mobile-center/src/main/java/com/microsoft/azure/mobile/utils/crypto/CryptoNoOpHandler.java:18-19 | generating a key leaves the key store unchanged |
| CryptoNoOpHandler.Encrypt | sdk/mobile-center/src/main/java/com/microsoft/azure/mobile/utils/crypto/CryptoNoOpHandler.java:22-24 | encryption returns its input, null or not, for every factory, API level and key entry, null included |
| CryptoNoOpHandler.Decrypt | sdk/mobile-center/src/main/java/com/microsoft/azure/mobile/utils/crypto/CryptoNoOpHandler.java:27-29 | decryption returns its input, null or not, for every factory, API level and key entry, null included |
| CryptoNoOpHandler.RoundTrip | sdk/mobile-center/src/main/java/com/microsoft/azure/mobile/utils/crypto/CryptoNoOpHandler.java:22-29 | decrypt(encrypt(d)) == d and encrypt(decrypt(d)) == d, even with different arguments on each side |
| CryptoNoOpHandler.ApplyCallsIsIdentity | sdk/mobile-center/src/main/java/com/microsoft/azure/mobile/utils/crypto/CryptoNoOpHandler.java:22-29 | any sequence of encrypt and decrypt calls, with any arguments, leaves the bytes unchanged |

## Left out

- Firebase calls (`FirebaseInstanceId.getToken`, `FirebaseAnalyticsUtils.setEnabled`) are foreign SDK calls. The provider token is an input. The `sFirebaseAnalyticsEnabled` handling in `onStarted` and `enableFirebaseAnalytics` is not modelled.
- `isInactive()`, `super.onStarted` and `super.setInstanceEnabled` belong to `AbstractMobileCenterService`, which is not part of this model. They are inputs, or the enabled flag being set.
- The `inactive` input is not tied to the enabled flag or to the channel's presence. The model therefore admits runs the program cannot have: for example, a disabled service with no channel caches a token and enqueues its log, where the program's `mChannel.enqueue` on a null channel would throw. Every run property proved holds for this larger set of runs, so it holds for the program's.
- The channel is modelled as the sequence of Push's own enqueues. Other services' logs in the same channel, and the batching and sending that `getGroupName` and `getTriggerCount` configure, are not modelled. So "last log" in the token invariant means the last log Push enqueued, not the last entry of the SDK's channel.
- Preferences cover only the writes in Push.java. Whatever `super.setInstanceEnabled` stores is not modelled.
- `MobileCenterLog` logging has no effect on behaviour and is not modelled.
- The `synchronized` locking and the `HandlerUtils.runOnUiThread` thread hop are concurrency plumbing. Delivery is a separate, later `UiRun` event over the state current at that time.
- The singleton machinery (`getInstance`, `unsetInstance`) and the static wrappers (`isEnabled`, `setEnabled`, `setListener`) are not modelled. Each static wrapper forwards to the instance transition of the same purpose.
- The log factory map and the constant getters (`getGroupName`, `getServiceName`, `getLoggerTag`, `getTriggerCount`) return constants. Only the group and service name constants are modelled.
- Android `Bundle` semantics for non-string extras are out of scope: `getString` on a non-string value returns null, and extras here are string-to-string maps.
- The `allData` map built in `checkPushInActivityIntent` only feeds a debug log and is not modelled.
- `MobileCenterService.java` is an interface with no behaviour of its own.
- CryptoNoOpHandler.Encrypt: Java returns the very same array object. The model states value equality of the byte sequences, not reference identity.
- CryptoNoOpHandler.Decrypt: same as Encrypt; value equality, not reference identity.
