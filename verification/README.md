# Verified models of Elektrine's browser logic

A Dafny project that models the algorithms and state machines in Elektrine's
JavaScript and proves what they guarantee. `dafny verify dfyconfig.toml` checks all of it.

- **Encrypted chat** (`ChatModel`, `ChatInvariants`, `ChatSteps`, `ChatTheorems`, `ChatOrigins`, `ChatDelivery`,
  `ChatCauses`, `ChatOverlap`, `ChatHook`). One client's key lifecycle for one conversation: key lookup, preparation of
  packages, sending, replies, timeouts and packages-sent marks interleave at every `await`. `Step` is one
  segment, `Run` folds any finite list of events, an event that is not enabled changes nothing, so
  a statement about `Run(events)` is about every interleaving. Cryptography is symbolic:
  wrapping and encryption are free constructors, the hash is injective, key uids are fresh.
  `ChatHook` is the hook object with mutable fields; each of its methods is proved to be one step.
- **Conversation key requests** (`KeyRequests`, `KeyProvenance`, `KeyRequestHook`): the request map and the
  unavailable set of the same hook, and where every returned key comes from.
- **WebRTC calls** (`WebRtcModel`, `WebRtcLaws`, `WebRtcCandidates`, `WebRtcHandover`, `WebRtcAnswers`,
  `WebRtcSignals`, `WebRtcPushes`, `WebRtcOrigins`, `WebRtcProgress`, `WebRtcOverlap`, `WebRtcRestart`,
  `WebRtcClient`): signals may be lost, repeated and reordered; every device, peer connection and channel
  answer is an event.
- **Dwell time** (`DwellModel`, `DwellLaws`, `DwellProgress`, `DwellViewing`, `DwellReports`, `DwellHooks`): any number of
  hooks share one buffer, one timer and one navigation flush. What there was to see, and what of it is to be
  reported, is told by the events alone. A payload counts as emitted when `safePushEvent` is called.
- **Markdown preview** (`MarkdownInline`, `MarkdownBlocks`, `MarkdownEditor`, `Html`, `HtmlReader`,
  `MarkdownLaws`, `MarkdownMeaning`, `MarkdownPages`): the renderer, and an independent reader that accepts only
  well-formed output and yields the characters, elements and link targets it finds.
- **Canonical data** (`StableDevices`, `StableJson`, `JsonReading`, `StableJsonLaws`, `StableJsonOrder`).
- **Kernels** (`RandomNumbers`, `Shuffling`, `ShuffleOdds`, `Passwords`, `PasswordOdds`, `ProofOfWork`, `Base64`,
  `Base64Meaning`, `Base64Codecs`). `Decimals`, `Strings`, `Options` and `Histories` are shared vocabulary.

What the proofs brought to light:

- The empty package list that a preparation keeps for an already distributed key can be attached to a
  message that needed packages (`ChatOverlap.EmptyListCanBeAttached`). In every run that takes a preparation that
  looked the key up after it was marked as sent (`ChatCauses.MissingPackagesHaveACause`); at the moment of choice it
  happens exactly when the matching prepared list is the empty one. Every recipient can still decrypt, because an
  acknowledged earlier message carried the packages.
- Two drains of the candidate queue can overlap (two offers in a row), and then, and only then,
  a candidate reaches the peer connection twice.
- An answer that arrives once a remote description is set is ignored, and a restart is only ever scheduled
  with one set; so the answers to ICE-restart offers are ignored (`WebRtcSignals.RestartAnswersAreIgnored`,
  `WebRtcRestart.RestartAnswerIsLost`). An answer already being applied when an offer sets the description is not.
- Among the devices without an integer `user_id`, exactly those whose `user_id` is null get a local package, addressed
  to user 0, because `Number(null)` is 0 (`ChatTheorems.NullUserIdIsAddressedAsUserZero`).
- The order of the device list matters to `devicesHash` exactly when two different devices share owner and device id.
- `stableJson` drops keys named `__proto__`.

## Model

| member | source | states |
|---|---|---|
| ChatTheorems.PackagesWrapTheMessageKey | apps/elektrine/assets/js/hooks/chat_e2ee_hook.js:842-1005 | In every interleaving: the packages attached to a message all wrap the raw key that encrypted it, and there is one per stable device of its list or none; the message uid was created for exactly that key and device list |
| ChatTheorems.OmittedOnlyAfterAcknowledgedSend | apps/elektrine/assets/js/hooks/chat_e2ee_hook.js:771-817 | A message without complete packages is preceded by a message of the same key and list that carried them, whose ok reply was handled and whose send did not time out |
| ChatCauses.MissingPackagesHaveACause | apps/elektrine/assets/js/hooks/chat_e2ee_hook.js:842-956 | In every run: a message that needed packages for some device and left with none was preceded by a preparation of the same key and device list that loaded the key with a record already marked as sent for that list |
| ChatCauses.PackagesAreCompleteWithoutCause | apps/elektrine/assets/js/hooks/chat_e2ee_hook.js:842-956 | As long as no such preparation happened, every message that needed packages carries one per device of its list |
| ChatTheorems.CompleteExactlyWhenListIsNotEmpty | apps/elektrine/assets/js/hooks/chat_e2ee_hook.js:907-927 | A send that takes its packages from a matching prepared value attaches complete ones if and only if the prepared list is not the empty one (or there is no device) |
| ChatOverlap.EmptyListCanBeAttached | apps/elektrine/assets/js/hooks/chat_e2ee_hook.js:852-855 | A concrete history of two overlapping sends, with encryption switched off and on between, in which the empty list kept for a distributed key is attached to a message that needed packages |
| ChatTheorems.RecordsOfAKeyAgree | apps/elektrine/assets/js/hooks/chat_e2ee_hook.js:1262-1277 | All active records ever written for a key carry the hash it was created for; the sent hash is null or equal to it, and only the first record of a key is unsent |
| ChatTheorems.ChangedDevicesForceAnotherKey | apps/elektrine/assets/js/hooks/chat_e2ee_hook.js:958-982 | Messages encrypted for different stable device lists never share a key uid |
| ChatTheorems.SplitCovers | apps/elektrine/assets/js/hooks/chat_e2ee_hook.js:929-930 | A package is sent in the local list exactly when it has an integer user_id and in the federated list exactly when it has a recipient_handle |
| ChatTheorems.EveryAddressableDeviceIsCovered | apps/elektrine/assets/js/hooks/chat_e2ee_hook.js:929-947 | The package of a device is in the payload of a complete message if and only if the device has an integer user_id or a recipient_handle |
| ChatTheorems.NullUserIdIsAddressedAsUserZero | apps/elektrine/assets/js/hooks/chat_e2ee_hook.js:929-944 | The package of a device without an integer user_id is put among the local packages if and only if its user_id is null, and then it is addressed to user 0 |
| ChatOrigins.MessagesCarryWhatWasTyped | apps/elektrine/assets/js/hooks/chat_e2ee_hook.js:771-956 | In every run each message has its own earlier start of a send: it encrypts exactly the text that was typed there, for exactly the devices given there, under the iv drawn at its push, and no send pushes two messages |
| ChatOrigins.OriginsAreKept | apps/elektrine/assets/js/hooks/chat_e2ee_hook.js:771-956 | A message keeps its origin however the run goes on |
| ChatCauses.NoPackagesWithoutNeed | apps/elektrine/assets/js/hooks/chat_e2ee_hook.js:907-927 | A message whose key was already distributed to its devices carries no packages |
| ChatDelivery.DeliveredToEveryDevice | apps/elektrine/assets/js/hooks/chat_e2ee_hook.js:1054-1212 | A device of the list a message was encrypted for that processed the earlier acknowledged messages of its key in order decrypts it to exactly the text that the event which started the send was given, whatever other accepted messages it processed in between |
| ChatDelivery.OwnPackage | apps/elektrine/assets/js/hooks/chat_e2ee_hook.js:1193-1201 | With distinct device ids, the first inline package that matches a device id is the one wrapped for that device |
| ChatDelivery.AcceptedMessagesWerePushed | apps/elektrine/assets/js/hooks/chat_e2ee_hook.js:791-799 | What the server accepted was pushed by this client, so the delivery theorem covers the whole log |
| ChatSteps.StepKeeps | apps/elektrine/assets/js/hooks/chat_e2ee_hook.js:842-1005 | One step of any event keeps the invariant that the theorems rest on (bindings, records, marks, replies, one creator per key, one sender per message) |
| ChatHook.ChatE2EE.EncryptMessage | apps/elektrine/assets/js/hooks/chat_e2ee_hook.js:892-902 | The frame of the send holds the text and the devices it was called with |
| ChatHook.ChatE2EE.PrepareConversationKeyPackages | apps/elektrine/assets/js/hooks/chat_e2ee_hook.js:842-851 | A running preparation is shared; otherwise a new one occupies the promise slot. One step of the transition system |
| ChatHook.ChatE2EE.ActiveKeyLoaded | apps/elektrine/assets/js/hooks/chat_e2ee_hook.js:961-979 | The record is used only for the same device hash; otherwise a fresh key is created and cached before the next await |
| ChatHook.ChatE2EE.RawKeyLoaded | apps/elektrine/assets/js/hooks/chat_e2ee_hook.js:964-982 | With raw bytes the old key is reused, and packages are needed unless the sent hash is the device hash; without them a fresh key is created |
| ChatHook.ChatE2EE.ActiveKeyWritten | apps/elektrine/assets/js/hooks/chat_e2ee_hook.js:1262-1270 | The active record becomes the new key, unsent |
| ChatHook.ChatE2EE.PackagesWrapped | apps/elektrine/assets/js/hooks/chat_e2ee_hook.js:984-1005 | One package per stable device into the prepared slot, or the rejection of an unusable public key |
| ChatHook.ChatE2EE.PushEncryptedMessage | apps/elektrine/assets/js/hooks/chat_e2ee_hook.js:932-955 | Exactly one payload is pushed, with the key, packages and devices of its frame |
| ChatHook.ChatE2EE.PreparationSettled | apps/elektrine/assets/js/hooks/chat_e2ee_hook.js:882-887 | The finally block empties the promise slot and releases those that wait |
| ChatHook.ChatE2EE.SendTimedOut | apps/elektrine/assets/js/hooks/chat_e2ee_hook.js:776-789 | A timed-out send marks nothing and ignores its late reply |
| ChatHook.ChatE2EE.SendReplied | apps/elektrine/assets/js/hooks/chat_e2ee_hook.js:791-816 | An ok reply to a message that needed packages issues the packages-sent write; any other reply does not |
| ChatHook.ChatE2EE.PackagesMarked | apps/elektrine/assets/js/hooks/chat_e2ee_hook.js:1272-1277 | The packages-sent write replaces the active record by the sent one of its key |
| ChatHook.PushedPackagesWrapTheMessageKey | apps/elektrine/assets/js/hooks/chat_e2ee_hook.js:892-956 | The binding theorem for the object with mutable fields |
| KeyRequests.OneOutstandingRequest | apps/elektrine/assets/js/hooks/chat_e2ee_hook.js:1136-1190 | At most one chat_e2ee_key request per conversation and key awaits its reply, in every interleaving |
| KeyRequests.ConcurrentCallersShare | apps/elektrine/assets/js/hooks/chat_e2ee_hook.js:1136-1137 | Callers waiting for a key while its request runs wait for the same request |
| KeyRequests.SharersReturnTheSame | apps/elektrine/assets/js/hooks/chat_e2ee_hook.js:1137-1190 | Everyone who waited for a request returns with its outcome |
| KeyRequests.NeverRequestedAgain | apps/elektrine/assets/js/hooks/chat_e2ee_hook.js:1132-1181 | After a key_not_found reply the key is never requested again, whatever happens later |
| KeyProvenance.SharedOutcomesAreReal | apps/elektrine/assets/js/hooks/chat_e2ee_hook.js:1136-1190 | In every run a call that waited for a request returns the raw key that this request unwrapped for its key, key_not_found only if a reply said so of the key, and another error only if an await of the request failed |
| KeyProvenance.ImmediateOutcomesAreReal | apps/elektrine/assets/js/hooks/chat_e2ee_hook.js:1127-1137 | A call that returns at once returns what the cache held for its key when it began or, only if it held nothing, the stored key its load resolved to; or key_not_found, if a reply said so |
| KeyProvenance.CachedKeysWereLearned | apps/elektrine/assets/js/hooks/chat_e2ee_hook.js:1127-1190 | The cache holds for a key only what a request of that key unwrapped or what was stored for it |
| KeyProvenance.PushesExactlyWhatItAwaits | apps/elektrine/assets/js/hooks/chat_e2ee_hook.js:1150-1166 | One chat_e2ee_key is pushed exactly when a request begins to wait for its reply, for the key of that request |
| KeyProvenance.UnknownKeysAreRequested | apps/elektrine/assets/js/hooks/chat_e2ee_hook.js:1127-1166 | A call for a key that is not cached, stored, known to be missing or pending makes a request that asks the server once |
| KeyProvenance.AnswersReachTheCaller | apps/elektrine/assets/js/hooks/chat_e2ee_hook.js:1150-1190 | A request that is answered hands the unwrapped key to a waiting call, caches it and is no longer pending |
| KeyProvenance.InlinePackagesReachTheCaller | apps/elektrine/assets/js/hooks/chat_e2ee_hook.js:1139-1147 | A package for this device in the message is unwrapped without asking the server, and its key is handed to a waiting call |
| KeyRequestHook.ConversationKeys.StoredKeyLoaded | apps/elektrine/assets/js/hooks/chat_e2ee_hook.js:1127-1190 | Stored key, known failure, pending request or new request, in this order; one step of the transition system |
| KeyRequestHook.ConversationKeys.KeyUnwrapped | apps/elektrine/assets/js/hooks/chat_e2ee_hook.js:1169-1171 | The unwrapped key is cached under the key of its request, which goes on with that key |
| KeyRequestHook.ConversationKeys.RequestCaught | apps/elektrine/assets/js/hooks/chat_e2ee_hook.js:1178-1184 | The catch block marks the key unavailable only for key_not_found |
| KeyRequestHook.ConversationKeys.RequestFinished | apps/elektrine/assets/js/hooks/chat_e2ee_hook.js:1185-1187 | The finally block removes the request from the map |
| KeyRequestHook.OneRequestPerKey | apps/elektrine/assets/js/hooks/chat_e2ee_hook.js:1136-1190 | The single-request theorem for the object with mutable fields |
| StableDevices.StableIsSortedPermutation | apps/elektrine/assets/js/hooks/chat_e2ee_crypto.js:164-182 | The result holds the projected devices, all of them, in ascending order of their owners and, for one owner, of their device ids |
| StableDevices.OwnerOf | apps/elektrine/assets/js/hooks/chat_e2ee_crypto.js:177-178 | The owner of a device is its handle if that is not empty, else the text of its integer user id or null |
| StableDevices.OrderIrrelevantExactlyWithoutTies | apps/elektrine/assets/js/hooks/chat_e2ee_crypto.js:164-186 | The result, and so devicesHash, is independent of the input order if and only if no two different projected devices share owner and device id |
| StableDevices.SortIsStable | apps/elektrine/assets/js/hooks/chat_e2ee_crypto.js:176-181 | Devices of one owner and device id keep their input order |
| StableDevices.ProjectionKeepsTheData | apps/elektrine/assets/js/hooks/chat_e2ee_crypto.js:164-175 | Two devices are projected to the same one if and only if they agree but for empty against missing texts and for forms of user_id with the same integer or none |
| StableDevices.ProjectionIsIdempotent | apps/elektrine/assets/js/hooks/chat_e2ee_crypto.js:164-175 | Projecting a projected device changes no field |
| StableJsonLaws.StableTextIsCanonical | apps/elektrine/assets/js/hooks/chat_e2ee_crypto.js:25-42 | Equal stableJson texts if and only if the values agree up to key order at every depth, keys named __proto__ aside |
| StableJsonLaws.StableTextIgnoresOnlyKeyOrder | apps/elektrine/assets/js/hooks/chat_e2ee_crypto.js:25-42 | For values without such keys: equal texts if and only if equal up to key order |
| StableJsonLaws.ProtoKeysAreLost | apps/elektrine/assets/js/hooks/chat_e2ee_crypto.js:37-41 | An object with a __proto__ key has the text of one without it: assigning that key creates no field |
| StableJsonLaws.StableValueIsIdempotent | apps/elektrine/assets/js/hooks/chat_e2ee_crypto.js:32-42 | stableJsonValue is idempotent |
| StableJsonLaws.StableValueIsSame | apps/elektrine/assets/js/hooks/chat_e2ee_crypto.js:32-42 | stableJsonValue keeps the value up to key order and __proto__ keys |
| JsonReading.StringifyIsInjective | apps/elektrine/assets/js/hooks/chat_e2ee_crypto.js:25-30 | Equal JSON texts come from equal values |
| JsonReading.ParseOfStringify | apps/elektrine/assets/js/hooks/chat_e2ee_crypto.js:25-30 | An independent reader of JSON texts reads back exactly the value that was written |
| StableJsonOrder.KeysCompareByUnits | apps/elektrine/assets/js/hooks/chat_e2ee_crypto.js:36-37 | Keys are compared as their sequences of UTF-16 code units, surrogate pairs included, are in a dictionary |
| StableJsonOrder.FieldsAreListedInOrder | apps/elektrine/assets/js/hooks/chat_e2ee_crypto.js:36-41 | A canonical object lists array indices first in ascending order, then the other keys in ascending order of code units: every key but __proto__, each with its canonical value |
| WebRtcCandidates.CandidatesAreConserved | apps/elektrine/assets/js/webrtc_client.js:120-128 | Until cleanup and without overlapping drains: every accepted candidate is queued or was handed over, exactly once; none before the remote description; queued ones in arrival order; none left in the queue once a description is set and no drain is under way |
| WebRtcCandidates.HandedTwiceExactlyOnOverlap | apps/elektrine/assets/js/webrtc_client.js:362-377 | Before cleanup a candidate was handed over twice if and only if two drains overlapped |
| WebRtcOverlap.OverlapIsPossible | apps/elektrine/assets/js/webrtc_client.js:299-318 | A concrete history in which two offers negotiated at once hand a candidate over twice |
| WebRtcHandover.NoCandidateIsLost | apps/elektrine/assets/js/webrtc_client.js:346-377 | Until cleanup, overlapping drains or not: every accepted candidate waits in the current queue or was handed over at least once |
| WebRtcAnswers.AtMostOneAnswerIsApplied | apps/elektrine/assets/js/webrtc_client.js:323-341 | Until cleanup at most one answer is ever applied |
| WebRtcSignals.LateAnswersAreIgnored | apps/elektrine/assets/js/webrtc_client.js:323-330 | Once a remote description was set, every answer that arrives before cleanup changes nothing but the set of heard signals |
| WebRtcSignals.RestartsHaveARemote | apps/elektrine/assets/js/webrtc_client.js:437-455 | In every run without cleanup a scheduled restart or a spent attempt implies that the remote description is set |
| WebRtcSignals.RestartAnswersAreIgnored | apps/elektrine/assets/js/webrtc_client.js:323-478 | From the moment a restart was scheduled until cleanup, whatever happens in between, no answer is taken up |
| WebRtcSignals.AnswerIsTakenUpExactly | apps/elektrine/assets/js/webrtc_client.js:110-134 | A new answer to a local offer is taken up if and only if there is a peer connection, no answer in progress and no remote description |
| WebRtcSignals.RepeatedSignalsAreIgnored | apps/elektrine/assets/js/webrtc_client.js:141-154 | Once a signal was delivered, every repetition before cleanup leaves the client exactly as it is |
| WebRtcPushes.SignalsAreAccountedFor | apps/elektrine/assets/js/webrtc_client.js:156-165 | In every run answers, ready signals, candidates, end and reject signals are sent exactly as often as they are due, and every delivered candidate is accepted; until cleanup the offers sent and the pending one are the offers set by initiateOffer, less those that replaced a pending one, and the restart offers set while joined |
| WebRtcPushes.PendingOfferIsSent | apps/elektrine/assets/js/webrtc_client.js:428-435 | Until cleanup a pending offer stops being pending only by being sent |
| WebRtcPushes.PeerReadySendsTheOffer | apps/elektrine/assets/js/webrtc_client.js:83-98 | A new peer_ready on a joined channel sends the pending offer, or starts one if the client is to initiate and none is pending; no offer stays pending |
| WebRtcPushes.SetOfferIsSentOrWaits | apps/elektrine/assets/js/webrtc_client.js:631-637 | An offer whose local description is set is sent at once if the peer is ready and the channel joined, and is pending otherwise |
| WebRtcOrigins.SignalsHaveTheirOwnCause | apps/elektrine/assets/js/webrtc_client.js:83-318 | In every run each answer sent comes from its own delivered well-formed offer, each offer from a start of the call, a restart timeout or a peer_ready, each other signal from its own event; only a peer_ready can be behind two signals |
| WebRtcProgress.CallsConnect | apps/elektrine/assets/js/webrtc_client.js:273-341 | A concrete history of a caller: one offer is sent once the peer is ready, and the answer to it is applied |
| WebRtcProgress.TroubleIsAnswered | apps/elektrine/assets/js/webrtc_client.js:437-455 | Trouble with a negotiated connection leaves a restart scheduled, or ends the call exactly if both attempts were spent |
| WebRtcProgress.RecoveryIsAnswered | apps/elektrine/assets/js/webrtc_client.js:172-176 | The return of the network is answered as trouble is |
| WebRtcProgress.RestartIsOffered | apps/elektrine/assets/js/webrtc_client.js:451-473 | A scheduled restart of a joined client spends one attempt and sends one offer when its awaits succeed |
| WebRtcProgress.ConnectingRestoresTheBudget | apps/elektrine/assets/js/webrtc_client.js:237-253 | After the connected state trouble schedules a restart again |
| WebRtcProgress.FailuresEndTheCall | apps/elektrine/assets/js/webrtc_client.js:83-118 | Going offline, a failed await of a negotiation and a failed last restart end the call |
| WebRtcProgress.TheEndIsReported | apps/elektrine/assets/js/webrtc_client.js:130-138 | An end signalled by the other side cleans up and calls the ended callback once |
| WebRtcProgress.ResumedCallsAreReady | apps/elektrine/assets/js/webrtc_client.js:283-294 | A resumed call announces itself and takes the role it was given |
| WebRtcSignals.OwnSignalsAreIgnored | apps/elektrine/assets/js/webrtc_client.js:141-145 | A signal of the own session changes nothing |
| WebRtcRestart.RestartAnswerIsLost | apps/elektrine/assets/js/webrtc_client.js:299-330 | A concrete history of a callee whose restart offer is answered, and the answer is ignored |
| WebRtcLaws.RestartBudget | apps/elektrine/assets/js/webrtc_client.js:437-478 | At most one restart timeout pends and only below two attempts; at most two restart offers since the last connected state; the ended callback is called at most once |
| WebRtcLaws.CleanupIsFinal | apps/elektrine/assets/js/webrtc_client.js:528-586 | After cleanup, whatever events follow: the channel stays null, no signal is pushed, no timer is armed |
| WebRtcLaws.StepKeeps | apps/elektrine/assets/js/webrtc_client.js:53-586 | One step of any event keeps the control invariant and pushes nothing after cleanup |
| WebRtcClient.Client.Cleanup | apps/elektrine/assets/js/webrtc_client.js:540-586 | The first call tears everything down, later calls do nothing |
| WebRtcClient.Client.FinishCall | apps/elektrine/assets/js/webrtc_client.js:528-535 | Cleanup, and the ended callback if it was not called yet |
| WebRtcClient.Client.ScheduleIceRestart | apps/elektrine/assets/js/webrtc_client.js:437-455 | Arms the timer, or ends the call when the attempts are spent, or does nothing |
| WebRtcClient.Client.FlushPendingOffer | apps/elektrine/assets/js/webrtc_client.js:428-435 | The pending offer is sent and no longer pending exactly when the peer is ready and the channel joined |
| WebRtcClient.Client.RestartTimerFired | apps/elektrine/assets/js/webrtc_client.js:451-470 | The callback clears the timer and spends an attempt only while the call runs |
| WebRtcClient.Client.HandleIceCandidate | apps/elektrine/assets/js/webrtc_client.js:346-357 | A candidate is handed over or pushed on the current array |
| WebRtcClient.Client.HandleAnswer | apps/elektrine/assets/js/webrtc_client.js:323-332 | An answer is taken up only with a local offer, none in progress and no remote description |
| WebRtcClient.ClientKeepsItsBudget | apps/elektrine/assets/js/webrtc_client.js:437-586 | Restart budget and finality for the object with mutable fields |
| DwellLaws.DwellIsConserved | apps/elektrine/assets/js/hooks/timeline_hooks.js:384-430 | In every run with any number of hooks: what the hooks of a post have reported equals what is buffered plus what was emitted for it |
| DwellViewing.DwellIsViewingTime | apps/elektrine/assets/js/hooks/timeline_hooks.js:358-390 | In every run the total of a hook is the time of the finished views of its post, told by the events alone; its clock runs since the unfinished one began; its scroll depth is the largest ratio seen |
| DwellViewing.ViewingTimeIsDelivered | apps/elektrine/assets/js/hooks/timeline_hooks.js:384-430 | With a monotone clock what is buffered and was emitted for a post never exceeds its viewing time and is short of it by less than MIN_DWELL_TIME_MS for each mounted element |
| DwellReports.ReportsAreExactlyDue | apps/elektrine/assets/js/hooks/timeline_hooks.js:120-147 | In every run the contributions emitted and buffered for a post are, in order, exactly the due ones: all unreported viewing time of an element as soon as it reaches MIN_DWELL_TIME_MS, with its largest ratio and source |
| DwellViewing.DismissedExactlyWhenScrolledPast | apps/elektrine/assets/js/hooks/timeline_hooks.js:366-378 | A post that leaves the screen is reported as scrolled past exactly when it was viewed for more than nothing and less than the threshold |
| DwellViewing.BufferIsEmptied | apps/elektrine/assets/js/hooks/timeline_hooks.js:173-194 | The batch timer and a click that leaves the page empty the buffer |
| DwellViewing.RemovalEmptiesItsPost | apps/elektrine/assets/js/hooks/timeline_hooks.js:339-356 | An element removed while the page stays leaves nothing of its post in the buffer |
| DwellProgress.BufferedDwellHasATimer | apps/elektrine/assets/js/hooks/timeline_hooks.js:392-417 | At every step boundary a non-empty buffer has an armed batch timer |
| DwellProgress.EmittedPayloadsAreMerges | apps/elektrine/assets/js/hooks/timeline_hooks.js:149-188 | Every emitted payload is the merge of contributions for its post, with their summed dwell and their maximum scroll depth |
| DwellProgress.GroupingIsIrrelevant | apps/elektrine/assets/js/hooks/timeline_hooks.js:132-147 | Merging two groups of contributions gives the merge of all of them |
| DwellProgress.MergedPayload | apps/elektrine/assets/js/hooks/timeline_hooks.js:132-147 | A merge carries the sum of dwell, the largest scroll depth and whether any was expanded, and the source of the last one |
| DwellProgress.DismissalsAreShort | apps/elektrine/assets/js/hooks/timeline_hooks.js:366-375 | Every reported dismissal is of a post seen for more than nothing and less than the scroll-past threshold |
| DwellProgress.RemainderIsSmall | apps/elektrine/assets/js/hooks/timeline_hooks.js:384-401 | With a monotone clock what a hook has counted and not reported is non-negative and below MIN_DWELL_TIME_MS |
| DwellHooks.Page.BufferDwellData | apps/elektrine/assets/js/hooks/timeline_hooks.js:392-410 | Queues the unreported dwell if it is long enough, and arms the timer |
| DwellHooks.Page.PauseTracking | apps/elektrine/assets/js/hooks/timeline_hooks.js:384-390 | Stops the clock of a hook, adds the time since it was started to the total, and buffers |
| DwellHooks.Page.SendBatch | apps/elektrine/assets/js/hooks/timeline_hooks.js:412-417 | Emits the whole buffer |
| DwellHooks.Page.SendDwellData | apps/elektrine/assets/js/hooks/timeline_hooks.js:419-430 | Emits the queued payload of a post merged with what the hook still holds |
| DwellHooks.Page.FlushDwellBatchBeforeNavigation | apps/elektrine/assets/js/hooks/timeline_hooks.js:173-194 | Pauses every registered hook, clears the timer, emits the buffer |
| DwellHooks.Page.Destroyed | apps/elektrine/assets/js/hooks/timeline_hooks.js:339-356 | A destroyed hook drains what it holds, unless a navigation flush runs |
| DwellHooks.HooksConserveDwell | apps/elektrine/assets/js/hooks/timeline_hooks.js:120-430 | The conservation law for the objects with mutable fields |
| MarkdownLaws.InlineIsWellFormed | apps/elektrine/assets/js/markdown_editor.js:175-240 | For every text an independent reader accepts the inline markup (proper nesting, no element inside its own kind, safe hrefs, escaped text) and reads exactly what the text means: its characters are a subsequence of the source, its links point to the trimmed targets written there, in order |
| MarkdownLaws.ReadRender | apps/elektrine/assets/js/markdown_editor.js:175-240 | The same before any further text and inside any enclosing elements that the text cannot open again |
| MarkdownLaws.PlainTextIsShown | apps/elektrine/assets/js/markdown_editor.js:175-240 | A text without opening delimiters is shown unchanged |
| MarkdownMeaning.SpansEndAtTheNearestDelimiter | apps/elektrine/assets/js/markdown_editor.js:179-236 | Each span ends at the nearest closing delimiter, strong goes before emphasis, and a character is plain only if it opens no span |
| MarkdownMeaning.SafeAddresses | apps/elektrine/assets/js/markdown_editor.js:242-249 | An address is safe if and only if it is a path of the site or its scheme is mailto, or http or https with two slashes |
| MarkdownMeaning.PlainTextMeansItself | apps/elektrine/assets/js/markdown_editor.js:175-240 | Text without delimiters means its characters |
| MarkdownMeaning.StarsMeanStrong | apps/elektrine/assets/js/markdown_editor.js:179-189 | Plain text between double stars is strong |
| MarkdownMeaning.StarMeansEm | apps/elektrine/assets/js/markdown_editor.js:191-200 | Plain text between stars is emphasised |
| MarkdownMeaning.BackticksMeanCode | apps/elektrine/assets/js/markdown_editor.js:202-211 | Text between backticks is code, whatever else it holds |
| MarkdownMeaning.BracketsMeanLink | apps/elektrine/assets/js/markdown_editor.js:213-234 | A label and a safe address read as a link to exactly that address that shows exactly the label |
| Strings.TrimCutsSpaces | apps/elektrine/assets/js/markdown_editor.js:221 | trim cuts exactly the white space at both ends |
| MarkdownPages.PreviewIsWellFormed | apps/elektrine/assets/js/markdown_editor.js:55-143 | For every source the whole page is well formed and reads as the marks of its blocks, one after the other: headings of their level, quotes, lists of their items, code, paragraphs |
| MarkdownBlocks.NothingIsLostOrReordered | apps/elektrine/assets/js/markdown_editor.js:55-143 | Flattening lists and code blocks gives exactly one contribution per non-fence line, in source order |
| MarkdownBlocks.ContributionsKeepTheirText | apps/elektrine/assets/js/markdown_editor.js:91-136 | Outside a code block a line is the marker of its kind followed by the text of its contribution |
| MarkdownBlocks.MarkersDecideTheKind | apps/elektrine/assets/js/markdown_editor.js:91-136 | A line that is not blank is a heading, a quote or a list item if and only if it starts with a marker of that kind |
| MarkdownBlocks.RunsStayTogether | apps/elektrine/assets/js/markdown_editor.js:59-136 | List items in a row, and the lines of a code block, are collected without a block emitted between them |
| MarkdownBlocks.PendingLinesFitTheMode | apps/elektrine/assets/js/markdown_editor.js:59-89 | No list item is pending inside a code block, no code line outside one |
| MarkdownEditor.RenderInlineMarkdown | apps/elektrine/assets/js/markdown_editor.js:175-240 | The inline loop terminates and computes the specified rendering |
| MarkdownEditor.RenderAt | apps/elektrine/assets/js/markdown_editor.js:179-236 | One iteration of the inline loop: what is appended and where it goes on |
| MarkdownEditor.RenderMarkdownPreview | apps/elektrine/assets/js/markdown_editor.js:55-143 | The line loop computes the specified page |
| MarkdownEditor.OrderedListPrefixLength | apps/elektrine/assets/js/markdown_editor.js:158-169 | A marker if and only if the line starts with at least one digit, then a dot and a space |
| Html.EscapeHtmlIsOnePass | apps/elektrine/assets/js/markdown_editor.js:251-258 | The five replaceAll passes are one map on characters |
| Html.UnescapeOfEscape | apps/elektrine/assets/js/markdown_editor.js:251-258 | Escaping is invertible |
| RandomNumbers.RandomInt | clients/nerve-extension/lib/crypto.js:182-191 | The first word below the limit decides; words at or above it are skipped |
| RandomNumbers.RandomIntIsUniform | clients/nerve-extension/lib/crypto.js:182-191 | For 1 <= max <= 2^32 each residue has exactly floor(2^32 / max) accepted words |
| RandomNumbers.MostWordsAreAccepted | clients/nerve-extension/lib/crypto.js:184-188 | More than half of all words are accepted |
| Shuffling.ShuffleIsBijective | clients/nerve-extension/lib/crypto.js:208-211 | For distinct elements every permutation is the result of exactly one vector of swap choices |
| Shuffling.ShufflePermutes | clients/nerve-extension/lib/crypto.js:208-211 | Every vector of choices permutes |
| ShuffleOdds.EveryPermutationIsEquallyLikely | clients/nerve-extension/lib/crypto.js:182-211 | The same number of accepted word vectors leads to every permutation |
| Passwords.ShuffleInPlace | clients/nerve-extension/lib/crypto.js:208-211 | The loop shuffles the array as specified, or the given entropy does not suffice |
| Passwords.CreatePassword | clients/nerve-extension/lib/crypto.js:175-214 | The whole computation: picks, pushes and shuffle |
| Passwords.PasswordHasEveryClass | clients/nerve-extension/lib/crypto.js:197-213 | 24 characters of the alphabet, one of each class surviving the shuffle |
| PasswordOdds.EveryCharacterIsEquallyLikely | clients/nerve-extension/lib/crypto.js:193-206 | Every character of the alphabet of a place is pushed there for the same number of accepted words; from the fifth place on that is each of all 76 |
| PasswordOdds.PoolsHoldExactly | clients/nerve-extension/lib/crypto.js:176-180 | The four alphabets hold exactly their classes of characters, and the fifth exactly all of these |
| PasswordOdds.AcceptedWordPicks | clients/nerve-extension/lib/crypto.js:193-206 | The first accepted word picks the next character |
| ProofOfWork.LeadingZeroBits | apps/elektrine/assets/js/hooks/form_hooks.js:469-488 | At least d exactly when the big-endian value is below 2^(8n - d) |
| ProofOfWork.SolvePow | apps/elektrine/assets/js/hooks/form_hooks.js:442-461 | For a returned solution the digest of challenge:solution is under the target and that of no smaller nonce is; progress is reported at every multiple of 1000 |
| ProofOfWork.DifficultyOfDecimal | apps/elektrine/assets/js/hooks/form_hooks.js:463-467 | The text of an integer is read back and clamped to 0..30 |
| Base64.UrlRoundTrip | apps/elektrine/assets/js/admin_security.js:6-30 | Decoding a base64url encoding returns the bytes, for any length |
| Base64.PaddingIsRestored | apps/elektrine/assets/js/admin_security.js:19-22 | The recomputed padding is exactly what was cut |
| Base64.UrlEncodeIsSafe | apps/elektrine/assets/js/admin_security.js:13-17 | The output has ceil(4n / 3) characters of the URL-safe alphabet |
| Base64.UrlEncodersAgree | apps/elektrine/assets/js/hooks/chat_e2ee_crypto.js:119-121 | Cutting the final padding and cutting all padding give the same text |
| Base64.DecodeOfEncode | apps/elektrine/assets/js/hooks/chat_e2ee_crypto.js:97-117 | Base64 round trip, for any length |
| Base64Meaning.GroupsKeepTheNumber | apps/elektrine/assets/js/hooks/chat_e2ee_crypto.js:97-106 | Three bytes and their four digits denote the same number |
| Base64Meaning.LastGroupsKeepTheNumber | apps/elektrine/assets/js/hooks/chat_e2ee_crypto.js:97-106 | One or two last bytes denote the number of their digits without the zero bits that fill them up |
| Base64Meaning.EncodesByGroups | apps/elektrine/assets/js/hooks/chat_e2ee_crypto.js:97-106 | The text of three bytes stands before the text of what follows them |
| Base64Meaning.DigitsFollowTheTable | apps/elektrine/assets/js/hooks/chat_e2ee_crypto.js:97-106 | The digits are those of table 1 of RFC 4648 |
| Base64Meaning.TestVectors | apps/elektrine/assets/js/hooks/chat_e2ee_crypto.js:97-106 | The test vectors of section 10 of RFC 4648 |
| Base64Codecs.BytesToBase64 | apps/elektrine/assets/js/hooks/chat_e2ee_crypto.js:97-106 | Encoding in chunks of 0x8000 bytes equals encoding at once |
| Base64Codecs.Base64ToBytes | apps/elektrine/assets/js/hooks/chat_e2ee_crypto.js:108-117 | The decoded bytes, or the exception of atob |
| Base64Codecs.BytesToBase64Url | apps/elektrine/assets/js/hooks/chat_e2ee_crypto.js:119-121 | base64url of the bytes |
| Base64Codecs.BufferToBase64URL | apps/elektrine/assets/js/admin_security.js:6-17 | base64url of the bytes |
| Base64Codecs.Base64URLToBuffer | apps/elektrine/assets/js/admin_security.js:19-30 | The bytes of a base64url text, or the exception of atob |

## Left out

- ChatDelivery.DeliveredToEveryDevice: speaks of a receiving page that starts empty and does not restart, and of messages of this client in between, one after the other; a server that hands out keys on request is replaced by one that never does.
- ProofOfWork.SolvePow: gives up after a number of nonces that the caller chooses, where the source searches forever; the digest is an arbitrary function.
- RandomNumbers.RandomInt: draws from a given finite list of words and reports when it is used up, where the source draws until it succeeds.
- WebRtcAnswers.AtMostOneAnswerIsApplied: says nothing after cleanup, when a suspended handler may still set flags of the discarded negotiation.
- WebRtcClient.Client.ProcessIceCandidateQueue: counts the attempt on a candidate that the RTCIceCandidate constructor refuses as handing it over, and lets the loop go on in a next step, where the source goes on at once.
- Server key fetches in the chat theorems: that path writes an active record for the device list of the moment; it is modelled in KeyRequests, where the record plays no part.
- A change of conversation during a send, migration of legacy stored keys, interleaved updates of the stored key list, device generation, trust decisions and search tokens of the chat hook.
- IndexedDB, WebCrypto, Phoenix channels, RTCPeerConnection, media devices, clocks and timers as time: foreign calls are events or parameters.
- The fields of the WebRTC client are grouped in five records in WebRtcClient.Client, and the arrays assigned to iceCandidateQueue are numbered values; the connection-established callback, the remote stream, track toggles and channel join errors are not part of this model.
- Media acquired after cleanup: prepareLocalPeer does not look at the disposed flag, so no claim is made that no stream or peer connection exists after cleanup.
- The dwell buffer of DwellHooks carries, beside each payload, the contributions merged into it; connection checks of safePushEvent are not part of this model.
- Strings are sequences of Unicode scalar values: lone surrogates are not part of this model. Key order in stableJson is still by UTF-16 code units.
- Offers and answers of WebRtcModel carry no session description: which offer is pending is its place among those set.
- Numbers in stableJson are integers whose String form is plain decimal; fractions, exponents and values that JSON.parse cannot yield are not part of this model.
- localeCompare is a parameter assumed to order strings totally; canonically equivalent but different strings, which it may call equal, are excluded by that assumption.
- user_id values other than absent, null, integers (or their texts) and non-integers; the contents of public keys.
- The third copy of the base64url encoder in form_hooks.js.
- createPassword pushes onto a growing array; Passwords.CreatePassword fills an array of the final length.
- The other markdown renderers, which rewrite emitted HTML with regular expressions, and the page handling around the preview.
- Graph layouts, charts, file explorers, hover cards, dropdowns and other interface code, and the vault and mailbox save and load hooks.
