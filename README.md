# Workcart Card Readers — a verified model of the session state machine

Workcart Card Readers (version 0.2.0) is an Oxide plugin for a game server. It fits workcarts with card readers, and a player must swipe an accepted keycard at the reader to be allowed to ride. The plugin keeps three pieces of state:

- who is authorised, either in one global set or in one set per workcart, as the `EnableGlobalAuthorization` setting chooses;
- one pending timer per player: an eviction countdown that starts on boarding, or a grace timer that starts on leaving;
- when each player was last warned, so that a new warning needs five seconds to have passed.

This project models that logic in Dafny and proves its properties. It also models the merge that brings an outdated configuration file up to date.

Modules:

- `Types` (types.dfy): the shared names. Ids, the host's hook replies, and the configuration with its defaults (10 s to swipe, 60 s of grace, 25% wear, access level 1, no required skin). Also the chat messages and informational hooks the plugin emits.
- `Authorization` (authorization.dfy): `IsPlayerAuthorized` on the two kinds of set. `Grant` and `Revoke` give the state after `AuthorizePlayer` and `DeauthorizePlayer`.
- `Timers` (timers.dfy): the `_playerTimers` table beside the host's queue of live one-shot timers. It states the invariant that every live timer is its player's table entry, which means there is at most one live timer per player.
- `Cards` (cards.dfy): card acceptance and the wear of one or more swipes.
- `Presence` (presence.dfy): `HasPlayerOnBoard`, a search of the platform trigger's contents.
- `ConfigMerge` (configmerge.dfy): `MaybeUpdateConfigDict` on a nested dictionary value.
- `WorkcartCardReaders` (plugin.dfy): the class `Plugin`, which holds the plugin's state. On it are the reader add/remove operations, the authorisation operations and their API wrappers, and the handlers `OnEntityEnter`, `OnEntityLeave` and `OnCardSwipe`. `Fire` stands for the host running a player's timer.
- `Scenarios` (scenarios.dfy): runs from a fresh load, proved from the handlers' contracts alone.

Host facts are parameters of each operation:

- whether the player holds `workcartcardreaders.freerides`;
- the trigger's contents;
- every hook reply, as `NoResult`, `BoolResult(b)` or `OtherResult`;
- whether the workcart and player still exist after the one-tick deferral;
- the current time, in whole seconds.

A timer stores its due time, and `Fire(player, now, …)` runs it only once that time has come. Chat messages and informational hook calls are appended to `log`.

Version 0.2.0 of the plugin behaves as follows:

- A card is accepted by a single `RequiredCardSkin`, or else by an unskinned card whose access level equals the reader's. There is no ordered list of card rules.
- The card is removed when its absolute `condition` is at or below 0.01, after `conditionNormalized` was lowered by `loss × 0.01`. This threshold is not 1% of the maximum.
- A wear of 0% still removes a card already at or below 0.01. Otherwise the card is kept unchanged.
- Re-boarding does not cancel a grace timer (see Findings). Nor does a swipe by a player who is still authorised: the swipe returns at the already-authorised check, before the timer cancellation, and `OnEntityEnterCancellingGrace` corrects the boarding path only.
- This version has no map-fixed readers and no placement commands.

## Model

| member | source | states |
|---|---|---|
| Types.WasBlocked | WorkcartCardReaders.cs:319-351 | only a boolean reply can veto; no reply and a non-boolean reply never veto |
| Types.IsCargoTrain | WorkcartCardReaders.cs:255-258 | a workcart is special exactly on a boolean `true` reply: `true` makes it special, while `false`, a missing Cargo Train Event plugin (no reply) or a non-boolean reply means it is not |
| Types.OnlyExplicitFalseBlocks | WorkcartCardReaders.cs:319-351 | a hook vetoes exactly when it replies with the boolean `false`; no reply, `true` and non-boolean replies let the action proceed |
| Authorization.IsPlayerAuthorized | WorkcartCardReaders.cs:419-427 | free rides always authorise; otherwise global mode answers by the global set alone, and per-workcart mode by the workcart's own set, with no authorisation on a workcart that has no set |
| Authorization.FreeRidesAlwaysAuthorized | WorkcartCardReaders.cs:419-422 | a player with the free-rides permission is authorised whatever the sets hold |
| Authorization.GrantAuthorizes | WorkcartCardReaders.cs:429-442 | after a successful authorisation the player is authorised on that workcart, and in global mode on every workcart |
| Authorization.GrantIsolated | WorkcartCardReaders.cs:424-437 | authorising changes no other player's answer, nor, in per-workcart mode, the answer on any other workcart |
| Authorization.GrantLeavesOtherVehicles | WorkcartCardReaders.cs:527-528 | in per-workcart mode, authorising keeps the global set, the set of workcarts with readers, and every other workcart's set |
| Authorization.RevokeDeauthorizes | WorkcartCardReaders.cs:444-457 | after a successful deauthorisation the player is authorised on that workcart exactly when holding free rides |
| Authorization.RevokeIsolated | WorkcartCardReaders.cs:449-452 | deauthorising changes no other player's answer, nor, in per-workcart mode, the answer on another workcart |
| Authorization.GrantIdempotentAndUndone | WorkcartCardReaders.cs:434-452 | authorising twice equals authorising once; deauthorising undoes an authorisation of a player who was not authorised before |
| Authorization.GrantRevokeRespectScope | WorkcartCardReaders.cs:510-513 | authorising and deauthorising never fill the set of the scope not in use |
| Timers.EmptyTableConsistent | WorkcartCardReaders.cs:32 | the empty timer table satisfies the one-live-timer-per-player invariant |
| Timers.AtMostOneLiveTimer | WorkcartCardReaders.cs:409-417 | under the invariant, two live timers of the same player are the same timer |
| Timers.CancelClearsOnlyThatPlayer | WorkcartCardReaders.cs:409-417 | after cancellation the player has no entry and no live timer; the invariant holds; every other player's entry and live timers are unchanged |
| Timers.InstallAfterCancel | WorkcartCardReaders.cs:127-137 | installing a timer right after cancelling keeps the invariant, and the new timer is then the player's only live timer |
| Timers.InstallNeedsCancel | WorkcartCardReaders.cs:173 | installing over a player's live timer without first cancelling it breaks the invariant, because the old timer stays live |
| Timers.FireKeepsConsistent | WorkcartCardReaders.cs:138-143 | running a player's live timer keeps the invariant, whether its entry is then dropped or kept; afterwards the player has no live timer |
| Cards.IsCardAccepted | WorkcartCardReaders.cs:194-196 | an accepted skinned card has the required skin; without a required skin, exactly an unskinned card at the reader's access level is accepted |
| Cards.Wear | WorkcartCardReaders.cs:216-225 | a swipe removes the card exactly when its condition after the loss is at or below 0.01; a kept card is above 0.01 and differs from the original only in its condition |
| Cards.AcceptanceBySkin | WorkcartCardReaders.cs:194-196 | with a required skin, a card is accepted at any reader level exactly when it has that skin; a skinned card is accepted only when its skin is the required one |
| Cards.WearTimesKept | WorkcartCardReaders.cs:216-225 | while the condition stays above 0.01, n swipes keep the card and lower its condition by n times loss% of the maximum condition |
| Cards.WearTimesRemoved | WorkcartCardReaders.cs:216-221 | the swipe that first takes the condition to 0.01 or below removes the card |
| Cards.LosslessCardNeverWears | WorkcartCardReaders.cs:216-225 | with 0% loss, a card above the threshold is never worn or removed, however many swipes |
| Cards.TwentyPercentLastsFiveSwipes | WorkcartCardReaders.cs:216-221 | at 20% loss, a full card (maximum condition at least 1) survives four swipes and is removed by the fifth |
| Presence.HasPlayerOnBoard | WorkcartCardReaders.cs:395-407 | the search answers true exactly when the player is among the trigger's contents; an empty trigger answers false |
| ConfigMerge.MaybeUpdateConfigDict | WorkcartCardReaders.cs:669-700 | the updated dictionary is the merge of the defaults into the raw one; `changed` is true exactly when the dictionary was altered |
| ConfigMerge.MergedDiffers | WorkcartCardReaders.cs:671-699 | the merge alters the raw dictionary exactly when some default key is missing from it or receives a different value |
| ConfigMerge.MergedKeys | WorkcartCardReaders.cs:692-696 | the merged keys are the raw keys plus every default key: no key is lost, and a default key missing from the raw dictionary gets the default's value |
| ConfigMerge.MergedKeepsOtherValues | WorkcartCardReaders.cs:676-691 | a raw value is kept when its key is unknown to the defaults or the default there is not a dictionary |
| ConfigMerge.MergedDictWhereDefaultIsDict | WorkcartCardReaders.cs:681-689 | where the default is a dictionary, the merged value is a dictionary: a missing key or a raw non-dictionary gets the default, a raw dictionary is merged recursively with the nested defaults |
| ConfigMerge.MergedWithItself | WorkcartCardReaders.cs:669-700 | merging the defaults into a copy of themselves changes nothing |
| ConfigMerge.MergedIdempotent | WorkcartCardReaders.cs:669-700 | merging again into a merged dictionary changes nothing, so a file just brought up to date reports no change |
| WorkcartCardReaders.Plugin.IsPlayerAuthorized | WorkcartCardReaders.cs:419-427 | free rides always authorise; otherwise the global set decides in global mode, and the workcart's reader set in per-workcart mode |
| WorkcartCardReaders.Plugin.WarningDue | WorkcartCardReaders.cs:129-131 | a never-warned player is due a warning; a warned one only when more than five seconds have passed since the last warning |
| WorkcartCardReaders.Plugin.ApiHasCardReader | WorkcartCardReaders.cs:277-280 | true exactly when the workcart has a reader set; without one, in per-workcart mode, no player without free rides is authorised on it |
| WorkcartCardReaders.Plugin.constructor | WorkcartCardReaders.cs:32-34 | a loaded plugin starts with no authorisations, no readers, no timers and no warnings |
| WorkcartCardReaders.Plugin.AddCardReader | WorkcartCardReaders.cs:368-378 | succeeds unless the add hook vetoes or the workcart is the special cargo train; it adds an empty set only when the workcart has none and changes nothing else |
| WorkcartCardReaders.Plugin.ApiAddCardReader | WorkcartCardReaders.cs:264-270 | an existing reader returns true with no change; in every case a reader exists afterwards exactly when true is returned |
| WorkcartCardReaders.Plugin.RemoveCardReader | WorkcartCardReaders.cs:494-501 | the workcart's component and its set are removed; timers, the global set and warnings are untouched |
| WorkcartCardReaders.Plugin.AuthorizePlayer | WorkcartCardReaders.cs:429-442 | a veto returns false and changes nothing; otherwise the player is added to the scope-selected set, the authorised hook is logged, and true is returned |
| WorkcartCardReaders.Plugin.DeauthorizePlayer | WorkcartCardReaders.cs:444-457 | a veto returns false and changes nothing; otherwise the player is removed from the scope-selected set, the deauthorised hook is logged, and true is returned |
| WorkcartCardReaders.Plugin.ApiAuthorizePlayer | WorkcartCardReaders.cs:282-292 | false with no change when there is no reader; true with no hook and no change when already authorised; otherwise as AuthorizePlayer; true exactly when authorised afterwards |
| WorkcartCardReaders.Plugin.ApiDeauthorizePlayer | WorkcartCardReaders.cs:294-304 | false with no change when there is no reader; true with no change when not authorised; otherwise as DeauthorizePlayer; on success a player without free rides is no longer authorised |
| WorkcartCardReaders.Plugin.ApiIsPlayerAuthorized | WorkcartCardReaders.cs:306-313 | false for a workcart without a reader, even with free rides; on a workcart with a reader, exactly the plugin's `IsPlayerAuthorized` answer: true with free rides, otherwise membership of the global set in global mode or of the workcart's set in per-workcart mode |
| WorkcartCardReaders.Plugin.DestroyExistingPlayerTimer | WorkcartCardReaders.cs:409-417 | the timer table becomes its cancellation for that player, so the player has no live timer; nothing else changes |
| WorkcartCardReaders.Plugin.StartTimer | WorkcartCardReaders.cs:137 | a fresh timer becomes the player's entry and is scheduled, with the invariant kept |
| WorkcartCardReaders.Plugin.OnEntityEnter | WorkcartCardReaders.cs:108-145 | nothing changes for a trigger that is not a workcart's, a workcart without a reader, an authorised player, a player already aboard, or a vanished entity; otherwise the player's timer is replaced by a countdown due after the configured seconds; a warning is logged and its time recorded only when the player was never warned or `now > lastWarned + 5` |
| WorkcartCardReaders.Plugin.OnEntityLeave | WorkcartCardReaders.cs:148-180 | nothing changes without a reader, after the entity vanished, or while the player is still aboard; otherwise the player's timer is cancelled, and an authorised player without free rides gets a grace timer and a notice |
| WorkcartCardReaders.Plugin.OnCardSwipe | WorkcartCardReaders.cs:183-235 | `None` with no change when the reader is not a handled workcart's; otherwise `Some(false)`. A rejected card, an already authorised player or a veto leaves the sets, the timers and the card alone. On success the player is authorised, the card is worn or removed, the player's timer is cancelled, and the scope's success message is logged |
| WorkcartCardReaders.Plugin.Fire | WorkcartCardReaders.cs:137-177 | only a live, due timer runs. A countdown ejects only a player still unauthorised and still aboard, when the eject hook allows it, and drops the entry either way. A grace timer deauthorises unless vetoed and drops the entry only on success; it never runs twice |
| WorkcartCardReaders.Plugin.PerformEject | WorkcartCardReaders.cs:469-484 | a veto does nothing; otherwise the removal notice and the ejected hook are logged, in that order |
| WorkcartCardReaders.Plugin.OnEntityEnterCancellingGrace | WorkcartCardReaders.cs:114-116 | corrected boarding: an authorised player who boards has the pending timer cancelled and no live timer; every other case behaves as OnEntityEnter |
| Scenarios.EvictionAfterCountdown | WorkcartCardReaders.cs:122-143 | an unauthorised rider who does not swipe is warned once, is not ejected at 9 s, and is ejected once at 10 s |
| Scenarios.SwipeCancelsEviction | WorkcartCardReaders.cs:207-227 | a valid swipe during the countdown authorises, takes a 100-point card to 75, and cancels the eviction |
| Scenarios.GraceExpiryRevokes | WorkcartCardReaders.cs:167-177 | an authorised player who leaves stays authorised during the grace period and loses it when the grace timer runs |
| Scenarios.VetoedGraceNotRetried | WorkcartCardReaders.cs:173-177 | a vetoed grace deauthorisation leaves the player authorised and the stale entry in place, and the timer is not run again |
| Scenarios.ReboardingWithinGraceAsWritten | WorkcartCardReaders.cs:114-116 | as written, a player who leaves and boards again within the grace period is deauthorised while riding |
| Scenarios.ReboardingWithinGraceCorrected | WorkcartCardReaders.cs:114-116 | with the corrected boarding handler, the same run keeps the player authorised and no timer runs |
| Scenarios.GlobalSwipeAuthorizesEverywhere | WorkcartCardReaders.cs:424-425 | in global mode, one successful swipe authorises the player on every workcart with a reader |

## Findings

| source | as written | input that shows it | evidently intended | confidence | as-written member | corrected member |
|---|---|---|---|---|---|---|
| WorkcartCardReaders.cs:114-116 | `OnEntityEnter` returns at once for an authorised player, so a pending grace timer survives re-boarding | an authorised player leaves at 0 s (grace timer due at 60 s), boards again at 10 s, and the timer runs at 60 s while the player is aboard: the player is deauthorised while riding | `AuthorizationGraceTimeSecondsOffWorkcart` is a time spent off the workcart, so boarding again should end the grace period and cancel its timer | medium; not executed | Scenarios.ReboardingWithinGraceAsWritten | WorkcartCardReaders.Plugin.OnEntityEnterCancellingGrace |

## Left out

- Reader entity creation and teardown are host-engine object lifecycles and are not modelled. This covers `CreateCardReader`, the reader array and positions built in `Awake`, the kill loop in `OnDestroy`, and the prefab.
- `CheckSpeed` is a client-rendering workaround driven by the floating-point track speed, and is not modelled.
- The eject is reduced to its observable part: the veto, the removal notice and the ejected hook. `DetermineEjectPosition`, the position-override hook and the teleport are floating-point geometry and engine calls. So are the trigger updates.
- Hooks, the permission system and the Cargo Train Event and Automated Workcarts plugins are foreign calls. Their answers are parameters.
- `CheckDependencies` and `GetAutomatedWorkcarts` are foreign calls and are not modelled.
- `Init` registers the free-rides permission and unsubscribes the spawn and automation hooks; hook subscription and permission registration are host services, and the permission is a parameter here.
- `OnServerInitialized` subscribes hooks and loops over host entities calling `AddCardReader`. `OnEntitySpawned` defers one tick and calls `AddCardReader`. The automation started/stopped hooks call `AddCardReader` or `RemoveCardReader`. The loops and subscriptions are host services; the two operations they call are modelled.
- `Unload` removes every workcart's reader, the modelled `RemoveCardReader` applied to each, and then clears the static configuration and plugin instance. Clearing those statics has no counterpart in the model.
- Effects and localisation are output only. A chat message is logged as a `Message` value without its text.
- JSON (de)serialisation, `JsonHelper`, `MaybeUpdateConfig`'s conversion of objects into dictionaries, and `LoadConfig`/`SaveConfig` with their fallback to defaults are all Newtonsoft and file I/O. Only the dictionary merge is modelled. List values are leaves, as they are to the merge.
- The configuration is a constant of the plugin object. Reloading it at run time is not modelled.
- Time is whole seconds and seconds settings are integers. The source uses `float` seconds and `Time.realtimeSinceStartup`.
- Timer scheduling and the one-tick deferral are modelled as explicit calls. The deferral becomes a `stillExists` recheck at the top of the deferred step. Other events between a notification and its deferred step are not interleaved.
- Cards.Wear: card condition uses exact reals. Single-precision rounding of `0.01f` is not modelled. The engine's `Item.conditionNormalized` setter is not part of this model: condition is taken as the normalised value times the maximum condition, with no clamping.
- WorkcartCardReaders.Plugin.Fire: in the source, a timer callback holds the reader component it captured, and a removed component's set stays readable there. The model reads the current store, so after the workcart's reader has been removed, the player counts as not authorised on it in per-workcart mode. The same applies when a reader is removed and then added again. For a countdown started before the removal, the source reads the old component's set, so a player authorised afterwards on the new component is still ejected; the model reads the new set and does not eject that player.
- In global mode the source never creates a workcart's own set. The model keeps an empty one for every workcart with a reader.
- `ulong` ids are unbounded naturals. No arithmetic is done on them.
- `DestroyImmediate` on a missing component is not modelled: removing a reader from a workcart without one is a no-op.
