/** Shared vocabulary of the Workcart Card Readers plugin: identities,
    host hook replies, the plugin configuration and what the plugin tells
    the outside world. */
module Types {

  /** A player's user id (`BasePlayer.userID`); players are also entities
      and are identified by the same id in a trigger's contents. */
  type PlayerId = nat
  /** The identity of a workcart (`TrainEngine`) entity. */
  type VehicleId = nat
  /** The identity of any entity inside a trigger volume. */
  type EntityId = nat

  datatype Option<T> = None | Some(value: T)

  /** What `Interface.CallHook` (or a call into another plugin) handed
      back: nothing at all, a boolean, or a value of some other type. */
  datatype HookResult = NoResult | BoolResult(b: bool) | OtherResult

  /** A hook vetoes an action only by replying with the boolean `false`;
      no reply, `true`, or a non-boolean reply all let it proceed. */
  predicate WasBlocked(reply: HookResult): (blocked: bool)
    ensures blocked ==> reply.BoolResult?
    ensures reply == NoResult || reply == OtherResult ==> !blocked
  {
    reply.BoolResult? && !reply.b
  }

  lemma OnlyExplicitFalseBlocks(reply: HookResult)
    ensures WasBlocked(reply) <==> reply == BoolResult(false)
    ensures !WasBlocked(NoResult) && !WasBlocked(OtherResult) && !WasBlocked(BoolResult(true))
  {
  }

  /** The Cargo Train Event plugin classifies a workcart as special only
      when its reply equals `true`; a missing plugin (no reply) means no. */
  predicate IsCargoTrain(reply: HookResult): (special: bool)
    ensures special ==> reply.BoolResult? && reply.b
    ensures reply == BoolResult(true) ==> special
    ensures reply == NoResult || reply == OtherResult ==> !special
  {
    reply == BoolResult(true)
  }

  /** The plugin configuration. Seconds are whole seconds here; the card
      reader positions are left out. */
  datatype Configuration = Configuration(
    addToAllWorkcarts: bool,
    addToAutomatedWorkcarts: bool,
    allowedSecondsToSwipeBeforeEject: int,
    enableGlobalAuthorization: bool,
    authorizationGraceTimeSecondsOffWorkcart: int,
    cardPercentConditionLossPerSwipe: int,
    requiredCardSkin: nat,
    cardReaderAccessLevel: int)

  /** The compiled-in defaults. */
  const DefaultConfiguration := Configuration(
    addToAllWorkcarts := false,
    addToAutomatedWorkcarts := true,
    allowedSecondsToSwipeBeforeEject := 10,
    enableGlobalAuthorization := false,
    authorizationGraceTimeSecondsOffWorkcart := 60,
    cardPercentConditionLossPerSwipe := 25,
    requiredCardSkin := 0,
    cardReaderAccessLevel := 1)

  /** A new "swipe required" warning needs this many seconds since the last. */
  const WarningCooldownSeconds := 5

  /** The chat messages the plugin sends (their localised text is left out). */
  datatype Message =
    | ErrorCardNotAccepted
    | WarningSwipeRequired(seconds: int)
    | SuccessAuthorizedToWorkcart
    | SuccessAuthorizedToAllWorkcarts
    | SuccessAlreadyAuthorized
    | InfoStillAuthorized(seconds: int)
    | InfoRemovedForNotSwiping

  /** What the plugin does that other code can observe: a chat message to a
      player, or one of the informational hooks. */
  datatype Event =
    | Chat(to: PlayerId, message: Message)
    | PlayerAuthorized(vehicle: VehicleId, player: PlayerId)
    | PlayerDeauthorized(vehicle: VehicleId, player: PlayerId)
    | PlayerEjected(vehicle: VehicleId, player: PlayerId)
}
