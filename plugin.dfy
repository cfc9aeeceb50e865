/** The plugin's session state machine: who may ride each workcart that
    carries a card reader, the pending per-player timers, and the event
    handlers for boarding, leaving, swiping and a timer running. */
module WorkcartCardReaders {
  import opened Types
  import opened Authorization
  import opened Timers
  import opened Cards
  import Presence

  /** The plugin instance. Everything the game host knows (permissions,
      trigger contents, hook replies, the clock) comes in as parameters. */
  class Plugin {
    const config: Configuration

    /** `_globallyAuthorizedPlayers`, used in global mode. */
    var globallyAuthorizedPlayers: set<PlayerId>
    /** The workcarts that carry a card reader component, each with the
        component's `_authorizedUsers` (used in per-workcart mode). */
    var cardReaders: map<VehicleId, set<PlayerId>>
    /** `_playerTimers`: player to timer handle. */
    var playerTimers: map<PlayerId, TimerId>
    /** The host's one-shot timers that have neither run nor been destroyed. */
    var scheduled: map<TimerId, Timer>
    var nextTimerId: nat
    /** `_playerLastWarned`: when each player was last told to swipe. */
    var playerLastWarned: map<PlayerId, int>
    /** Chat messages sent and informational hooks called, in order. */
    var log: seq<Event>

    function Sets(): AuthSets
      reads this
    {
      AuthSets(globallyAuthorizedPlayers, cardReaders)
    }

    function Table(): TimerTable
      reads this
    {
      TimerTable(playerTimers, scheduled, nextTimerId)
    }

    ghost predicate Valid()
      reads this
    {
      Consistent(Table()) && ScopeRespected(config.enableGlobalAuthorization, Sets())
    }

    /** The plugin's `IsPlayerAuthorized`, on the current store. */
    function IsPlayerAuthorized(vehicle: VehicleId, player: PlayerId, freeRides: bool): (r: bool)
      reads this
      ensures freeRides ==> r
      ensures config.enableGlobalAuthorization && !freeRides ==> (r <==> player in globallyAuthorizedPlayers)
      ensures !config.enableGlobalAuthorization && !freeRides ==>
        (r <==> vehicle in cardReaders && player in cardReaders[vehicle])
    {
      Authorization.IsPlayerAuthorized(config.enableGlobalAuthorization, Sets(), vehicle, player, freeRides)
    }

    /** A warning is due if the player was never warned or was last warned
        more than five seconds ago. */
    function WarningDue(player: PlayerId, now: int): (due: bool)
      reads this
      ensures player !in playerLastWarned ==> due
      ensures player in playerLastWarned ==> (due <==> now - playerLastWarned[player] > WarningCooldownSeconds)
    {
      player !in playerLastWarned || now > playerLastWarned[player] + WarningCooldownSeconds
    }

    /** Authorisation is session-scoped: a loaded plugin starts empty. */
    constructor (config: Configuration)
      ensures this.config == config && Valid()
      ensures Sets() == AuthSets({}, map[]) && Table() == EmptyTable
      ensures playerLastWarned == map[] && log == []
    {
      this.config := config;
      globallyAuthorizedPlayers := {};
      cardReaders := map[];
      playerTimers := map[];
      scheduled := map[];
      nextTimerId := 0;
      playerLastWarned := map[];
      log := [];
    }

    // ---------------------------------------------------------------
    // Card reader components

    /** `AddCardReader`: vetoable by the add hook, refused for the Cargo
        Train Event's special train, and otherwise get-or-add (an existing
        component, with its set, is kept). */
    method AddCardReader(vehicle: VehicleId, addHook: HookResult, cargoReply: HookResult) returns (ok: bool)
      requires Valid()
      modifies this
      ensures Valid()
      ensures ok == (!WasBlocked(addHook) && !IsCargoTrain(cargoReply))
      ensures cardReaders == if ok && vehicle !in old(cardReaders) then old(cardReaders)[vehicle := {}] else old(cardReaders)
      ensures ok ==> vehicle in cardReaders
      ensures globallyAuthorizedPlayers == old(globallyAuthorizedPlayers) && Table() == old(Table())
      ensures playerLastWarned == old(playerLastWarned) && log == old(log)
    {
      if WasBlocked(addHook) {
        return false;
      }
      if IsCargoTrain(cargoReply) {
        return false;
      }
      if vehicle !in cardReaders {
        cardReaders := cardReaders[vehicle := {}];
      }
      return true;
    }

    /** `API_AddCardReader`: an existing reader answers true at once;
        afterwards the workcart has a reader exactly when true is returned. */
    method ApiAddCardReader(vehicle: VehicleId, addHook: HookResult, cargoReply: HookResult) returns (ok: bool)
      requires Valid()
      modifies this
      ensures Valid()
      ensures vehicle in old(cardReaders) ==> ok && unchanged(this)
      ensures vehicle !in old(cardReaders) ==>
        && ok == (!WasBlocked(addHook) && !IsCargoTrain(cargoReply))
        && cardReaders == (if ok then old(cardReaders)[vehicle := {}] else old(cardReaders))
        && globallyAuthorizedPlayers == old(globallyAuthorizedPlayers) && Table() == old(Table())
        && playerLastWarned == old(playerLastWarned) && log == old(log)
      ensures ok <==> vehicle in cardReaders
    {
      if vehicle in cardReaders {
        return true;
      }
      ok := AddCardReader(vehicle, addHook, cargoReply);
    }

    /** `RemoveFromWorkcart` (automation stopped, `API_RemoveCardReader`):
        the component and its set go; pending timers are not touched. */
    method RemoveCardReader(vehicle: VehicleId)
      requires Valid()
      modifies this
      ensures Valid()
      ensures cardReaders == old(cardReaders) - {vehicle}
      ensures globallyAuthorizedPlayers == old(globallyAuthorizedPlayers) && Table() == old(Table())
      ensures playerLastWarned == old(playerLastWarned) && log == old(log)
    {
      cardReaders := cardReaders - {vehicle};
    }

    /** `API_HasCardReader`: the workcart has a reader component exactly
        when the store holds a set for it; without one, in per-workcart
        mode, only free rides authorise. */
    function ApiHasCardReader(vehicle: VehicleId): (r: bool)
      reads this
      ensures r <==> vehicle in Sets().perVehicle
      ensures !r && !config.enableGlobalAuthorization ==>
        forall player :: !IsPlayerAuthorized(vehicle, player, false)
    {
      vehicle in cardReaders
    }

    // ---------------------------------------------------------------
    // Authorisation

    /** `AuthorizePlayer`: a veto changes nothing; otherwise the player is
        added to the scope-selected set and the authorised hook is called. */
    method AuthorizePlayer(vehicle: VehicleId, player: PlayerId, authorizeHook: HookResult) returns (ok: bool)
      requires Valid()
      modifies this
      ensures Valid()
      ensures ok == !WasBlocked(authorizeHook)
      ensures !ok ==> unchanged(this)
      ensures Sets() == if ok then Grant(config.enableGlobalAuthorization, old(Sets()), vehicle, player) else old(Sets())
      ensures Table() == old(Table()) && playerLastWarned == old(playerLastWarned)
      ensures log == old(log) + (if ok then [PlayerAuthorized(vehicle, player)] else [])
    {
      if WasBlocked(authorizeHook) {
        return false;
      }
      GrantRevokeRespectScope(config.enableGlobalAuthorization, Sets(), vehicle, player);
      if config.enableGlobalAuthorization {
        globallyAuthorizedPlayers := globallyAuthorizedPlayers + {player};
      } else if vehicle in cardReaders {
        cardReaders := cardReaders[vehicle := cardReaders[vehicle] + {player}];
      }
      log := log + [PlayerAuthorized(vehicle, player)];
      return true;
    }

    /** `DeauthorizePlayer`: the same with removal. */
    method DeauthorizePlayer(vehicle: VehicleId, player: PlayerId, deauthorizeHook: HookResult) returns (ok: bool)
      requires Valid()
      modifies this
      ensures Valid()
      ensures ok == !WasBlocked(deauthorizeHook)
      ensures !ok ==> unchanged(this)
      ensures Sets() == if ok then Revoke(config.enableGlobalAuthorization, old(Sets()), vehicle, player) else old(Sets())
      ensures Table() == old(Table()) && playerLastWarned == old(playerLastWarned)
      ensures log == old(log) + (if ok then [PlayerDeauthorized(vehicle, player)] else [])
    {
      if WasBlocked(deauthorizeHook) {
        return false;
      }
      GrantRevokeRespectScope(config.enableGlobalAuthorization, Sets(), vehicle, player);
      if config.enableGlobalAuthorization {
        globallyAuthorizedPlayers := globallyAuthorizedPlayers - {player};
      } else if vehicle in cardReaders {
        cardReaders := cardReaders[vehicle := cardReaders[vehicle] - {player}];
      }
      log := log + [PlayerDeauthorized(vehicle, player)];
      return true;
    }

    /** `API_AuthorizePlayer`: false without a reader; true at once, with
        no hook call, for a player already authorised. */
    method ApiAuthorizePlayer(vehicle: VehicleId, player: PlayerId, freeRides: bool, authorizeHook: HookResult)
      returns (ok: bool)
      requires Valid()
      modifies this
      ensures Valid()
      ensures vehicle !in old(cardReaders) ==> !ok && unchanged(this)
      ensures vehicle in old(cardReaders) && old(IsPlayerAuthorized(vehicle, player, freeRides)) ==> ok && unchanged(this)
      ensures vehicle in old(cardReaders) && !old(IsPlayerAuthorized(vehicle, player, freeRides)) ==>
        && ok == !WasBlocked(authorizeHook)
        && Sets() == (if ok then Grant(config.enableGlobalAuthorization, old(Sets()), vehicle, player) else old(Sets()))
        && Table() == old(Table()) && playerLastWarned == old(playerLastWarned)
        && log == old(log) + (if ok then [PlayerAuthorized(vehicle, player)] else [])
      ensures ok <==> vehicle in cardReaders && IsPlayerAuthorized(vehicle, player, freeRides)
    {
      if vehicle !in cardReaders {
        return false;
      }
      if IsPlayerAuthorized(vehicle, player, freeRides) {
        return true;
      }
      ok := AuthorizePlayer(vehicle, player, authorizeHook);
      GrantAuthorizes(config.enableGlobalAuthorization, old(Sets()), vehicle, player, freeRides);
    }

    /** `API_DeauthorizePlayer`: false without a reader; true at once, with
        no hook call, for a player who is not authorised. */
    method ApiDeauthorizePlayer(vehicle: VehicleId, player: PlayerId, freeRides: bool, deauthorizeHook: HookResult)
      returns (ok: bool)
      requires Valid()
      modifies this
      ensures Valid()
      ensures vehicle !in old(cardReaders) ==> !ok && unchanged(this)
      ensures vehicle in old(cardReaders) && !old(IsPlayerAuthorized(vehicle, player, freeRides)) ==> ok && unchanged(this)
      ensures vehicle in old(cardReaders) && old(IsPlayerAuthorized(vehicle, player, freeRides)) ==>
        && ok == !WasBlocked(deauthorizeHook)
        && Sets() == (if ok then Revoke(config.enableGlobalAuthorization, old(Sets()), vehicle, player) else old(Sets()))
        && Table() == old(Table()) && playerLastWarned == old(playerLastWarned)
        && log == old(log) + (if ok then [PlayerDeauthorized(vehicle, player)] else [])
      ensures ok && !freeRides ==> !IsPlayerAuthorized(vehicle, player, freeRides)
    {
      if vehicle !in cardReaders {
        return false;
      }
      if !IsPlayerAuthorized(vehicle, player, freeRides) {
        return true;
      }
      ok := DeauthorizePlayer(vehicle, player, deauthorizeHook);
      RevokeDeauthorizes(config.enableGlobalAuthorization, old(Sets()), vehicle, player, freeRides);
    }

    /** `API_IsPlayerAuthorized`: false for a workcart without a reader,
        even for a player with free rides; otherwise the plugin's answer. */
    function ApiIsPlayerAuthorized(vehicle: VehicleId, player: PlayerId, freeRides: bool): (r: bool)
      reads this
      ensures r ==> vehicle in cardReaders
      ensures vehicle in cardReaders && freeRides ==> r
      ensures vehicle in cardReaders ==> (r <==> IsPlayerAuthorized(vehicle, player, freeRides))
      ensures vehicle in cardReaders && !freeRides ==>
        (r <==> player in (if config.enableGlobalAuthorization then globallyAuthorizedPlayers else cardReaders[vehicle]))
    {
      vehicle in cardReaders && IsPlayerAuthorized(vehicle, player, freeRides)
    }

    // ---------------------------------------------------------------
    // Timers

    /** `DestroyExistingPlayerTimer`. */
    method DestroyExistingPlayerTimer(player: PlayerId)
      requires Valid()
      modifies this
      ensures Valid()
      ensures Table() == Cancel(old(Table()), player)
      ensures !HasLiveTimer(Table(), player)
      ensures Sets() == old(Sets()) && playerLastWarned == old(playerLastWarned) && log == old(log)
    {
      CancelClearsOnlyThatPlayer(Table(), player);
      if player in playerTimers {
        var handle := playerTimers[player];
        scheduled := scheduled - {handle};
        playerTimers := playerTimers - {player};
      }
    }

    /** Schedule a one-shot timer and record it as its player's entry; the
        handlers call this only right after `DestroyExistingPlayerTimer`. */
    method StartTimer(timer: Timer)
      requires Valid() && timer.player !in playerTimers
      modifies this
      ensures Valid()
      ensures Table() == Install(old(Table()), timer)
      ensures Sets() == old(Sets()) && playerLastWarned == old(playerLastWarned) && log == old(log)
    {
      assert Cancel(Table(), timer.player) == Table();
      InstallAfterCancel(Table(), timer);
      scheduled := scheduled[nextTimerId := timer];
      playerTimers := playerTimers[timer.player := nextTimerId];
      nextTimerId := nextTimerId + 1;
    }

    // ---------------------------------------------------------------
    // Event handlers

    /** `OnEntityEnter`, with the deferred step: whether boarding starts
        an eviction countdown. */
    ghost predicate CountdownStarts(trigger: Option<VehicleId>, player: PlayerId, freeRides: bool,
                                    contents: seq<EntityId>, stillExists: bool)
      reads this
    {
      && trigger.Some? && trigger.value in cardReaders
      && !IsPlayerAuthorized(trigger.value, player, freeRides)
      && player !in contents
      && stillExists
    }

    /** A player enters a platform trigger. Nothing happens if it is not a
        workcart's, the workcart has no reader, the player is authorised or
        already aboard, or (after the tick) the workcart or player is gone.
        Otherwise the player's timer is replaced by a countdown, after a
        warning if one is due. `contents` is the trigger's contents at the
        notification, `stillExists` the liveness recheck of the deferred step. */
    method OnEntityEnter(trigger: Option<VehicleId>, player: PlayerId, freeRides: bool,
                         contents: seq<EntityId>, stillExists: bool, now: int)
      requires Valid()
      modifies this
      ensures Valid()
      ensures !old(CountdownStarts(trigger, player, freeRides, contents, stillExists)) ==> unchanged(this)
      ensures old(CountdownStarts(trigger, player, freeRides, contents, stillExists)) ==>
        && Sets() == old(Sets())
        && Table() == Install(Cancel(old(Table()), player),
                              Timer(player, now + config.allowedSecondsToSwipeBeforeEject, Evict(trigger.value)))
        && playerLastWarned == (if old(WarningDue(player, now)) then old(playerLastWarned)[player := now] else old(playerLastWarned))
        && log == old(log) + (if old(WarningDue(player, now))
                              then [Chat(player, WarningSwipeRequired(config.allowedSecondsToSwipeBeforeEject))]
                              else [])
    {
      if trigger.None? {
        return;
      }
      var vehicle := trigger.value;
      if vehicle !in cardReaders || IsPlayerAuthorized(vehicle, player, freeRides) {
        return;
      }
      var aboard := Presence.HasPlayerOnBoard(contents, player);
      if aboard {
        return;
      }
      // The deferred step.
      if !stillExists {
        return;
      }
      var warn := WarningDue(player, now);
      DestroyExistingPlayerTimer(player);
      if warn {
        log := log + [Chat(player, WarningSwipeRequired(config.allowedSecondsToSwipeBeforeEject))];
        playerLastWarned := playerLastWarned[player := now];
      }
      StartTimer(Timer(player, now + config.allowedSecondsToSwipeBeforeEject, Evict(vehicle)));
    }

    /** Whether an already authorised player boards: the case in which the
        boarding handler as written returns at once. */
    ghost predicate AuthorizedBoarding(trigger: Option<VehicleId>, player: PlayerId, freeRides: bool,
                                       contents: seq<EntityId>, stillExists: bool)
      reads this
    {
      && trigger.Some? && trigger.value in cardReaders
      && IsPlayerAuthorized(trigger.value, player, freeRides)
      && player !in contents
      && stillExists
    }

    /** The boarding handler as evidently intended: an authorised player
        who boards again has the pending grace timer cancelled, so the
        grace period ends on re-boarding instead of revoking the
        authorisation of a player who is riding. Every other case is
        `OnEntityEnter`. */
    method OnEntityEnterCancellingGrace(trigger: Option<VehicleId>, player: PlayerId, freeRides: bool,
                                        contents: seq<EntityId>, stillExists: bool, now: int)
      requires Valid()
      modifies this
      ensures Valid()
      ensures old(AuthorizedBoarding(trigger, player, freeRides, contents, stillExists)) ==>
        && Table() == Cancel(old(Table()), player)
        && !HasLiveTimer(Table(), player)
        && Sets() == old(Sets()) && playerLastWarned == old(playerLastWarned) && log == old(log)
      ensures (!old(AuthorizedBoarding(trigger, player, freeRides, contents, stillExists))
               && !old(CountdownStarts(trigger, player, freeRides, contents, stillExists))) ==> unchanged(this)
      ensures old(CountdownStarts(trigger, player, freeRides, contents, stillExists)) ==>
        && Sets() == old(Sets())
        && Table() == Install(Cancel(old(Table()), player),
                              Timer(player, now + config.allowedSecondsToSwipeBeforeEject, Evict(trigger.value)))
        && playerLastWarned == (if old(WarningDue(player, now)) then old(playerLastWarned)[player := now] else old(playerLastWarned))
        && log == old(log) + (if old(WarningDue(player, now))
                              then [Chat(player, WarningSwipeRequired(config.allowedSecondsToSwipeBeforeEject))]
                              else [])
    {
      if trigger.Some? && trigger.value in cardReaders && IsPlayerAuthorized(trigger.value, player, freeRides) {
        var aboard := Presence.HasPlayerOnBoard(contents, player);
        if !aboard && stillExists {
          DestroyExistingPlayerTimer(player);
        }
        return;
      }
      OnEntityEnter(trigger, player, freeRides, contents, stillExists, now);
    }

    /** Whether the deferred step of `OnEntityLeave` goes past its checks. */
    ghost predicate LeaveHandled(trigger: Option<VehicleId>, player: PlayerId, contents: seq<EntityId>, stillExists: bool)
      reads this
    {
      trigger.Some? && trigger.value in cardReaders && stillExists && player !in contents
    }

    /** A player leaves a platform trigger. After the tick, if the player is
        not still aboard (`contents` is the trigger's contents then), the
        player's timer is cancelled, and an authorised player without free
        rides gets a grace timer and a notice. */
    method OnEntityLeave(trigger: Option<VehicleId>, player: PlayerId, freeRides: bool,
                         contents: seq<EntityId>, stillExists: bool, now: int)
      requires Valid()
      modifies this
      ensures Valid()
      ensures !old(LeaveHandled(trigger, player, contents, stillExists)) ==> unchanged(this)
      ensures old(LeaveHandled(trigger, player, contents, stillExists)) ==>
        var grace := old(IsPlayerAuthorized(trigger.value, player, freeRides)) && !freeRides;
        && Sets() == old(Sets()) && playerLastWarned == old(playerLastWarned)
        && Table() == (if grace
                       then Install(Cancel(old(Table()), player),
                                    Timer(player, now + config.authorizationGraceTimeSecondsOffWorkcart, Grace(trigger.value)))
                       else Cancel(old(Table()), player))
        && log == old(log) + (if grace
                              then [Chat(player, InfoStillAuthorized(config.authorizationGraceTimeSecondsOffWorkcart))]
                              else [])
    {
      if trigger.None? {
        return;
      }
      var vehicle := trigger.value;
      if vehicle !in cardReaders {
        return;
      }
      // The deferred step.
      if !stillExists {
        return;
      }
      var aboard := Presence.HasPlayerOnBoard(contents, player);
      if aboard {
        return;
      }
      DestroyExistingPlayerTimer(player);
      if IsPlayerAuthorized(vehicle, player, freeRides) && !freeRides {
        log := log + [Chat(player, InfoStillAuthorized(config.authorizationGraceTimeSecondsOffWorkcart))];
        StartTimer(Timer(player, now + config.authorizationGraceTimeSecondsOffWorkcart, Grace(vehicle)));
      }
    }

    /** Whether a swipe gets as far as testing the card: the reader sits on a
        workcart that carries the plugin's component. */
    ghost predicate SwipeHandled(parent: Option<VehicleId>)
      reads this
    {
      parent.Some? && parent.value in cardReaders
    }

    /** `OnCardSwipe`. `None` lets the game handle the swipe; every swipe
        the plugin handles answers `Some(false)`. The card comes back as
        `None` when it was used up and removed. */
    method OnCardSwipe(parent: Option<VehicleId>, readerAccessLevel: int, card: Keycard, player: PlayerId,
                       freeRides: bool, authorizeHook: HookResult)
      returns (result: Option<bool>, cardAfter: Option<Keycard>)
      requires Valid()
      modifies this
      ensures Valid()
      ensures !old(SwipeHandled(parent)) ==> result == None && cardAfter == Some(card) && unchanged(this)
      ensures old(SwipeHandled(parent)) ==> result == Some(false)
      ensures old(SwipeHandled(parent)) && !IsCardAccepted(config.requiredCardSkin, readerAccessLevel, card) ==>
        && cardAfter == Some(card)
        && Sets() == old(Sets()) && Table() == old(Table()) && playerLastWarned == old(playerLastWarned)
        && log == old(log) + [Chat(player, ErrorCardNotAccepted)]
      ensures old(SwipeHandled(parent)) && IsCardAccepted(config.requiredCardSkin, readerAccessLevel, card)
              && old(IsPlayerAuthorized(parent.value, player, freeRides)) ==>
        && cardAfter == Some(card)
        && Sets() == old(Sets()) && Table() == old(Table()) && playerLastWarned == old(playerLastWarned)
        && log == old(log) + [Chat(player, SuccessAlreadyAuthorized)]
      ensures old(SwipeHandled(parent)) && IsCardAccepted(config.requiredCardSkin, readerAccessLevel, card)
              && !old(IsPlayerAuthorized(parent.value, player, freeRides)) && WasBlocked(authorizeHook) ==>
        cardAfter == Some(card) && unchanged(this)
      ensures old(SwipeHandled(parent)) && IsCardAccepted(config.requiredCardSkin, readerAccessLevel, card)
              && !old(IsPlayerAuthorized(parent.value, player, freeRides)) && !WasBlocked(authorizeHook) ==>
        && cardAfter == Wear(card, config.cardPercentConditionLossPerSwipe)
        && Sets() == Grant(config.enableGlobalAuthorization, old(Sets()), parent.value, player)
        && IsPlayerAuthorized(parent.value, player, freeRides)
        && Table() == Cancel(old(Table()), player)
        && playerLastWarned == old(playerLastWarned)
        && log == old(log) + [PlayerAuthorized(parent.value, player),
                              Chat(player, if config.enableGlobalAuthorization then SuccessAuthorizedToAllWorkcarts
                                           else SuccessAuthorizedToWorkcart)]
    {
      cardAfter := Some(card);
      if parent.None? {
        return None, cardAfter;
      }
      var vehicle := parent.value;
      if vehicle !in cardReaders {
        return None, cardAfter;
      }
      if !IsCardAccepted(config.requiredCardSkin, readerAccessLevel, card) {
        log := log + [Chat(player, ErrorCardNotAccepted)];
        return Some(false), cardAfter;
      }
      if IsPlayerAuthorized(vehicle, player, freeRides) {
        log := log + [Chat(player, SuccessAlreadyAuthorized)];
        return Some(false), cardAfter;
      }
      var authorized := AuthorizePlayer(vehicle, player, authorizeHook);
      if !authorized {
        return Some(false), cardAfter;
      }
      GrantAuthorizes(config.enableGlobalAuthorization, old(Sets()), vehicle, player, freeRides);
      cardAfter := Wear(card, config.cardPercentConditionLossPerSwipe);
      DestroyExistingPlayerTimer(player);
      if config.enableGlobalAuthorization {
        log := log + [Chat(player, SuccessAuthorizedToAllWorkcarts)];
      } else {
        log := log + [Chat(player, SuccessAuthorizedToWorkcart)];
      }
      return Some(false), cardAfter;
    }

    /** Whether the host's timer queue runs `player`'s timer at `now`. */
    ghost predicate TimerDue(player: PlayerId, now: int)
      reads this
    {
      HasLiveTimer(Table(), player) && scheduled[playerTimers[player]].due <= now
    }

    /** The host runs `player`'s timer. The eviction callback ejects the
        player only if still unauthorised and still aboard (`contents` is the
        trigger's contents now) and the eject hook (`vetoHook`) does not
        veto, then drops the entry either way. The grace callback
        deauthorises, unless the deauthorise hook (`vetoHook`) vetoes, and
        drops the entry only if it did; a vetoed deauthorisation is not
        retried. */
    method Fire(player: PlayerId, now: int, freeRides: bool, contents: seq<EntityId>, vetoHook: HookResult)
      returns (fired: bool, ejected: bool)
      requires Valid()
      modifies this
      ensures Valid()
      ensures fired == old(TimerDue(player, now))
      ensures !fired ==> !ejected && unchanged(this)
      ensures fired ==>
        var handle := old(playerTimers[player]);
        var task := old(scheduled[playerTimers[player]]).task;
        !HasLiveTimer(Table(), player) &&
        (task.Evict? ==>
          && ejected == (!old(IsPlayerAuthorized(task.vehicle, player, freeRides)) && player in contents
                         && !WasBlocked(vetoHook))
          && Sets() == old(Sets()) && playerLastWarned == old(playerLastWarned)
          && Table() == Forget(Expire(old(Table()), handle), player)
          && log == old(log) + (if ejected then [Chat(player, InfoRemovedForNotSwiping), PlayerEjected(task.vehicle, player)]
                                else [])) &&
        (task.Grace? ==>
          var deauthorized := !WasBlocked(vetoHook);
          && !ejected
          && Sets() == (if deauthorized then Revoke(config.enableGlobalAuthorization, old(Sets()), task.vehicle, player)
                        else old(Sets()))
          && playerLastWarned == old(playerLastWarned)
          && Table() == (if deauthorized then Forget(Expire(old(Table()), handle), player)
                         else Expire(old(Table()), handle))
          && log == old(log) + (if deauthorized then [PlayerDeauthorized(task.vehicle, player)] else []))
    {
      ejected := false;
      if !(player in playerTimers && playerTimers[player] in scheduled && scheduled[playerTimers[player]].due <= now) {
        return false, false;
      }
      fired := true;
      var handle := playerTimers[player];
      var timer := scheduled[handle];
      FireKeepsConsistent(Table(), player);
      scheduled := scheduled - {handle};
      match timer.task {
        case Evict(vehicle) =>
          if !IsPlayerAuthorized(vehicle, player, freeRides) {
            var aboard := Presence.HasPlayerOnBoard(contents, player);
            if aboard {
              ejected := PerformEject(vehicle, player, vetoHook);
            }
          }
          playerTimers := playerTimers - {player};
        case Grace(vehicle) =>
          var deauthorized := DeauthorizePlayer(vehicle, player, vetoHook);
          if deauthorized {
            playerTimers := playerTimers - {player};
          }
      }
    }

    /** `PerformEject`, reduced to its observable part: unless the eject
        hook vetoes, the player is told and the ejected hook is called. The
        relocation itself is left to the host. */
    method PerformEject(vehicle: VehicleId, player: PlayerId, ejectHook: HookResult) returns (ejected: bool)
      modifies this
      ensures ejected == !WasBlocked(ejectHook)
      ensures log == old(log) + (if ejected then [Chat(player, InfoRemovedForNotSwiping), PlayerEjected(vehicle, player)] else [])
      ensures Sets() == old(Sets()) && Table() == old(Table()) && playerLastWarned == old(playerLastWarned)
    {
      if WasBlocked(ejectHook) {
        return false;
      }
      log := log + [Chat(player, InfoRemovedForNotSwiping), PlayerEjected(vehicle, player)];
      return true;
    }
  }
}
