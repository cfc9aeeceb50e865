/** Runs of the plugin from a fresh load, under the default configuration
    (per-workcart authorisation, ten seconds to swipe, sixty seconds of
    grace, 25% wear), proved from the handlers' contracts alone. */
module Scenarios {
  import opened Types
  import opened Cards
  import opened WorkcartCardReaders

  /** An unauthorised player boards and does not swipe: warned once (a
      duplicate trigger notification neither warns nor restarts the
      countdown), not evicted before the countdown ends, evicted once when
      it does. */
  method EvictionAfterCountdown(vehicle: VehicleId, player: PlayerId)
    returns (early: bool, fired: bool, ejected: bool, events: seq<Event>)
    ensures !early && fired && ejected
    ensures events == [Chat(player, WarningSwipeRequired(10)),
                       Chat(player, InfoRemovedForNotSwiping),
                       PlayerEjected(vehicle, player)]
  {
    var plugin := new Plugin(DefaultConfiguration);
    var added := plugin.AddCardReader(vehicle, NoResult, NoResult);
    plugin.OnEntityEnter(Some(vehicle), player, false, [], true, 0);
    plugin.OnEntityEnter(Some(vehicle), player, false, [player], true, 2);
    var ejectedEarly;
    early, ejectedEarly := plugin.Fire(player, 9, false, [player], NoResult);
    fired, ejected := plugin.Fire(player, 10, false, [player], NoResult);
    events := plugin.log;
  }

  /** Swiping an accepted card during the countdown authorises the player,
      wears the card by 25 points of its 100 and cancels the eviction. */
  method SwipeCancelsEviction(vehicle: VehicleId, player: PlayerId)
    returns (result: Option<bool>, cardAfter: Option<Keycard>, fired: bool, authorized: bool)
    ensures result == Some(false)
    ensures cardAfter == Some(Keycard(0, 1, 75.0, 100.0))
    ensures !fired && authorized
  {
    var plugin := new Plugin(DefaultConfiguration);
    var added := plugin.AddCardReader(vehicle, NoResult, NoResult);
    plugin.OnEntityEnter(Some(vehicle), player, false, [], true, 0);
    result, cardAfter := plugin.OnCardSwipe(Some(vehicle), 1, Keycard(0, 1, 100.0, 100.0), player, false, NoResult);
    var ejected;
    fired, ejected := plugin.Fire(player, 10, false, [player], NoResult);
    authorized := plugin.IsPlayerAuthorized(vehicle, player, false);
  }

  /** An authorised player who leaves keeps the authorisation through the
      grace period and loses it when the grace timer runs. */
  method GraceExpiryRevokes(vehicle: VehicleId, player: PlayerId)
    returns (authorizedDuringGrace: bool, fired: bool, authorizedAfter: bool)
    ensures authorizedDuringGrace && fired && !authorizedAfter
  {
    var plugin := new Plugin(DefaultConfiguration);
    var added := plugin.AddCardReader(vehicle, NoResult, NoResult);
    var ok := plugin.ApiAuthorizePlayer(vehicle, player, false, NoResult);
    plugin.OnEntityLeave(Some(vehicle), player, false, [], true, 0);
    authorizedDuringGrace := plugin.IsPlayerAuthorized(vehicle, player, false);
    var ejected;
    fired, ejected := plugin.Fire(player, 60, false, [], NoResult);
    authorizedAfter := plugin.IsPlayerAuthorized(vehicle, player, false);
  }

  /** A vetoed grace deauthorisation leaves the player authorised, keeps
      the stale entry, and is not retried. */
  method VetoedGraceNotRetried(vehicle: VehicleId, player: PlayerId)
    returns (fired: bool, firedAgain: bool, authorized: bool, entryKept: bool)
    ensures fired && !firedAgain && authorized && entryKept
  {
    var plugin := new Plugin(DefaultConfiguration);
    var added := plugin.AddCardReader(vehicle, NoResult, NoResult);
    var ok := plugin.ApiAuthorizePlayer(vehicle, player, false, NoResult);
    plugin.OnEntityLeave(Some(vehicle), player, false, [], true, 0);
    var ejected;
    fired, ejected := plugin.Fire(player, 60, false, [], BoolResult(false));
    firedAgain, ejected := plugin.Fire(player, 120, false, [], NoResult);
    authorized := plugin.IsPlayerAuthorized(vehicle, player, false);
    entryKept := player in plugin.playerTimers;
  }

  /** The handler as written: an authorised player who leaves and boards
      again within the grace period is deauthorised while riding, because
      boarding returns before cancelling the grace timer. */
  method ReboardingWithinGraceAsWritten(vehicle: VehicleId, player: PlayerId)
    returns (fired: bool, authorized: bool)
    ensures fired && !authorized
  {
    var plugin := new Plugin(DefaultConfiguration);
    var added := plugin.AddCardReader(vehicle, NoResult, NoResult);
    var ok := plugin.ApiAuthorizePlayer(vehicle, player, false, NoResult);
    plugin.OnEntityLeave(Some(vehicle), player, false, [], true, 0);
    plugin.OnEntityEnter(Some(vehicle), player, false, [], true, 10);
    var ejected;
    fired, ejected := plugin.Fire(player, 60, false, [player], NoResult);
    authorized := plugin.IsPlayerAuthorized(vehicle, player, false);
  }

  /** The corrected boarding handler: the same run keeps the player
      authorised, since boarding ended the grace period. */
  method ReboardingWithinGraceCorrected(vehicle: VehicleId, player: PlayerId)
    returns (fired: bool, authorized: bool)
    ensures !fired && authorized
  {
    var plugin := new Plugin(DefaultConfiguration);
    var added := plugin.AddCardReader(vehicle, NoResult, NoResult);
    var ok := plugin.ApiAuthorizePlayer(vehicle, player, false, NoResult);
    plugin.OnEntityLeave(Some(vehicle), player, false, [], true, 0);
    plugin.OnEntityEnterCancellingGrace(Some(vehicle), player, false, [], true, 10);
    var ejected;
    fired, ejected := plugin.Fire(player, 60, false, [player], NoResult);
    authorized := plugin.IsPlayerAuthorized(vehicle, player, false);
  }

  /** Global mode: one swipe on one workcart authorises the player on
      every workcart with a reader. */
  method GlobalSwipeAuthorizesEverywhere(v1: VehicleId, v2: VehicleId, player: PlayerId)
    returns (onFirst: bool, onSecond: bool)
    ensures onFirst && onSecond
  {
    var plugin := new Plugin(DefaultConfiguration.(enableGlobalAuthorization := true));
    var added := plugin.AddCardReader(v1, NoResult, NoResult);
    added := plugin.AddCardReader(v2, NoResult, NoResult);
    var result, cardAfter := plugin.OnCardSwipe(Some(v1), 1, Keycard(0, 1, 100.0, 100.0), player, false, NoResult);
    onFirst := plugin.ApiIsPlayerAuthorized(v1, player, false);
    onSecond := plugin.ApiIsPlayerAuthorized(v2, player, false);
  }
}
