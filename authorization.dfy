/** The authorisation store: one global set of authorised players, and one
    set per workcart that carries a card reader. The configuration flag
    `enableGlobalAuthorization` picks which of the two a running plugin uses. */
module Authorization {
  import opened Types

  /** The global set and the per-workcart sets; the keys of `perVehicle`
      are exactly the workcarts that carry a card reader component. */
  datatype AuthSets = AuthSets(global: set<PlayerId>, perVehicle: map<VehicleId, set<PlayerId>>)

  /** The free-rides permission short-circuits the check; otherwise the
      scope-selected set decides. */
  predicate IsPlayerAuthorized(globalMode: bool, s: AuthSets, vehicle: VehicleId, player: PlayerId, freeRides: bool): (r: bool)
    ensures freeRides ==> r
    ensures globalMode && !freeRides ==> (r <==> player in s.global)
    ensures !globalMode && vehicle !in s.perVehicle ==> (r <==> freeRides)
    ensures !globalMode && vehicle in s.perVehicle && !freeRides ==> (r <==> player in s.perVehicle[vehicle])
  {
    freeRides
    || (if globalMode then player in s.global
        else vehicle in s.perVehicle && player in s.perVehicle[vehicle])
  }

  /** The store after a successful authorisation: the player is added to
      the scope-selected set only. */
  function Grant(globalMode: bool, s: AuthSets, vehicle: VehicleId, player: PlayerId): AuthSets
  {
    if globalMode then s.(global := s.global + {player})
    else if vehicle in s.perVehicle then
      s.(perVehicle := s.perVehicle[vehicle := s.perVehicle[vehicle] + {player}])
    else s
  }

  /** The store after a successful deauthorisation. */
  function Revoke(globalMode: bool, s: AuthSets, vehicle: VehicleId, player: PlayerId): AuthSets
  {
    if globalMode then s.(global := s.global - {player})
    else if vehicle in s.perVehicle then
      s.(perVehicle := s.perVehicle[vehicle := s.perVehicle[vehicle] - {player}])
    else s
  }

  /** Scope invariant: a plugin in global mode never fills a per-workcart
      set, and one in per-workcart mode never fills the global set. */
  ghost predicate ScopeRespected(globalMode: bool, s: AuthSets)
  {
    if globalMode then forall v :: v in s.perVehicle ==> s.perVehicle[v] == {}
    else s.global == {}
  }

  lemma FreeRidesAlwaysAuthorized(globalMode: bool, s: AuthSets, vehicle: VehicleId, player: PlayerId)
    ensures IsPlayerAuthorized(globalMode, s, vehicle, player, true)
  {
  }

  /** After a grant the player is authorised on that workcart, and in
      global mode on every workcart. */
  lemma GrantAuthorizes(globalMode: bool, s: AuthSets, vehicle: VehicleId, player: PlayerId, freeRides: bool)
    requires globalMode || vehicle in s.perVehicle
    ensures IsPlayerAuthorized(globalMode, Grant(globalMode, s, vehicle, player), vehicle, player, freeRides)
    ensures globalMode ==> forall v :: IsPlayerAuthorized(globalMode, Grant(globalMode, s, vehicle, player), v, player, freeRides)
  {
  }

  /** A grant changes no answer except the one for that player (and, in
      per-workcart mode, that workcart). */
  lemma GrantIsolated(globalMode: bool, s: AuthSets, vehicle: VehicleId, player: PlayerId,
                      v: VehicleId, p: PlayerId, freeRides: bool)
    requires p != player || (!globalMode && v != vehicle)
    ensures IsPlayerAuthorized(globalMode, Grant(globalMode, s, vehicle, player), v, p, freeRides)
        == IsPlayerAuthorized(globalMode, s, v, p, freeRides)
  {
  }

  /** In per-workcart mode every other workcart's set is left as it was. */
  lemma GrantLeavesOtherVehicles(s: AuthSets, vehicle: VehicleId, player: PlayerId)
    ensures Grant(false, s, vehicle, player).perVehicle.Keys == s.perVehicle.Keys
    ensures Grant(false, s, vehicle, player).global == s.global
    ensures forall v :: v in s.perVehicle && v != vehicle ==>
      Grant(false, s, vehicle, player).perVehicle[v] == s.perVehicle[v]
  {
  }

  /** After a revocation only the free-rides permission can still
      authorise the player on that workcart. */
  lemma RevokeDeauthorizes(globalMode: bool, s: AuthSets, vehicle: VehicleId, player: PlayerId, freeRides: bool)
    ensures IsPlayerAuthorized(globalMode, Revoke(globalMode, s, vehicle, player), vehicle, player, freeRides) == freeRides
  {
  }

  lemma RevokeIsolated(globalMode: bool, s: AuthSets, vehicle: VehicleId, player: PlayerId,
                       v: VehicleId, p: PlayerId, freeRides: bool)
    requires p != player || (!globalMode && v != vehicle)
    ensures IsPlayerAuthorized(globalMode, Revoke(globalMode, s, vehicle, player), v, p, freeRides)
        == IsPlayerAuthorized(globalMode, s, v, p, freeRides)
  {
  }

  /** Granting twice is granting once; a revocation undoes a grant to a
      player who was not in the set before. */
  lemma GrantIdempotentAndUndone(globalMode: bool, s: AuthSets, vehicle: VehicleId, player: PlayerId)
    ensures Grant(globalMode, Grant(globalMode, s, vehicle, player), vehicle, player) == Grant(globalMode, s, vehicle, player)
    ensures !IsPlayerAuthorized(globalMode, s, vehicle, player, false) ==>
      Revoke(globalMode, Grant(globalMode, s, vehicle, player), vehicle, player) == s
  {
    if !IsPlayerAuthorized(globalMode, s, vehicle, player, false) {
      if globalMode {
        assert s.global + {player} - {player} == s.global;
      } else if vehicle in s.perVehicle {
        assert s.perVehicle[vehicle] + {player} - {player} == s.perVehicle[vehicle];
        assert s.perVehicle[vehicle := s.perVehicle[vehicle]] == s.perVehicle;
      }
    }
  }

  /** Both operations keep the scope invariant. */
  lemma GrantRevokeRespectScope(globalMode: bool, s: AuthSets, vehicle: VehicleId, player: PlayerId)
    requires ScopeRespected(globalMode, s)
    ensures ScopeRespected(globalMode, Grant(globalMode, s, vehicle, player))
    ensures ScopeRespected(globalMode, Revoke(globalMode, s, vehicle, player))
  {
  }
}
