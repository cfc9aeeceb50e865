/** The per-player timer table (`_playerTimers`) together with the host's
    queue of one-shot timers that are still due to run. An entry of the
    table may outlive its timer (the grace callback keeps it after a vetoed
    deauthorisation); a timer that was destroyed never runs. */
module Timers {
  import opened Types

  type TimerId = nat

  /** What a timer does when it runs. */
  datatype Task =
    | Evict(vehicle: VehicleId)   // the countdown started on boarding
    | Grace(vehicle: VehicleId)   // the grace period started on leaving

  datatype Timer = Timer(player: PlayerId, due: int, task: Task)

  /** `entries` is the plugin's dictionary from player to timer handle;
      `scheduled` holds the timers that will still run; `nextId` is the
      next unused handle. */
  datatype TimerTable = TimerTable(entries: map<PlayerId, TimerId>, scheduled: map<TimerId, Timer>, nextId: nat)

  const EmptyTable := TimerTable(map[], map[], 0)

  /** Every live timer is the table entry of its own player, and every
      entry names a handle already handed out and, if live, that player's. */
  ghost predicate Consistent(tt: TimerTable)
  {
    && (forall t :: t in tt.scheduled ==>
         t < tt.nextId && tt.scheduled[t].player in tt.entries && tt.entries[tt.scheduled[t].player] == t)
    && (forall p :: p in tt.entries ==>
         tt.entries[p] < tt.nextId && (tt.entries[p] in tt.scheduled ==> tt.scheduled[tt.entries[p]].player == p))
  }

  /** True when `p`'s table entry names a timer that will still run. */
  predicate HasLiveTimer(tt: TimerTable, p: PlayerId)
  {
    p in tt.entries && tt.entries[p] in tt.scheduled
  }

  /** `DestroyExistingPlayerTimer`: destroy the player's timer, if the
      table has one, and drop the entry. */
  function Cancel(tt: TimerTable, p: PlayerId): TimerTable
  {
    if p in tt.entries then TimerTable(tt.entries - {p}, tt.scheduled - {tt.entries[p]}, tt.nextId)
    else tt
  }

  /** `_playerTimers[p] = timer.Once(...)`: schedule a fresh timer and
      record it as the player's entry. */
  function Install(tt: TimerTable, timer: Timer): TimerTable
  {
    TimerTable(tt.entries[timer.player := tt.nextId], tt.scheduled[tt.nextId := timer], tt.nextId + 1)
  }

  /** A one-shot timer that has run is no longer scheduled. */
  function Expire(tt: TimerTable, t: TimerId): TimerTable
  {
    tt.(scheduled := tt.scheduled - {t})
  }

  /** `_playerTimers.Remove(p)` inside a callback. */
  function Forget(tt: TimerTable, p: PlayerId): TimerTable
  {
    tt.(entries := tt.entries - {p})
  }

  lemma EmptyTableConsistent()
    ensures Consistent(EmptyTable)
  {
  }

  /** The principal invariant: no player ever has two live timers. */
  lemma AtMostOneLiveTimer(tt: TimerTable, t1: TimerId, t2: TimerId)
    requires Consistent(tt)
    requires t1 in tt.scheduled && t2 in tt.scheduled
    requires tt.scheduled[t1].player == tt.scheduled[t2].player
    ensures t1 == t2
  {
  }

  /** After `Cancel(tt, p)` the player has neither an entry nor a live
      timer, and every other player's entry and live timer are as before. */
  lemma CancelClearsOnlyThatPlayer(tt: TimerTable, p: PlayerId)
    requires Consistent(tt)
    ensures Consistent(Cancel(tt, p))
    ensures p !in Cancel(tt, p).entries
    ensures forall t :: t in Cancel(tt, p).scheduled ==> Cancel(tt, p).scheduled[t].player != p
    ensures forall q :: q != p ==> (q in Cancel(tt, p).entries <==> q in tt.entries)
    ensures forall q :: q != p && q in tt.entries ==> Cancel(tt, p).entries[q] == tt.entries[q]
    ensures forall t :: t in tt.scheduled && tt.scheduled[t].player != p ==>
      t in Cancel(tt, p).scheduled && Cancel(tt, p).scheduled[t] == tt.scheduled[t]
  {
  }

  /** Installing right after cancelling keeps the invariant, and the new
      timer is then the player's only live timer. */
  lemma InstallAfterCancel(tt: TimerTable, timer: Timer)
    requires Consistent(tt)
    ensures Consistent(Install(Cancel(tt, timer.player), timer))
    ensures HasLiveTimer(Install(Cancel(tt, timer.player), timer), timer.player)
    ensures forall t :: t in Install(Cancel(tt, timer.player), timer).scheduled
                     && Install(Cancel(tt, timer.player), timer).scheduled[t].player == timer.player
                     ==> t == tt.nextId
  {
    CancelClearsOnlyThatPlayer(tt, timer.player);
  }

  /** Without the cancellation the old timer would stay live beside the
      new one: installing over a live timer breaks the invariant. */
  lemma InstallNeedsCancel(tt: TimerTable, timer: Timer)
    requires Consistent(tt)
    requires HasLiveTimer(tt, timer.player)
    ensures !Consistent(Install(tt, timer))
  {
    var previous := tt.entries[timer.player];
    var tt' := Install(tt, timer);
    assert previous < tt.nextId;
    assert previous in tt'.scheduled && tt'.scheduled[previous].player == timer.player;
    assert tt'.entries[timer.player] == tt.nextId != previous;
  }

  /** Running the player's live timer and then dropping its entry (the
      eviction callback, and the grace callback when it deauthorises)
      keeps the invariant; so does running it and keeping the entry (the
      grace callback after a veto). */
  lemma FireKeepsConsistent(tt: TimerTable, p: PlayerId)
    requires Consistent(tt)
    requires HasLiveTimer(tt, p)
    ensures Consistent(Expire(tt, tt.entries[p]))
    ensures Consistent(Forget(Expire(tt, tt.entries[p]), p))
    ensures !HasLiveTimer(Expire(tt, tt.entries[p]), p)
  {
    var t := tt.entries[p];
    var tt' := Forget(Expire(tt, t), p);
    forall u | u in tt'.scheduled
      ensures tt'.scheduled[u].player in tt'.entries && tt'.entries[tt'.scheduled[u].player] == u
    {
      assert u != t;
    }
  }
}
