/** Whether a player is aboard a workcart: the entities currently inside
    the workcart's platform parent trigger decide. */
module Presence {
  import opened Types

  /** `HasPlayerOnBoard`: a linear search of the trigger's contents. */
  method HasPlayerOnBoard(contents: seq<EntityId>, player: EntityId) returns (onBoard: bool)
    ensures onBoard <==> player in contents
  {
    if |contents| == 0 {
      return false;
    }
    var i := 0;
    while i < |contents|
      invariant 0 <= i <= |contents|
      invariant player !in contents[..i]
    {
      if contents[i] == player {
        return true;
      }
      i := i + 1;
    }
    return false;
  }
}
