/** Keycards: which cards a workcart's reader accepts, and the wear a
    successful swipe puts on the card. */
module Cards {
  import opened Types

  /** A keycard item: its skin (0 for none), its access level, its
      condition and its maximum condition. */
  datatype Keycard = Keycard(skin: nat, accessLevel: int, condition: real, maxCondition: real)

  /** With a required skin configured, only that skin is accepted, whatever
      the card's level; otherwise only an unskinned card whose access level
      equals the reader's. */
  predicate IsCardAccepted(requiredCardSkin: nat, readerAccessLevel: int, card: Keycard): (accepted: bool)
    ensures accepted && card.skin != 0 ==> card.skin == requiredCardSkin
    ensures requiredCardSkin == 0 ==> (accepted <==> card.skin == 0 && card.accessLevel == readerAccessLevel)
  {
    if requiredCardSkin != 0 then card.skin == requiredCardSkin
    else card.skin == 0 && card.accessLevel == readerAccessLevel
  }

  /** A card whose condition ends at or below this is removed. */
  const RemovalThreshold: real := 0.01

  /** Lowering the normalised condition by `lossPercent` hundredths lowers
      the condition by that share of the maximum condition. */
  function ConditionLoss(card: Keycard, lossPercent: int): real
  {
    (lossPercent as real) * 0.01 * card.maxCondition
  }

  /** One successful swipe: `None` when the card is used up and removed,
      otherwise the card with its lowered condition. */
  function Wear(card: Keycard, lossPercent: int): (r: Option<Keycard>)
    ensures r.None? <==> card.condition - ConditionLoss(card, lossPercent) <= RemovalThreshold
    ensures r.Some? ==> r.value.condition > RemovalThreshold
    ensures r.Some? ==> r.value.(condition := card.condition) == card
  {
    var c := card.condition - ConditionLoss(card, lossPercent);
    if c <= RemovalThreshold then None else Some(card.(condition := c))
  }

  /** `n` successful swipes in a row, stopping once the card is removed. */
  function WearTimes(card: Keycard, lossPercent: int, n: nat): Option<Keycard>
    decreases n
  {
    if n == 0 then Some(card)
    else match Wear(card, lossPercent)
      case None => None
      case Some(worn) => WearTimes(worn, lossPercent, n - 1)
  }

  /** With a required skin configured, a card is accepted at any reader
      level exactly when it has that skin; a skinned card is accepted only
      when that skin is the required one. */
  lemma AcceptanceBySkin(requiredCardSkin: nat, readerAccessLevel: int, card: Keycard, level: int)
    ensures requiredCardSkin != 0 ==>
      (IsCardAccepted(requiredCardSkin, level, card) <==> card.skin == requiredCardSkin)
    ensures card.skin != 0 && IsCardAccepted(requiredCardSkin, readerAccessLevel, card) ==>
      requiredCardSkin == card.skin
  {
  }

  lemma ConditionLossNonNegative(card: Keycard, lossPercent: int)
    requires lossPercent >= 0 && card.maxCondition >= 0.0
    ensures ConditionLoss(card, lossPercent) >= 0.0
  {
    assert (lossPercent as real) * 0.01 >= 0.0;
  }

  /** While the condition stays above the threshold, `n` swipes lower it by
      exactly `n` times the loss of one swipe and keep the card. */
  lemma {:induction false} WearTimesKept(card: Keycard, lossPercent: int, n: nat)
    requires lossPercent >= 0 && card.maxCondition >= 0.0
    requires card.condition - (n as real) * ConditionLoss(card, lossPercent) > RemovalThreshold
    ensures WearTimes(card, lossPercent, n)
      == Some(card.(condition := card.condition - (n as real) * ConditionLoss(card, lossPercent)))
    decreases n
  {
    var d := ConditionLoss(card, lossPercent);
    var target := card.(condition := card.condition - (n as real) * d);
    if n > 0 {
      var k := (n - 1) as real;
      ConditionLossNonNegative(card, lossPercent);
      NextMultiple(k, d);
      assert (n as real) == k + 1.0;
      assert (n as real) * d == k * d + d;
      var worn := card.(condition := card.condition - d);
      WearKept(card, lossPercent);
      assert ConditionLoss(worn, lossPercent) == d;
      WearTimesKept(worn, lossPercent, n - 1);
      assert worn.(condition := worn.condition - k * d) == target;
    } else {
      assert target == card;
    }
  }

  /** One swipe that leaves the condition above the threshold keeps the
      card with its condition lowered by one loss. */
  lemma WearKept(card: Keycard, lossPercent: int)
    requires card.condition - ConditionLoss(card, lossPercent) > RemovalThreshold
    ensures Wear(card, lossPercent) == Some(card.(condition := card.condition - ConditionLoss(card, lossPercent)))
  {
  }

  /** `(k + 1) * d` is `k * d + d`, and not below `d` for non-negative `k`, `d`. */
  lemma NextMultiple(k: real, d: real)
    requires k >= 0.0 && d >= 0.0
    ensures (k + 1.0) * d == k * d + d
    ensures k * d >= 0.0
  {
  }

  /** The swipe that takes the condition to the threshold or below removes
      the card, having kept it on every swipe before. */
  lemma WearTimesRemoved(card: Keycard, lossPercent: int, n: nat)
    requires n >= 1
    requires lossPercent >= 0 && card.maxCondition >= 0.0
    requires card.condition - ((n - 1) as real) * ConditionLoss(card, lossPercent) > RemovalThreshold
    requires card.condition - (n as real) * ConditionLoss(card, lossPercent) <= RemovalThreshold
    ensures WearTimes(card, lossPercent, n) == None
  {
    var d := ConditionLoss(card, lossPercent);
    var k := (n - 1) as real;
    ConditionLossNonNegative(card, lossPercent);
    NextMultiple(k, d);
    WearTimesKept(card, lossPercent, n - 1);
    var worn := card.(condition := card.condition - k * d);
    assert WearTimes(card, lossPercent, n - 1) == Some(worn);
    WearTimesSplit(card, lossPercent, n - 1);
    assert ConditionLoss(worn, lossPercent) == d;
    assert Wear(worn, lossPercent) == None;
  }

  /** One more swipe after `n` kept swipes is one swipe on the worn card. */
  lemma {:induction false} WearTimesSplit(card: Keycard, lossPercent: int, n: nat)
    requires WearTimes(card, lossPercent, n).Some?
    ensures WearTimes(card, lossPercent, n + 1) == WearTimes(WearTimes(card, lossPercent, n).value, lossPercent, 1)
    decreases n
  {
    if n > 0 {
      var worn := Wear(card, lossPercent).value;
      WearTimesSplit(worn, lossPercent, n - 1);
    }
  }

  /** With no loss per swipe, a usable card is never worn or removed. */
  lemma LosslessCardNeverWears(card: Keycard, n: nat)
    requires card.condition > RemovalThreshold && card.maxCondition >= 0.0
    ensures WearTimes(card, 0, n) == Some(card)
  {
    assert ConditionLoss(card, 0) == 0.0;
    assert card.(condition := card.condition - (n as real) * 0.0) == card;
    WearTimesKept(card, 0, n);
  }

  /** A fresh card under a 20% loss per swipe survives four swipes and is
      removed by the fifth. */
  lemma TwentyPercentLastsFiveSwipes(card: Keycard)
    requires card.maxCondition >= 1.0 && card.condition == card.maxCondition
    ensures WearTimes(card, 20, 4).Some?
    ensures WearTimes(card, 20, 5) == None
  {
    var d := ConditionLoss(card, 20);
    assert d == 0.2 * card.maxCondition;
    assert card.condition - 4.0 * d == 0.2 * card.maxCondition;
    assert card.condition - 5.0 * d == 0.0;
    WearTimesKept(card, 20, 4);
    WearTimesRemoved(card, 20, 5);
  }
}
