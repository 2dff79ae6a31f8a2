/** Card values and the arithmetic `GameService.gamePlay` applies to them. */
module Cards {

  const INT_MIN: int := -0x8000_0000
  const INT_MAX: int := 0x7fff_ffff

  /** A Java `int`. */
  type Int32 = x: int | -0x8000_0000 <= x <= 0x7fff_ffff

  /** The largest value a card keeps; a sum above it is reduced modulo it. */
  const CARD_LIMIT: int := 5

  /** Java's `+` on two `int`s: the exact sum, wrapped into 32 bits. */
  function AddInt32(a: Int32, b: Int32): (r: Int32)
    ensures INT_MIN <= a + b <= INT_MAX ==> r == a + b
    ensures (a + b - r) % 0x1_0000_0000 == 0
  {
    var s := a + b;
    if s > INT_MAX then s - 0x1_0000_0000
    else if s < INT_MIN then s + 0x1_0000_0000
    else s
  }

  /** A card value a hand can hold once play has started. */
  predicate InPlay(v: int) {
    0 <= v <= CARD_LIMIT
  }

  /** The new value of the attacked card: the two values are added and the sum
      is reduced modulo 5 only when it exceeds 5, so a sum of exactly 5 stays 5
      while a sum of 10 becomes 0.
      Java's `%` truncates towards zero; it is only ever applied to a positive
      sum here, where it agrees with Dafny's `%`. */
  function Attack(attacker: Int32, attacked: Int32): (r: Int32)
    ensures InPlay(attacker) && InPlay(attacked) ==> InPlay(r)
    ensures InPlay(attacker) && InPlay(attacked) && attacker + attacked <= CARD_LIMIT ==>
              r == attacker + attacked
    ensures InPlay(attacker) && InPlay(attacked) && attacker + attacked > CARD_LIMIT ==>
              r == (if attacker + attacked == 2 * CARD_LIMIT then 0 else attacker + attacked - CARD_LIMIT)
    ensures InPlay(attacker) && InPlay(attacked) ==>
              (r == 0 <==> attacker + attacked == 0 || attacker + attacked == 2 * CARD_LIMIT)
  {
    var s := AddInt32(attacked, attacker);
    if s > CARD_LIMIT then
      assert CARD_LIMIT < s < 2 * CARD_LIMIT ==> s % CARD_LIMIT == s - CARD_LIMIT;
      s % CARD_LIMIT
    else s
  }

  /** Every card of the hand is exhausted. */
  predicate AllZero(cards: seq<Int32>) {
    forall i :: 0 <= i < |cards| ==> cards[i] == 0
  }

  /** Every card of the hand holds a value of play. */
  predicate AllInPlay(cards: seq<Int32>) {
    forall i :: 0 <= i < |cards| ==> InPlay(cards[i])
  }

  /** `areAllCardsZero`: scans the hand and stops at the first non-zero card.
      Proved to agree with `AllZero`, which the move model uses in its place. */
  method AreAllCardsZero(cards: seq<Int32>) returns (allZero: bool)
    ensures allZero <==> AllZero(cards)
    ensures !allZero ==> exists i :: 0 <= i < |cards| && cards[i] != 0
  {
    var i := 0;
    while i < |cards|
      invariant 0 <= i <= |cards|
      invariant forall j :: 0 <= j < i ==> cards[j] == 0
    {
      if cards[i] != 0 {
        return false;
      }
      i := i + 1;
    }
    return true;
  }

  /** Writing an in-play value into an in-play hand keeps the hand in play. */
  lemma {:induction false} WriteKeepsInPlay(cards: seq<Int32>, t: int, v: Int32)
    requires AllInPlay(cards) && 0 <= t < |cards| && InPlay(v)
    ensures AllInPlay(cards[t := v])
  {
  }
}
