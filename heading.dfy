/** The player's facing angle, in whole degrees, kept in 0..359. */
module Heading {

  const FullTurn: int := 360

  predicate IsHeading(a: int) {
    0 <= a < FullTurn
  }

  /** One degree anticlockwise: the heading `turnLeft` should produce. */
  function LeftOf(a: int): (r: int)
    ensures IsHeading(r)
    ensures IsHeading(a) && a < FullTurn - 1 ==> r == a + 1
    ensures a == FullTurn - 1 ==> r == 0
  {
    (a + 1) % FullTurn
  }

  /** One degree clockwise: the heading `turnRight` should produce. */
  function RightOf(a: int): (r: int)
    ensures IsHeading(r)
    ensures IsHeading(a) && a > 0 ==> r == a - 1
    ensures a == 0 ==> r == FullTurn - 1
  {
    (a + FullTurn - 1) % FullTurn
  }

  /** A left turn and a right turn undo each other, in either order. */
  lemma LeftRightInverse(a: int)
    requires IsHeading(a)
    ensures RightOf(LeftOf(a)) == a
    ensures LeftOf(RightOf(a)) == a
  {
    if a == FullTurn - 1 {
      assert LeftOf(a) == 0;
    } else {
      assert LeftOf(a) == a + 1;
    }
    if a == 0 {
      assert RightOf(a) == FullTurn - 1;
    } else {
      assert RightOf(a) == a - 1;
    }
  }
}
