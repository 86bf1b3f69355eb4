/** Order facts about products and rounding of reals. */
module Reals {

  lemma MulOrder(a: real, b: real, w: real)
    requires w > 0.0
    ensures a <= b <==> a * w <= b * w
  {
    if a <= b {
      assert (b - a) * w >= 0.0;
    } else {
      assert (a - b) * w > 0.0;
    }
  }

  lemma FloorOrder(q: real, i: int)
    ensures i as real <= q <==> i <= q.Floor
  {
  }

  /** `math.ceil` */
  function Ceiling(x: real): int {
    -((-x).Floor)
  }

  lemma CeilingOrder(x: real, i: int)
    ensures x <= i as real <==> Ceiling(x) <= i
  {
    FloorOrder(-x, -i);
  }
}
