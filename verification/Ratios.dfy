module Ratios {

  // A share of a positive whole, compared without dividing.
  lemma Share(part: real, whole: real, share: real)
    requires whole > 0.0
    ensures part / whole <= share <==> part <= share * whole
    ensures part / whole == share <==> part == share * whole
  {
    var x := part / whole;
    assert part == x * whole;
    if x < share { assert x * whole < share * whole; }
    if x > share { assert x * whole > share * whole; }
  }
}
