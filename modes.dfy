/** Travel modes and the bit-mask mode sets that requests and edges carry.
    Each primitive mode owns one bit of a 32-bit mask; a mode set is the
    bitwise union of the masks of its modes. */
module Modes {

  datatype TraverseMode =
    | Walk | Bicycle | Car | Tram | Subway | Rail | Bus | Ferry | CableCar | Gondola | Funicular

  /** The bit a mode owns in a mask; distinct modes own distinct bits. */
  function BitOf(m: TraverseMode): (b: nat)
    ensures b < 32
  {
    match m
    case Walk => 0
    case Bicycle => 1
    case Car => 2
    case Tram => 3
    case Subway => 4
    case Rail => 5
    case Bus => 6
    case Ferry => 7
    case CableCar => 8
    case Gondola => 9
    case Funicular => 10
  }

  function MaskOf(m: TraverseMode): bv32
  {
    (1 as bv32) << BitOf(m)
  }

  datatype TraverseModeSet = TraverseModeSet(mask: bv32) {

    /** True when this set shares at least one mode with `modeMask`. */
    predicate Get(modeMask: bv32)
    {
      mask & modeMask != 0
    }

    predicate Contains(m: TraverseMode)
    {
      Get(MaskOf(m))
    }

    predicate GetBicycle()
    {
      Contains(Bicycle)
    }
  }

  /** The set holding exactly one mode, as built for an edge from its vehicle mode. */
  function SingleMode(m: TraverseMode): (s: TraverseModeSet)
    ensures forall m': TraverseMode :: s.Contains(m') <==> m' == m
  {
    TraverseModeSet(MaskOf(m))
  }
}
