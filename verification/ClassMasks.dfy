/** The class filter of a fetch, and the mask a client makes of the classes it wants. */
module ClassMasks {
  function And(a: bv32, b: bv32): bv32 {
    a & b
  }

  function Or(a: bv32, b: bv32): bv32 {
    a | b
  }

  function Bit(c: nat): bv32
    requires c < 32
  {
    (1 as bv32) << c
  }

  predicate Has(mask: bv32, c: nat)
    requires c < 32
  {
    And(mask, Bit(c)) != 0
  }

  /** A bit per retention-class byte; no bit at all is every class. */
  predicate ClassIncluded(mask: bv32, retentionClass: nat) {
    mask == 0 || (retentionClass < 32 && Has(mask, retentionClass))
  }

  function With(mask: bv32, c: nat): bv32
    requires c < 32
  {
    Or(mask, Bit(c))
  }

  /** A bit to each class wanted. */
  function MaskOf(classes: seq<nat>): bv32
    requires forall i :: 0 <= i < |classes| ==> classes[i] < 32
  {
    if |classes| == 0 then 0 else With(MaskOf(classes[..|classes| - 1]), classes[|classes| - 1])
  }

  lemma BitIsSet(c: nat)
    requires c < 32
    ensures Bit(c) != 0
  {
  }

  lemma BitsAreApart(a: nat, b: nat)
    requires a < 32 && b < 32 && a != b
    ensures And(Bit(a), Bit(b)) == 0
  {
  }

  lemma BitAdded(mask: bv32, bit: bv32, other: bv32)
    requires bit != 0
    ensures And(Or(mask, bit), bit) != 0 && Or(mask, bit) != 0 && And(0, other) == 0
    ensures And(bit, other) == 0 ==> And(Or(mask, bit), other) == And(mask, other)
  {
  }

  lemma WithHas(mask: bv32, a: nat, c: nat)
    requires a < 32 && c < 32
    ensures Has(With(mask, a), c) <==> a == c || Has(mask, c)
    ensures With(mask, a) != 0 && !Has(0, c)
  {
    hide Bit, And, Or;
    BitIsSet(a);
    if a != c { BitsAreApart(a, c); }
    BitAdded(mask, Bit(a), Bit(c));
  }

  lemma {:induction false} MaskHolds(classes: seq<nat>, c: nat)
    requires c < 32 && forall i :: 0 <= i < |classes| ==> classes[i] < 32
    ensures Has(MaskOf(classes), c) <==> c in classes
    ensures MaskOf(classes) == 0 <==> classes == []
  {
    hide Has, With;
    if |classes| == 0 {
      WithHas(0, 0, c);
    } else {
      var n := |classes| - 1;
      MaskHolds(classes[..n], c);
      WithHas(MaskOf(classes[..n]), classes[n], c);
      assert classes == classes[..n] + [classes[n]];
    }
  }

  /** Under a mask of the classes a client wants, exactly those come; under an empty one, every class. */
  lemma MaskAdmitsItsClasses(classes: seq<nat>, c: nat)
    requires forall i :: 0 <= i < |classes| ==> classes[i] < 32
    ensures ClassIncluded(MaskOf(classes), c) <==> classes == [] || c in classes
  {
    hide Has, MaskOf;
    MaskHolds(classes, if c < 32 then c else 0);
  }
}
