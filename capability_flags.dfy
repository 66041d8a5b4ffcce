/**
 * Flag enums turned into the boolean records of the capabilities completion:
 * one boolean per named flag, in the order the record's constructor takes
 * them, each true exactly when the flag is set.
 */
module CapabilityFlags {

  /** The record's booleans: position i holds HasFlag(order[i]). */
  function FlagBits<F(==)>(order: seq<F>, flags: set<F>): (r: seq<bool>)
    ensures |r| == |order|
    ensures forall i :: 0 <= i < |order| ==> (r[i] <==> order[i] in flags)
  {
    if order == [] then [] else FlagBits(order[..|order| - 1], flags) + [order[|order| - 1] in flags]
  }

  /** Reading a record back: the flags whose booleans are true. */
  function FlagsOf<F(!new)>(order: seq<F>, bits: seq<bool>): (r: set<F>)
    requires |bits| == |order|
    ensures forall f :: f in r <==> exists i :: 0 <= i < |order| && order[i] == f && bits[i]
  {
    if order == [] then {}
    else
      var front := FlagsOf(order[..|order| - 1], bits[..|bits| - 1]);
      var r := front + (if bits[|bits| - 1] then {order[|order| - 1]} else {});
      assert forall f :: f in r ==> exists i :: 0 <= i < |order| && order[i] == f && bits[i] by {
        forall f | f in r ensures exists i :: 0 <= i < |order| && order[i] == f && bits[i] {
          if f in front {
            var i :| 0 <= i < |order| - 1 && order[..|order| - 1][i] == f && bits[..|bits| - 1][i];
            assert order[i] == f && bits[i];
          } else {
            assert order[|order| - 1] == f && bits[|order| - 1];
          }
        }
      }
      assert forall f :: (exists i :: 0 <= i < |order| && order[i] == f && bits[i]) ==> f in r by {
        forall f | exists i :: 0 <= i < |order| && order[i] == f && bits[i] ensures f in r {
          var i :| 0 <= i < |order| && order[i] == f && bits[i];
          if i < |order| - 1 {
            assert order[..|order| - 1][i] == f && bits[..|bits| - 1][i];
          }
        }
      }
      r
  }

  /**
   * The record loses nothing the record names: reading it back gives exactly
   * the set flags that have a boolean, and every set flag when all have one.
   */
  lemma FlagBitsRoundTrip<F(!new)>(order: seq<F>, flags: set<F>)
    ensures FlagsOf(order, FlagBits(order, flags)) == set f | f in flags && f in order
  {
    var bits := FlagBits(order, flags);
    forall f | f in flags && f in order ensures f in FlagsOf(order, bits) {
      var i :| 0 <= i < |order| && order[i] == f;
      assert bits[i];
    }
  }

  /** When the record names every flag of its enum, reading it back gives the reported flags exactly. */
  lemma FlagBitsComplete<F(!new)>(order: seq<F>, flags: set<F>)
    requires forall f :: f in flags ==> f in order
    ensures FlagsOf(order, FlagBits(order, flags)) == flags
  {
    FlagBitsRoundTrip(order, flags);
  }

  /** Two flag sets give the same record exactly when they agree on every named flag. */
  lemma FlagBitsInjective<F(!new)>(order: seq<F>, a: set<F>, b: set<F>)
    ensures FlagBits(order, a) == FlagBits(order, b) <==> forall i :: 0 <= i < |order| ==> (order[i] in a <==> order[i] in b)
  {
    if forall i :: 0 <= i < |order| ==> (order[i] in a <==> order[i] in b) {
      assert forall i :: 0 <= i < |order| ==> FlagBits(order, a)[i] == FlagBits(order, b)[i];
    }
  }

  /** No flag set gives a record of only false booleans, when the record names every flag. */
  lemma {:induction false} NoFlagsNoBits<F(!new)>(order: seq<F>, flags: set<F>)
    requires forall f :: f in flags ==> f in order
    ensures (forall i :: 0 <= i < |order| ==> !FlagBits(order, flags)[i]) <==> flags == {}
  {
    if flags != {} {
      var f :| f in flags;
      var i :| 0 <= i < |order| && order[i] == f;
      assert FlagBits(order, flags)[i];
    }
  }
}
