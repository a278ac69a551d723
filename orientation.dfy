/** The posture classification of a device carrying an accelerometer.

    The value type reported by the orientation tracker: a closed,
    payload-free enumeration of seven postures and three classification
    queries over it. Rust's derived equality on a field-less enum is
    modelled explicitly through the variants' implicit discriminants.
 */
module Orientation {

  datatype Option<T> = None | Some(value: T)

  /** Device orientation. `Unknown` is the "unable to determine" sentinel;
      the other six variants are physical postures. */
  datatype Orientation =
    | Unknown        // the samples do not support any classification
    | PortraitUp     // upright portrait, the "up" sense
    | PortraitDown   // upside-down portrait, the "down" sense
    | LandscapeUp    // sideways landscape, the "up" sense
    | LandscapeDown  // sideways landscape, the "down" sense
    | FaceUp         // lying level with the screen towards the sky
    | FaceDown       // lying level with the screen towards the ground
  {
    /** True for the two level postures. */
    predicate IsFlat() {
      FaceUp? || FaceDown?
    }

    /** True for the two sideways postures. */
    predicate IsLandscape() {
      LandscapeUp? || LandscapeDown?
    }

    /** True for the two upright postures. */
    predicate IsPortrait() {
      PortraitUp? || PortraitDown?
    }
  }

  /** The number of variants the enumeration declares. */
  const VariantCount: nat := 7

  // ---------------------------------------------------------------------
  // The three classification queries
  // ---------------------------------------------------------------------

  /** No orientation satisfies two of the queries at once. */
  lemma QueriesMutuallyExclusive(o: Orientation)
    ensures !(o.IsFlat() && o.IsLandscape())
    ensures !(o.IsFlat() && o.IsPortrait())
    ensures !(o.IsLandscape() && o.IsPortrait())
  {
  }

  /** The sentinel is neither flat, landscape nor portrait; it is the only
      variant of which all three queries are false. */
  lemma UnknownIsUnclassified(o: Orientation)
    ensures (!o.IsFlat() && !o.IsLandscape() && !o.IsPortrait()) <==> o == Unknown
  {
  }

  // ---------------------------------------------------------------------
  // An independent reference classification
  // ---------------------------------------------------------------------

  /** The posture class of a physical orientation. */
  datatype Posture = Flat | Landscape | Portrait

  /** The posture class of `o`, by case analysis on the variant; `None` for
      the sentinel. The three queries agree with it exactly, so every
      variant other than `Unknown` answers exactly one of them. */
  function PostureOf(o: Orientation): (p: Option<Posture>)
    ensures p == None <==> o == Unknown
    ensures p == Some(Flat) <==> o.IsFlat()
    ensures p == Some(Landscape) <==> o.IsLandscape()
    ensures p == Some(Portrait) <==> o.IsPortrait()
  {
    match o
    case Unknown => None
    case PortraitUp => Some(Portrait)
    case PortraitDown => Some(Portrait)
    case LandscapeUp => Some(Landscape)
    case LandscapeDown => Some(Landscape)
    case FaceUp => Some(Flat)
    case FaceDown => Some(Flat)
  }

  /** How many of the three queries `o` answers with true. */
  function QueriesHeld(o: Orientation): nat {
    (if o.IsFlat() then 1 else 0)
    + (if o.IsLandscape() then 1 else 0)
    + (if o.IsPortrait() then 1 else 0)
  }

  /** A physical posture answers exactly one query; the sentinel none. */
  lemma ExactlyOneQuery(o: Orientation)
    ensures QueriesHeld(o) == if o == Unknown then 0 else 1
  {
  }

  // ---------------------------------------------------------------------
  // Discriminants and the derived equality
  // ---------------------------------------------------------------------

  /** The implicit discriminant Rust assigns to a field-less variant: its
      position in declaration order, counting from zero. */
  function Discriminant(o: Orientation): (d: nat)
    ensures d < VariantCount
  {
    match o
    case Unknown => 0
    case PortraitUp => 1
    case PortraitDown => 2
    case LandscapeUp => 3
    case LandscapeDown => 4
    case FaceUp => 5
    case FaceDown => 6
  }

  /** The variant with discriminant `d`, if there is one. */
  function FromDiscriminant(d: nat): (r: Option<Orientation>)
    ensures r.Some? <==> d < VariantCount
    ensures r.Some? ==> Discriminant(r.value) == d
  {
    if d == 0 then Some(Unknown)
    else if d == 1 then Some(PortraitUp)
    else if d == 2 then Some(PortraitDown)
    else if d == 3 then Some(LandscapeUp)
    else if d == 4 then Some(LandscapeDown)
    else if d == 5 then Some(FaceUp)
    else if d == 6 then Some(FaceDown)
    else None
  }

  lemma DiscriminantRoundTrip(o: Orientation)
    ensures FromDiscriminant(Discriminant(o)) == Some(o)
  {
  }

  /** Distinct variants have distinct discriminants. */
  lemma DiscriminantInjective(a: Orientation, b: Orientation)
    ensures Discriminant(a) == Discriminant(b) <==> a == b
  {
  }

  /** The derived `PartialEq::eq`: two values are equal when their
      discriminants are. */
  predicate Eq(a: Orientation, b: Orientation) {
    Discriminant(a) == Discriminant(b)
  }

  /** The derived equality is structural equality of the values. */
  lemma EqIsStructural(a: Orientation, b: Orientation)
    ensures Eq(a, b) <==> a == b
  {
  }

  /** The derived equality is an equivalence relation, as the derived `Eq`
      marker promises. */
  lemma EqIsEquivalence(a: Orientation, b: Orientation, c: Orientation)
    ensures Eq(a, a)
    ensures Eq(a, b) ==> Eq(b, a)
    ensures Eq(a, b) && Eq(b, c) ==> Eq(a, c)
  {
  }

  // ---------------------------------------------------------------------
  // The enumeration is closed at seven variants
  // ---------------------------------------------------------------------

  /** Every variant, indexed by discriminant: position `i` holds the
      variant whose discriminant is `i`. */
  function Variants(): (vs: seq<Orientation>)
    ensures |vs| == VariantCount
    ensures forall o :: vs[Discriminant(o)] == o
  {
    [Unknown, PortraitUp, PortraitDown, LandscapeUp, LandscapeDown, FaceUp, FaceDown]
  }

  /** The enumeration lists every value, each exactly once. */
  lemma VariantsClosed()
    ensures forall o :: o in Variants()
    ensures forall i, j :: 0 <= i < j < |Variants()| ==> Variants()[i] != Variants()[j]
  {
    var vs := Variants();
    forall o ensures o in vs {
      assert vs[Discriminant(o)] == o;
    }
    forall i, j | 0 <= i < j < |vs| ensures vs[i] != vs[j] {
      var a, b := FromDiscriminant(i).value, FromDiscriminant(j).value;
      assert vs[i] == a && vs[j] == b;
    }
  }

  /** The set of every value. */
  function AllValues(): set<Orientation> {
    set o: Orientation | o in Variants()
  }

  /** Every orientation is in the set of all values, and that set has
      exactly seven elements. */
  lemma SevenValues()
    ensures forall o: Orientation :: o in AllValues()
    ensures |AllValues()| == VariantCount
  {
    VariantsClosed();
    assert AllValues() == {Unknown, PortraitUp, PortraitDown, LandscapeUp, LandscapeDown, FaceUp, FaceDown};
  }

  // ---------------------------------------------------------------------
  // The six physical postures are partitioned into three pairs
  // ---------------------------------------------------------------------

  function FlatValues(): set<Orientation> {
    set o: Orientation | o in Variants() && o.IsFlat()
  }

  function LandscapeValues(): set<Orientation> {
    set o: Orientation | o in Variants() && o.IsLandscape()
  }

  function PortraitValues(): set<Orientation> {
    set o: Orientation | o in Variants() && o.IsPortrait()
  }

  /** `is_flat` selects exactly `FaceUp` and `FaceDown` among all seven
      values: a value is flat precisely when it lies in that pair. */
  lemma IsFlatExactly()
    ensures FlatValues() == {FaceUp, FaceDown}
    ensures forall o: Orientation :: o.IsFlat() <==> o in FlatValues()
  {
  }

  /** `is_landscape` selects exactly `LandscapeUp` and `LandscapeDown`. */
  lemma IsLandscapeExactly()
    ensures LandscapeValues() == {LandscapeUp, LandscapeDown}
    ensures forall o: Orientation :: o.IsLandscape() <==> o in LandscapeValues()
  {
  }

  /** `is_portrait` selects exactly `PortraitUp` and `PortraitDown`. */
  lemma IsPortraitExactly()
    ensures PortraitValues() == {PortraitUp, PortraitDown}
    ensures forall o: Orientation :: o.IsPortrait() <==> o in PortraitValues()
  {
  }

  /** Each query holds of exactly two values. */
  lemma PostureClassSizes()
    ensures |FlatValues()| == 2 && |LandscapeValues()| == 2 && |PortraitValues()| == 2
  {
    IsFlatExactly();
    IsLandscapeExactly();
    IsPortraitExactly();
  }

  /** The three classes are pairwise disjoint and, together with the
      sentinel, which lies in none of them, cover every value. */
  lemma PosturePartition()
    ensures FlatValues() !! LandscapeValues()
    ensures FlatValues() !! PortraitValues()
    ensures LandscapeValues() !! PortraitValues()
    ensures Unknown !in FlatValues() + LandscapeValues() + PortraitValues()
    ensures {Unknown} + FlatValues() + LandscapeValues() + PortraitValues() == AllValues()
  {
  }
}
