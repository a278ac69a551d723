# Orientation value type of an accelerometer orientation tracker

This project models the `Orientation` type in `src/orientation.rs` of an
embedded Rust library that works out a device's physical posture from
accelerometer samples. `Orientation` is what the library's tracker reports.
It is a closed, payload-free enumeration of seven variants. `Unknown` is the
"unable to determine" sentinel. The other six are the physical postures
`PortraitUp`, `PortraitDown`, `LandscapeUp`, `LandscapeDown`, `FaceUp` and
`FaceDown`. There are three classification queries, `is_flat`,
`is_landscape` and `is_portrait`.

In `orientation.dfy` (module `Orientation`):

- The enumeration is a `datatype` with seven nullary constructors. The three
  queries are the member predicates `IsFlat`, `IsLandscape` and
  `IsPortrait`, written as the same variant tests as the source's
  `matches!` expressions.
- `PostureOf` is an independent reference classification: a case analysis on
  the variant that returns a `Posture` (`Flat`, `Landscape` or `Portrait`),
  or `None` for the sentinel. Its contract ties it to the three queries in
  both directions.
- The derived `PartialEq`/`Eq` is modelled the way Rust derives it for a
  field-less enum. `Discriminant` gives each variant its implicit
  discriminant (its position in declaration order, from 0).
  `FromDiscriminant` is its inverse. `Eq` compares discriminants.
- `Variants` lists the enumeration in declaration order. The lemmas prove
  that it is closed: every value appears in it exactly once, and there are
  exactly seven values. They also prove that the six postures split into
  three disjoint pairs.

## Model

| member | source | states |
|---|---|---|
| `Orientation.Orientation.IsFlat` | src/orientation.rs:34-36 | `is_flat`, written as the same variant test; it has no contract of its own, and `IsFlatExactly` states its truth table |
| `Orientation.Orientation.IsLandscape` | src/orientation.rs:39-41 | `is_landscape`, written as the same variant test; it has no contract of its own, and `IsLandscapeExactly` states its truth table |
| `Orientation.Orientation.IsPortrait` | src/orientation.rs:44-46 | `is_portrait`, written as the same variant test; it has no contract of its own, and `IsPortraitExactly` states its truth table |
| `Orientation.Eq` | src/orientation.rs:8 | the derived `PartialEq::eq`, comparing discriminants; it has no contract of its own, and `EqIsStructural` states that it is structural equality |
| `Orientation.IsFlatExactly` | src/orientation.rs:34-36 | across all seven values, the flat ones are exactly `{FaceUp, FaceDown}`, and a value is flat if and only if it is in that set |
| `Orientation.IsLandscapeExactly` | src/orientation.rs:39-41 | across all seven values, the landscape ones are exactly `{LandscapeUp, LandscapeDown}`, and a value is landscape if and only if it is in that set |
| `Orientation.IsPortraitExactly` | src/orientation.rs:44-46 | across all seven values, the portrait ones are exactly `{PortraitUp, PortraitDown}`, and a value is portrait if and only if it is in that set |
| `Orientation.QueriesMutuallyExclusive` | src/orientation.rs:34-46 | no orientation satisfies two of the three queries |
| `Orientation.UnknownIsUnclassified` | src/orientation.rs:10-11 | all three queries are false for `Unknown`, and `Unknown` is the only variant where they are all false |
| `Orientation.PostureOf` | src/orientation.rs:13-46 | each physical variant gets one posture class, and `Unknown` gets none; each query is true exactly when the variant's class is that query's class |
| `Orientation.ExactlyOneQuery` | src/orientation.rs:13-46 | a physical posture satisfies exactly one query; `Unknown` satisfies none |
| `Orientation.Discriminant` | src/orientation.rs:9-30 | each variant's implicit discriminant is below the variant count, seven |
| `Orientation.FromDiscriminant` | src/orientation.rs:9-30 | a variant exists for discriminant `d` exactly when `d < 7`, and that variant has discriminant `d` |
| `Orientation.DiscriminantRoundTrip` | src/orientation.rs:9-30 | mapping a variant to its discriminant and back returns the same variant |
| `Orientation.DiscriminantInjective` | src/orientation.rs:9-30 | two variants have the same discriminant if and only if they are the same variant |
| `Orientation.EqIsStructural` | src/orientation.rs:8 | the derived equality (comparing discriminants) holds if and only if the two values are the same variant |
| `Orientation.EqIsEquivalence` | src/orientation.rs:8 | the derived equality is reflexive, symmetric and transitive |
| `Orientation.Variants` | src/orientation.rs:9-30 | has seven entries, and the entry at each variant's discriminant is that variant (so the list follows the order `Discriminant` defines) |
| `Orientation.VariantsClosed` | src/orientation.rs:9-30 | every orientation appears in the list, and no two positions hold the same variant |
| `Orientation.SevenValues` | src/orientation.rs:9-30 | every orientation is in the set of all values, and that set has exactly seven elements |
| `Orientation.PostureClassSizes` | src/orientation.rs:34-46 | exactly two variants are flat, two are landscape and two are portrait |
| `Orientation.PosturePartition` | src/orientation.rs:13-46 | the flat, landscape and portrait classes do not overlap and do not contain `Unknown`; together with `Unknown` they cover every value |

## Left out

- The orientation tracker (`mod tracker`, src/orientation.rs:3, re-exported at line 5): `src/orientation/tracker.rs` is not part of this model. Its update algorithm is not modelled, and no thresholds or confirmation counts are invented for it.
- The `defmt::Format` implementation (src/orientation.rs:49-78): it only writes each variant's name, through a foreign logging macro, and has no other behaviour.
- The derived `Copy`, `Clone` and `Debug` (src/orientation.rs:8): Dafny datatypes are already values, and `Debug` is diagnostic output. Rust's default `ne` is not modelled separately; it is the negation of `eq`.
