/** Configuration records. `SplineOpts` drives the current engine and the
    deprecated trait engine; `LegacyOpts` drives the oldest direct functions. */
module Options {
  import opened Wrappers
  import opened V1Points

  const DefaultTension: real := 0.5
  const DefaultSegments: nat := 16

  /** Options of the current and deprecated engines. `numOfSegments` is the
      source's `u32` sample count per gap; the hidden points are virtual
      neighbours of the first and last control points; the inversion sizes
      are read only by the deprecated engine. */
  datatype SplineOpts = SplineOpts(
    tension: real,
    numOfSegments: nat,
    hiddenPointAtStart: Option<Point>,
    hiddenPointAtEnd: Option<Point>,
    invertXWithWidth: Option<real>,
    invertYWithHeight: Option<real>)

  /** `SplineOpts::new()`: tension 0.5, 16 samples per gap, nothing else set. */
  function DefaultSplineOpts(): SplineOpts {
    SplineOpts(DefaultTension, DefaultSegments, None, None, None, None)
  }

  /** Options of the oldest functions: an optional clamp that stops `x` from
      decreasing, the tension and the sample count per gap. */
  datatype LegacyOpts = LegacyOpts(disallowXSteppingBack: bool, tension: real, numOfSegments: nat)

  /** `SplineOpts::default()` of the oldest functions: `(false, 0.5, 16)`. */
  function DefaultLegacyOpts(): LegacyOpts {
    LegacyOpts(false, DefaultTension, DefaultSegments)
  }
}
