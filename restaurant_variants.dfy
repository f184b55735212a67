/**
 * The hour-to-appearance tables of generate_restaurant_variants.py: the
 * sky colour stops of twelve hours with a fallback entry, the piecewise
 * linear sky gradient, the lighting parameters, the decision to add an
 * ambient glow, the vignette ring alphas, and the output names and
 * 12-hour labels of `main`.
 *
 * The colour arithmetic is exact (reals); Python's int() on it is Trunc.
 * Pixel-level HSV work and every PIL call are not part of this model.
 */
module RestaurantVariants {
  import opened Common

  /** The hours `main` generates, in its order. */
  const Hours: seq<nat> := [5, 7, 9, 11, 13, 15, 17, 19, 21, 23, 1, 3]

  // ----- sky colours (get_sky_color_for_hour) -----

  datatype SkyStops = SkyStops(top: Rgb, horizon: Rgb, bottom: Rgb)

  function Stops(t: (int, int, int), h: (int, int, int), b: (int, int, int)): SkyStops
  {
    SkyStops(Rgb(t.0, t.1, t.2), Rgb(h.0, h.1, h.2), Rgb(b.0, b.1, b.2))
  }

  const SkyTable: map<int, SkyStops> := map[
    5 := Stops((50, 80, 140), (255, 180, 120), (180, 140, 100)),
    7 := Stops((100, 150, 220), (150, 200, 240), (200, 220, 240)),
    9 := Stops((80, 140, 230), (120, 180, 240), (180, 210, 245)),
    11 := Stops((70, 130, 240), (100, 170, 250), (160, 200, 250)),
    13 := Stops((60, 120, 250), (90, 160, 255), (140, 190, 255)),
    15 := Stops((70, 130, 240), (110, 175, 245), (170, 205, 250)),
    17 := Stops((120, 140, 200), (255, 200, 120), (240, 170, 100)),
    19 := Stops((30, 50, 100), (200, 120, 80), (80, 60, 80)),
    21 := Stops((15, 25, 60), (40, 50, 90), (30, 35, 60)),
    23 := Stops((10, 15, 40), (20, 25, 50), (15, 20, 45)),
    1 := Stops((5, 10, 35), (15, 20, 45), (10, 15, 40)),
    3 := Stops((8, 12, 38), (25, 30, 55), (20, 25, 50))
  ]

  predicate IsByteStops(s: SkyStops)
  {
    IsByteColor(s.top) && IsByteColor(s.horizon) && IsByteColor(s.bottom)
  }

  /** colors.get(hour, colors[13]) */
  function StopsFor(hour: int): (s: SkyStops)
    ensures IsByteStops(s)
    ensures hour !in SkyTable ==> s == SkyTable[13]
  {
    if hour in SkyTable then SkyTable[hour] else SkyTable[13]
  }

  /** int(a + (b - a) * t) */
  function Lerp(a: int, b: int, t: real): (c: int)
    ensures t == 0.0 ==> c == a
    ensures t == 1.0 ==> c == b
  {
    Trunc(a as real + (b as real - a as real) * t)
  }

  /** Between two byte values, the interpolated channel lies between them. */
  lemma LerpBetween(a: int, b: int, t: real)
    requires IsByte(a) && IsByte(b) && 0.0 <= t <= 1.0
    ensures (if a <= b then a else b) <= Lerp(a, b, t) <= (if a <= b then b else a)
    ensures t == 0.0 ==> Lerp(a, b, t) == a
  {
    var p := (b as real - a as real) * t;
    if t == 0.0 {
      assert p == 0.0;
    }
    if a <= b {
      LerpUp(a as real, b as real, t, p);
      FloorBetween(a as real + p, a, b);
      assert Lerp(a, b, t) == Trunc(a as real + p);
    } else {
      LerpDown(a as real, b as real, t, p);
      FloorBetween(a as real + p, b, a);
      assert Lerp(a, b, t) == Trunc(a as real + p);
    }
  }

  lemma LerpUp(a: real, b: real, t: real, p: real)
    requires 0.0 <= t <= 1.0 && a <= b && p == (b - a) * t
    ensures a <= a + p <= b
  {
    ScaleBelow(b - a, t);
  }

  lemma LerpDown(a: real, b: real, t: real, p: real)
    requires 0.0 <= t <= 1.0 && b < a && p == (b - a) * t
    ensures b <= a + p <= a
  {
    ScaleBelow(a - b, t);
    SwapProduct(a, b, t);
  }

  lemma SwapProduct(a: real, b: real, t: real)
    ensures (a - b) * t == -((b - a) * t)
  {
  }

  lemma ScaleBelow(d: real, t: real)
    requires 0.0 <= d && 0.0 <= t <= 1.0
    ensures 0.0 <= d * t <= d
  {
    assert d * t <= d * 1.0;
  }

  /** An integer-bounded non-negative real truncates to an integer within the same bounds. */
  lemma FloorBetween(x: real, lo: int, hi: int)
    requires 0 <= lo && lo as real <= x <= hi as real
    ensures lo <= Trunc(x) <= hi
  {
  }

  function Mix(c1: Rgb, c2: Rgb, t: real): Rgb
  {
    Rgb(Lerp(c1.r, c2.r, t), Lerp(c1.g, c2.g, t), Lerp(c1.b, c2.b, t))
  }

  /** Every channel of `c` lies between the same channels of `c1` and `c2`. */
  predicate Between(c1: Rgb, c2: Rgb, c: Rgb)
  {
    && (c1.r <= c.r <= c2.r || c2.r <= c.r <= c1.r)
    && (c1.g <= c.g <= c2.g || c2.g <= c.g <= c1.g)
    && (c1.b <= c.b <= c2.b || c2.b <= c.b <= c1.b)
  }

  lemma MixBetween(c1: Rgb, c2: Rgb, t: real)
    requires IsByteColor(c1) && IsByteColor(c2) && 0.0 <= t <= 1.0
    ensures Between(c1, c2, Mix(c1, c2, t)) && IsByteColor(Mix(c1, c2, t))
    ensures t == 0.0 ==> Mix(c1, c2, t) == c1
  {
    LerpBetween(c1.r, c2.r, t);
    LerpBetween(c1.g, c2.g, t);
    LerpBetween(c1.b, c2.b, t);
  }

  /** The sky colour at a vertical position (0 = top, 1 = bottom) for an hour. */
  function SkyColorForHour(hour: int, position: real): (c: Rgb)
    ensures position == 0.0 ==> c == StopsFor(hour).top
    ensures position == 0.35 ==> c == StopsFor(hour).horizon
  {
    var s := StopsFor(hour);
    if position < 0.35 then Mix(s.top, s.horizon, position / 0.35)
    else Mix(s.horizon, s.bottom, (position - 0.35) / 0.65)
  }

  /**
   * On [0, 1) the colour lies between the two stops it interpolates (top and
   * horizon above 0.35, horizon and bottom from 0.35), so it is a byte colour;
   * position 0 gives exactly the top stop and 0.35 exactly the horizon stop.
   */
  lemma SkyColorBetweenStops(hour: int, position: real)
    requires 0.0 <= position < 1.0
    ensures var s, c := StopsFor(hour), SkyColorForHour(hour, position);
      && IsByteColor(c)
      && (position < 0.35 ==> Between(s.top, s.horizon, c))
      && (0.35 <= position ==> Between(s.horizon, s.bottom, c))
      && (position == 0.0 ==> c == s.top)
      && (position == 0.35 ==> c == s.horizon)
  {
    var s := StopsFor(hour);
    if position < 0.35 {
      MixBetween(s.top, s.horizon, position / 0.35);
    } else {
      MixBetween(s.horizon, s.bottom, (position - 0.35) / 0.65);
    }
  }

  /** create_sky_gradient: one colour per row y, at position y / height. */
  method SkyGradient(height: nat, hour: int) returns (rows: seq<Rgb>)
    ensures |rows| == height
    ensures forall y :: 0 <= y < height ==> rows[y] == SkyColorForHour(hour, y as real / height as real)
    ensures forall y :: 0 <= y < height ==> IsByteColor(rows[y])
  {
    rows := [];
    for y := 0 to height
      invariant |rows| == y
      invariant forall k :: 0 <= k < y ==> rows[k] == SkyColorForHour(hour, k as real / height as real)
      invariant forall k :: 0 <= k < y ==> IsByteColor(rows[k])
    {
      var position := y as real / height as real;
      SkyColorBetweenStops(hour, position);
      rows := rows + [SkyColorForHour(hour, position)];
    }
  }

  // ----- lighting parameters (get_lighting_params) -----

  datatype LightingParams = LightingParams(brightness: real, warmth: real, contrast: real,
                                           saturation: real, glow: real)

  const LightingTable: map<int, LightingParams> := map[
    5 := LightingParams(0.55, 0.15, 1.1, 1.2, 0.2),
    7 := LightingParams(0.85, 0.05, 1.15, 1.15, 0.0),
    9 := LightingParams(1.0, 0.0, 1.2, 1.1, 0.0),
    11 := LightingParams(1.05, -0.02, 1.25, 1.05, 0.0),
    13 := LightingParams(1.1, -0.03, 1.3, 1.0, 0.0),
    15 := LightingParams(1.0, 0.02, 1.2, 1.1, 0.0),
    17 := LightingParams(0.75, 0.12, 1.25, 1.35, 0.15),
    19 := LightingParams(0.55, 0.1, 1.25, 1.3, 0.55),
    21 := LightingParams(0.45, 0.08, 1.2, 1.2, 0.65),
    23 := LightingParams(0.40, 0.05, 1.2, 1.15, 0.70),
    1 := LightingParams(0.35, 0.03, 1.15, 1.1, 0.75),
    3 := LightingParams(0.35, 0.04, 1.15, 1.1, 0.70)
  ]

  /** params.get(hour, params[13]) */
  function LightingFor(hour: int): (p: LightingParams)
    ensures 0.35 <= p.brightness <= 1.1 && 0.0 <= p.glow <= 0.75
    ensures hour !in LightingTable ==> p == LightingTable[13]
  {
    if hour in LightingTable then LightingTable[hour] else LightingTable[13]
  }

  /** Both tables are keyed by exactly the hours `main` generates, so their fallback is never taken there. */
  lemma TablesCoverGeneratedHours()
    ensures SkyTable.Keys == LightingTable.Keys == set h | h in Hours
    ensures forall h :: h in Hours ==> h in SkyTable && h in LightingTable
  {
    assert SkyTable.Keys == {5, 7, 9, 11, 13, 15, 17, 19, 21, 23, 1, 3};
    assert LightingTable.Keys == {5, 7, 9, 11, 13, 15, 17, 19, 21, 23, 1, 3};
  }

  /** Step 4 of create_restaurant_variant: the ambient glow is added when glow > 0. */
  predicate GlowApplied(hour: int)
  {
    LightingFor(hour).glow > 0.0
  }

  /** The glow step runs for 5, 17 and the night hours 19..3, and never from 7 to 15. */
  lemma GlowHours()
    ensures forall h :: h in Hours ==> (GlowApplied(h) <==> h in {5, 17, 19, 21, 23, 1, 3})
    ensures forall h :: 7 <= h <= 15 ==> !GlowApplied(h)
  {
    forall h | 7 <= h <= 15
      ensures !GlowApplied(h)
    {
      if h !in LightingTable {
        assert LightingFor(h) == LightingTable[13];
      }
    }
  }

  // ----- vignette (apply_vignette) -----

  /** vignette_strength = 0.2 + (1 - brightness) * 0.2 */
  function VignetteStrength(brightness: real): (v: real)
    ensures brightness == 1.0 ==> v == 0.2
    ensures brightness <= 1.0 ==> 0.2 <= v
    ensures 0.0 <= brightness ==> v <= 0.4
  {
    0.2 + (1.0 - brightness) * 0.2
  }

  /** int(255 * (1 - (i / edge) * strength)) */
  function RingAlpha(i: nat, edge: nat, strength: real): (a: int)
    requires edge > 0
    ensures i == 0 ==> a == 255
    ensures strength == 0.0 ==> a == 255
  {
    Trunc(255.0 * (1.0 - (i as real / edge as real) * strength))
  }

  /** Ring alphas start at 255 and never increase inward from the edge, for a strength in [0, 1]. */
  lemma RingAlphaNonIncreasing(i: nat, j: nat, edge: nat, strength: real)
    requires i <= j < edge && 0.0 <= strength <= 1.0
    ensures RingAlpha(0, edge, strength) == 255
    ensures RingAlpha(j, edge, strength) <= RingAlpha(i, edge, strength)
  {
    var fi, fj := i as real / edge as real, j as real / edge as real;
    Fraction(i, j, edge);
    var pi, pj := fi * strength, fj * strength;
    ScaledOrder(fi, fj, strength, pi, pj);
    AlphaOrder(pi, pj);
    assert 0 as real / edge as real == 0.0;
  }

  lemma AlphaOrder(pi: real, pj: real)
    requires 0.0 <= pi <= pj <= 1.0
    ensures Trunc(255.0 * (1.0 - pj)) <= Trunc(255.0 * (1.0 - pi))
  {
    TruncMonotone(255.0 * (1.0 - pj), 255.0 * (1.0 - pi));
  }

  /** i / edge and j / edge are ordered like i and j and stay below 1. */
  lemma Fraction(i: nat, j: nat, edge: nat)
    requires i <= j < edge
    ensures 0.0 <= i as real / edge as real <= j as real / edge as real < 1.0
  {
    var e := edge as real;
    assert j as real / e * e == j as real;
    assert i as real / e * e == i as real;
  }

  /** Scaling two fractions of [0, 1] by the same strength of [0, 1] keeps their order and stays in [0, 1]. */
  lemma ScaledOrder(fi: real, fj: real, strength: real, pi: real, pj: real)
    requires 0.0 <= fi <= fj <= 1.0 && 0.0 <= strength <= 1.0
    requires pi == fi * strength && pj == fj * strength
    ensures 0.0 <= pi <= pj <= 1.0
  {
    ScaleBelow(strength, fj);
    ScaleBelow(strength, fi);
    assert pj - pi == (fj - fi) * strength;
    ScaleBelow(fj - fi, strength);
  }

  /** For every tabled brightness the vignette strength lies in [0.18, 0.33] and keeps every ring alpha at 170 or more. */
  lemma RingAlphaPositive(hour: int, i: nat, edge: nat)
    requires i < edge
    ensures var s := VignetteStrength(LightingFor(hour).brightness);
      0.18 <= s <= 0.33 && RingAlpha(i, edge, s) >= 170
  {
    var s := VignetteStrength(LightingFor(hour).brightness);
    var f := i as real / edge as real;
    Fraction(i, i, edge);
    var p := f * s;
    ScaledOrder(f, f, s, p, p);
    ScaleBelow(s, f);
    assert p <= s;
    TruncMonotone(170.0, 255.0 * (1.0 - p));
  }

  /** One outline rectangle [x0, y0, x1, y1] with its alpha. */
  datatype Ring = Ring(x0: int, y0: int, x1: int, y1: int, alpha: int)

  /** The rectangle loop of apply_vignette over an image of the given size. */
  method VignetteRings(width: nat, height: nat, strength: real) returns (rings: seq<Ring>)
    ensures var edge := (if width <= height then width else height) / 3;
      && |rings| == edge
      && forall i :: 0 <= i < edge ==>
           rings[i] == Ring(i, i, width - i - 1, height - i - 1, RingAlpha(i, edge, strength))
    ensures 0.0 <= strength <= 1.0 ==> forall i, j :: 0 <= i <= j < |rings| ==> rings[j].alpha <= rings[i].alpha
  {
    var edgeDistance := (if width <= height then width else height) / 3;
    rings := [];
    for i := 0 to edgeDistance
      invariant |rings| == i
      invariant forall k :: 0 <= k < i ==>
        rings[k] == Ring(k, k, width - k - 1, height - k - 1, RingAlpha(k, edgeDistance, strength))
    {
      var alpha := Trunc(255.0 * (1.0 - (i as real / edgeDistance as real) * strength));
      rings := rings + [Ring(i, i, width - i - 1, height - i - 1, alpha)];
    }
    if 0.0 <= strength <= 1.0 {
      forall i, j | 0 <= i <= j < |rings|
        ensures rings[j].alpha <= rings[i].alpha
      {
        RingAlphaNonIncreasing(i, j, edgeDistance, strength);
      }
    }
  }

  // ----- names and labels (main) -----

  /** "AM" or "PM" of the listing. */
  function TimeLabel(hour: int): (l: string)
    ensures l == "AM" <==> hour < 12
    ensures l == "PM" <==> hour >= 12
  {
    if hour < 12 then "AM" else "PM"
  }

  /** The hour shown on the 12-hour clock. */
  function DisplayHour(hour: int): (d: int)
    ensures 0 <= hour < 24 ==> 1 <= d <= 12 && d % 12 == hour % 12
  {
    var d := if hour <= 12 then hour else hour - 12;
    if d == 0 then 12 else d
  }

  /** The 12-hour time of the listing reads back to the hour, so two hours of a day never share a label. */
  lemma TwelveHourClock(hour: int, other: int)
    requires 0 <= hour < 24 && 0 <= other < 24
    ensures DisplayHour(hour) % 12 + (if TimeLabel(hour) == "PM" then 12 else 0) == hour
    ensures DisplayHour(hour) == DisplayHour(other) && TimeLabel(hour) == TimeLabel(other) ==> hour == other
  {
  }

  function ListingLine(hour: nat): string
  {
    "  • " + TwoDigit(hour) + ".jpg - " + Decimal(DisplayHour(hour) as nat) + ":00 " + TimeLabel(hour)
  }

  /** What main does for one hour: the output path and the parameters the variant is made with. */
  datatype Variant = Variant(path: string, hour: int, lighting: LightingParams, glow: bool)

  function VariantFor(hour: nat): Variant
  {
    Variant(SkyImagePath(hour), hour, LightingFor(hour), GlowApplied(hour))
  }

  /** The first loop of main over a list of hours: one variant per hour, in order. */
  method GenerateVariants(hours: seq<nat>) returns (variants: seq<Variant>)
    ensures |variants| == |hours|
    ensures forall k :: 0 <= k < |hours| ==> variants[k] == VariantFor(hours[k])
    ensures (forall k :: 0 <= k < |hours| ==> hours[k] < 100) && (forall k, m :: 0 <= k < m < |hours| ==> hours[k] != hours[m])
            ==> forall k, m :: 0 <= k < m < |hours| ==> variants[k].path != variants[m].path
  {
    variants := [];
    for k := 0 to |hours|
      invariant |variants| == k
      invariant forall i :: 0 <= i < k ==> variants[i] == VariantFor(hours[i])
    {
      variants := variants + [VariantFor(hours[k])];
    }
    if (forall k :: 0 <= k < |hours| ==> hours[k] < 100) && (forall k, m :: 0 <= k < m < |hours| ==> hours[k] != hours[m]) {
      forall k, m | 0 <= k < m < |hours|
        ensures variants[k].path != variants[m].path
      {
        SkyImagePathInjective(hours[k], hours[m]);
      }
    }
  }

  /** The second loop of main over a list of hours: one listing line per hour, in order. */
  method GeneratedListing(hours: seq<nat>) returns (listing: seq<string>)
    ensures |listing| == |hours|
    ensures forall k :: 0 <= k < |hours| ==> listing[k] == ListingLine(hours[k])
  {
    listing := [];
    for k := 0 to |hours|
      invariant |listing| == k
      invariant forall i :: 0 <= i < k ==> listing[i] == ListingLine(hours[i])
    {
      listing := listing + [ListingLine(hours[k])];
    }
  }

  /** main: the variants of the twelve generated hours, each with its own file, and their listing. */
  method GeneratorMain() returns (variants: seq<Variant>, listing: seq<string>)
    ensures |variants| == |listing| == |Hours| == 12
    ensures forall k :: 0 <= k < |Hours| ==> variants[k] == VariantFor(Hours[k]) && listing[k] == ListingLine(Hours[k])
    ensures forall k, m :: 0 <= k < m < |Hours| ==> variants[k].path != variants[m].path
  {
    HoursDistinct();
    variants := GenerateVariants(Hours);
    listing := GeneratedListing(Hours);
  }

  /** Every generated variant is made with its own lighting table entry, never the fallback. */
  lemma GeneratedVariantsDiffer()
    ensures forall k :: 0 <= k < |Hours| ==> Hours[k] in LightingTable && VariantFor(Hours[k]).lighting == LightingTable[Hours[k]]
  {
    TablesCoverGeneratedHours();
  }

  /** The generated hours are twelve distinct hours of the day. */
  lemma HoursDistinct()
    ensures forall k :: 0 <= k < |Hours| ==> Hours[k] < 24
    ensures forall k, m :: 0 <= k < m < |Hours| ==> Hours[k] != Hours[m]
  {
    assert Hours == [5, 7, 9, 11, 13, 15, 17, 19, 21, 23, 1, 3];
  }
}
