/**
 * The hour-to-appearance tables of generate_sky_images.py: sky palettes,
 * when the sun and the moon are drawn and how far across the sky they
 * are, the sun's size and glow rings, how many stars are drawn and how
 * bright, the lighting adjustment, and the names of the 24 output files.
 *
 * Drawing is modelled as the list of ellipses handed to the canvas. The
 * vertical arc position (a sine), the random star positions and all PIL
 * image processing are not part of this model.
 */
module SkyImages {
  import opened Common

  // ----- sky palettes (get_sky_colors) -----

  datatype Palette = Palette(top: Rgb, middle: Rgb, bottom: Rgb)

  predicate IsBytePalette(p: Palette)
  {
    IsByteColor(p.top) && IsByteColor(p.middle) && IsByteColor(p.bottom)
  }

  function P(r1: int, g1: int, b1: int, r2: int, g2: int, b2: int, r3: int, g3: int, b3: int): Palette
  {
    Palette(Rgb(r1, g1, b1), Rgb(r2, g2, b2), Rgb(r3, g3, b3))
  }

  /** The gradient colours of an hour; every hour past the table reads as hour 23. */
  function SkyColors(hour: int): (p: Palette)
    ensures IsBytePalette(p)
  {
    if hour == 0 then P(5, 10, 30, 10, 15, 40, 15, 20, 45)
    else if hour == 1 then P(8, 12, 32, 12, 18, 42, 16, 22, 47)
    else if hour == 2 then P(10, 14, 34, 14, 20, 44, 18, 24, 49)
    else if hour == 3 then P(12, 16, 36, 16, 22, 46, 20, 26, 51)
    else if hour == 4 then P(15, 20, 40, 20, 28, 50, 25, 32, 55)
    else if hour == 5 then P(30, 35, 70, 80, 60, 100, 120, 80, 110)
    else if hour == 6 then P(255, 180, 120, 255, 140, 90, 255, 100, 70)
    else if hour == 7 then P(135, 180, 230, 200, 160, 140, 255, 190, 150)
    else if hour == 8 then P(100, 160, 230, 130, 180, 235, 160, 200, 240)
    else if hour == 9 then P(90, 150, 225, 120, 180, 235, 150, 200, 245)
    else if hour in {10, 11} then P(70, 130, 225, 100, 160, 235, 135, 190, 250)
    else if hour in {12, 13, 14} then P(60, 120, 220, 90, 150, 230, 120, 180, 245)
    else if hour == 15 then P(80, 140, 220, 110, 170, 235, 140, 195, 248)
    else if hour == 16 then P(100, 150, 215, 150, 175, 220, 200, 185, 200)
    else if hour == 17 then P(120, 160, 210, 240, 180, 140, 255, 160, 100)
    else if hour == 18 then P(255, 160, 100, 255, 120, 90, 250, 90, 120)
    else if hour == 19 then P(120, 80, 140, 90, 60, 110, 60, 40, 90)
    else if hour == 20 then P(50, 45, 90, 35, 35, 70, 25, 25, 55)
    else if hour == 21 then P(20, 25, 60, 15, 20, 50, 12, 16, 42)
    else if hour == 22 then P(12, 18, 50, 10, 15, 42, 8, 12, 36)
    else P(8, 12, 40, 7, 10, 35, 6, 8, 32)
  }

  /** Late morning shares one palette, noon to early afternoon another; the two differ. */
  lemma SharedPalettes()
    ensures SkyColors(10) == SkyColors(11)
    ensures SkyColors(12) == SkyColors(13) == SkyColors(14)
    ensures SkyColors(11) != SkyColors(12)
    ensures forall h :: h < 0 || h > 23 ==> SkyColors(h) == SkyColors(23)
  {
  }

  // ----- sun and moon (get_sun_position, get_moon_position) -----

  /** Horizontal position of the sun as a fraction of the width, when it is up. */
  function SunX(hour: int): (x: Option<real>)
    ensures x.None? <==> hour < 6 || hour > 19
    ensures x.Some? ==> 0.15 <= x.value <= 0.85
    ensures x.Some? ==> x.value == 0.15 + ((hour - 6) as real / 13.0) * 0.7
  {
    if hour < 6 || hour > 19 then None
    else
      var progress := (hour - 6) as real / 13.0;
      Some(0.15 + progress * 0.7)
  }

  /** The sun moves strictly left to right through the day. */
  lemma SunXIncreasing(h1: int, h2: int)
    requires 6 <= h1 < h2 <= 19
    ensures SunX(h1).value < SunX(h2).value
  {
  }

  /** How many hours the moon has been up: 19..23 then 0..5 count 0..10. */
  function MoonHour(hour: int): (m: int)
    ensures 0 <= hour < 24 && !(6 <= hour <= 18) ==> 0 <= m <= 10 && (m + 19) % 24 == hour
  {
    if hour >= 19 then hour - 19 else hour + 5
  }

  function MoonX(hour: int): (x: Option<real>)
    ensures x.None? <==> 6 <= hour <= 18
    ensures x.Some? ==> x.value == 0.15 + (MoonHour(hour) as real / 11.0) * 0.7
  {
    if 6 <= hour <= 18 then None
    else
      var progress := MoonHour(hour) as real / 11.0;
      Some(0.15 + progress * 0.7)
  }

  /** The moon's hour count runs 0..10 without a jump at midnight, so its progress stays in [0, 10/11]. */
  lemma MoonHourConsecutive()
    ensures MoonHour(19) == 0 && MoonHour(5) == 10
    ensures forall h :: 19 <= h < 23 ==> MoonHour(h + 1) == MoonHour(h) + 1
    ensures MoonHour(0) == MoonHour(23) + 1
    ensures forall h :: 0 <= h < 5 ==> MoonHour(h + 1) == MoonHour(h) + 1
    ensures forall h :: 0 <= h < 24 && MoonX(h).Some? ==>
      0 <= MoonHour(h) <= 10 && 0.15 <= MoonX(h).value <= 0.15 + (10.0 / 11.0) * 0.7
  {
  }

  /** Every hour draws the sun or the moon; only hour 19 draws both. */
  lemma SunOrMoon(hour: int)
    requires 0 <= hour < 24
    ensures SunX(hour).Some? || MoonX(hour).Some?
    ensures SunX(hour).Some? && MoonX(hour).Some? <==> hour == 19
  {
  }

  // ----- drawing (draw_sun, draw_moon) -----

  datatype Rgba = Rgba(r: int, g: int, b: int, a: int)

  /** A fill as the script passes it: an RGB triple, or an RGBA quadruple. */
  datatype Fill = Solid(rgb: Rgb) | Translucent(rgba: Rgba)

  /** draw.ellipse([x0, y0, x1, y1], fill) */
  datatype Ellipse = Ellipse(x0: int, y0: int, x1: int, y1: int, fill: Fill)

  function Disc(x: int, y: int, radius: int, fill: Fill): Ellipse
  {
    Ellipse(x - radius, y - radius, x + radius, y + radius, fill)
  }

  datatype SunLook = SunLook(radius: int, color: Rgb, glow: Rgba)

  function SunStyle(hour: int): (s: SunLook)
    ensures hour == 6 ==> s.radius == 40
    ensures hour == 18 ==> s.radius == 45
    ensures 12 <= hour <= 15 ==> s.radius == 50
    ensures hour != 6 && hour != 18 && !(12 <= hour <= 15) ==> s.radius == 45
  {
    if hour == 6 then SunLook(40, Rgb(255, 200, 100), Rgba(255, 180, 80, 100))
    else if hour == 18 then SunLook(45, Rgb(255, 150, 80), Rgba(255, 120, 60, 120))
    else if 12 <= hour <= 15 then SunLook(50, Rgb(255, 240, 200), Rgba(255, 250, 220, 80))
    else SunLook(45, Rgb(255, 230, 180), Rgba(255, 220, 160, 90))
  }

  /** draw_sun: four glow rings, largest first, then the sun disc, all around one centre. */
  method DrawSun(width: int, height: int, px: real, py: real, hour: int) returns (ops: seq<Ellipse>)
    ensures var x, y, s := Trunc(width as real * px), Trunc(height as real * py), SunStyle(hour);
      && |ops| == 5
      && (forall k :: 0 <= k < 4 ==> ops[k] == Disc(x, y, s.radius + (4 - k) * 20, Translucent(s.glow)))
      && ops[4] == Disc(x, y, s.radius, Solid(s.color))
    ensures forall k, j :: 0 <= k < j < |ops| ==> ops[k].x1 - ops[k].x0 > ops[j].x1 - ops[j].x0
  {
    var x := Trunc(width as real * px);
    var y := Trunc(height as real * py);
    var style := SunStyle(hour);
    ops := [];
    var i := 4;
    while i > 0
      invariant 0 <= i <= 4 && |ops| == 4 - i
      invariant forall k :: 0 <= k < |ops| ==> ops[k] == Disc(x, y, style.radius + (4 - k) * 20, Translucent(style.glow))
    {
      var glowRadius := style.radius + i * 20;
      ops := ops + [Disc(x, y, glowRadius, Translucent(style.glow))];
      i := i - 1;
    }
    ops := ops + [Disc(x, y, style.radius, Solid(style.color))];
  }

  /** draw_moon: three glow rings, largest first, the moon disc, then three craters. */
  method DrawMoon(width: int, height: int, px: real, py: real) returns (ops: seq<Ellipse>)
    ensures var x, y := Trunc(width as real * px), Trunc(height as real * py);
      && |ops| == 7
      && (forall k :: 0 <= k < 3 ==> ops[k] == Disc(x, y, 35 + (3 - k) * 15, Translucent(Rgba(220, 225, 240, 60))))
      && ops[3] == Disc(x, y, 35, Solid(Rgb(240, 240, 250)))
      && ops[4] == Ellipse(x - 10, y - 8, x - 2, y, Solid(Rgb(210, 210, 220)))
      && ops[5] == Ellipse(x + 5, y - 12, x + 12, y - 5, Solid(Rgb(210, 210, 220)))
      && ops[6] == Ellipse(x - 5, y + 5, x + 2, y + 12, Solid(Rgb(210, 210, 220)))
    ensures forall k :: 4 <= k < |ops| ==>
      ops[3].x0 < ops[k].x0 < ops[k].x1 < ops[3].x1 && ops[3].y0 < ops[k].y0 < ops[k].y1 < ops[3].y1
  {
    var x := Trunc(width as real * px);
    var y := Trunc(height as real * py);
    var radius := 35;
    var glow := Translucent(Rgba(220, 225, 240, 60));
    ops := [];
    var i := 3;
    while i > 0
      invariant 0 <= i <= 3 && |ops| == 3 - i
      invariant forall k :: 0 <= k < |ops| ==> ops[k] == Disc(x, y, radius + (3 - k) * 15, glow)
    {
      ops := ops + [Disc(x, y, radius + i * 15, glow)];
      i := i - 1;
    }
    ops := ops + [Disc(x, y, radius, Solid(Rgb(240, 240, 250)))];
    var crater := Solid(Rgb(210, 210, 220));
    ops := ops + [Ellipse(x - 10, y - 8, x - 2, y, crater)];
    ops := ops + [Ellipse(x + 5, y - 12, x + 12, y - 5, crater)];
    ops := ops + [Ellipse(x - 5, y + 5, x + 2, y + 12, crater)];
  }

  // ----- stars (draw_stars) -----

  datatype StarField = StarField(count: nat, opacity: int)

  /** How many stars, at which alpha; None in daylight. The num_stars argument is always overridden. */
  function StarPlan(hour: int, numStars: nat): (f: Option<StarField>)
    ensures f.None? <==> 6 <= hour <= 18
    ensures f.Some? ==> IsByte(f.value.opacity) && f.value.count <= 200
  {
    if 6 <= hour <= 18 then None
    else if 0 <= hour <= 4 || 21 <= hour <= 23 then Some(StarField(200, 255))
    else Some(StarField(80, 100))
  }

  /** Deep night gets 200 opaque stars, twilight 80 faint ones, whatever count the caller asks for. */
  lemma StarPlanTable(hour: int, n1: nat, n2: nat)
    requires 0 <= hour < 24
    ensures StarPlan(hour, n1) == StarPlan(hour, n2)
    ensures (0 <= hour <= 4 || 21 <= hour) ==> StarPlan(hour, n1) == Some(StarField(200, 255))
    ensures hour in {5, 19, 20} ==> StarPlan(hour, n1) == Some(StarField(80, 100))
  {
  }

  // ----- lighting (get_lighting_adjustment) -----

  /** (brightness factor, overlay colour, overlay opacity) */
  datatype Lighting = Lighting(brightness: real, tint: Rgb, opacity: real)

  /** The periods of the day that the branches of get_lighting_adjustment's if-chain stand for. */
  datatype Period = Night | Dawn | Sunrise | EarlyMorning | Daytime | LateAfternoon | GoldenHour | Sunset | Dusk | Evening

  /**
   * The branch of the if-chain an hour takes. Each branch is characterised by its own guard alone,
   * so the guards are pairwise disjoint and the final else takes exactly the hours outside 0..19.
   */
  function LightingPeriod(hour: int): (p: Period)
    ensures p == Night <==> 0 <= hour <= 4
    ensures p == Dawn <==> hour == 5
    ensures p == Sunrise <==> hour == 6
    ensures p == EarlyMorning <==> hour == 7
    ensures p == Daytime <==> 8 <= hour <= 15
    ensures p == LateAfternoon <==> hour == 16
    ensures p == GoldenHour <==> hour == 17
    ensures p == Sunset <==> hour == 18
    ensures p == Dusk <==> hour == 19
    ensures p == Evening <==> hour < 0 || 19 < hour
  {
    if hour in {0, 1, 2, 3, 4} then Night
    else if hour == 5 then Dawn
    else if hour == 6 then Sunrise
    else if hour == 7 then EarlyMorning
    else if 8 <= hour <= 15 then Daytime
    else if hour == 16 then LateAfternoon
    else if hour == 17 then GoldenHour
    else if hour == 18 then Sunset
    else if hour == 19 then Dusk
    else Evening
  }

  function LightingAdjustment(hour: int): (l: Lighting)
    ensures 0.15 <= l.brightness <= 1.0
    ensures 0.1 <= l.opacity <= 0.7
    ensures IsByteColor(l.tint)
    ensures 8 <= hour <= 15 ==> l == Lighting(1.0, Rgb(255, 255, 250), 0.1)
  {
    match LightingPeriod(hour)
    case Night => Lighting(0.15, Rgb(5, 15, 40), 0.7)
    case Dawn => Lighting(0.35, Rgb(40, 50, 90), 0.6)
    case Sunrise => Lighting(0.75, Rgb(255, 180, 120), 0.4)
    case EarlyMorning => Lighting(0.9, Rgb(255, 230, 200), 0.25)
    case Daytime => Lighting(1.0, Rgb(255, 255, 250), 0.1)
    case LateAfternoon => Lighting(0.95, Rgb(255, 240, 220), 0.15)
    case GoldenHour => Lighting(0.85, Rgb(255, 200, 140), 0.35)
    case Sunset => Lighting(0.65, Rgb(255, 140, 100), 0.5)
    case Dusk => Lighting(0.4, Rgb(120, 80, 140), 0.6)
    case Evening => Lighting(0.2, Rgb(15, 20, 50), 0.7)
  }

  /** The alpha of the colour overlay layer: int(255 * opacity). */
  function OverlayAlpha(l: Lighting): (a: int)
    ensures 0.1 <= l.opacity <= 0.7 ==> 25 <= a <= 178
  {
    Trunc(255.0 * l.opacity)
  }

  // ----- the generation loop -----

  /** What one pass of the loop decides for an hour (the image itself is not modelled). */
  datatype HourImage = HourImage(path: string, lighting: Lighting, overlayAlpha: int,
                                 stars: Option<StarField>, sunX: Option<real>, moonX: Option<real>,
                                 elements: seq<string>)

  /** The printed element list: it names exactly the bodies that are up, and 'Stars' only when neither is. */
  function Elements(sun: bool, moon: bool): (e: seq<string>)
    ensures "Sun" in e <==> sun
    ensures "Moon" in e <==> moon
    ensures "Stars" in e <==> !sun && !moon
    ensures 1 <= |e| <= 2
  {
    (if sun then ["Sun"] else []) + (if moon then ["Moon"] else []) + (if !sun && !moon then ["Stars"] else [])
  }

  /** The record of one loop pass: stars come out exactly when the moon is up, under an overlay of alpha 25..178. */
  function HourImageFor(hour: nat): (r: HourImage)
    ensures r.stars.Some? <==> r.moonX.Some?
    ensures 25 <= r.overlayAlpha <= 178
  {
    var l := LightingAdjustment(hour);
    HourImage(SkyImagePath(hour), l, OverlayAlpha(l), StarPlan(hour, 150), SunX(hour), MoonX(hour),
              Elements(SunX(hour).Some?, MoonX(hour).Some?))
  }

  /** Every hour's record names at least the sun or the moon, and never falls back to "Stars". */
  lemma HourImageShape(hour: nat)
    requires hour < 24
    ensures 25 <= HourImageFor(hour).overlayAlpha <= 178
    ensures "Stars" !in HourImageFor(hour).elements && 1 <= |HourImageFor(hour).elements| <= 2
  {
    SunOrMoon(hour);
  }

  /** Over the whole day the records have distinct paths, an overlay alpha in range and no "Stars" entry. */
  lemma AllHourImages()
    ensures forall h :: 0 <= h < 24 ==> 25 <= HourImageFor(h).overlayAlpha <= 178
    ensures forall h :: 0 <= h < 24 ==> "Stars" !in HourImageFor(h).elements && 1 <= |HourImageFor(h).elements| <= 2
    ensures forall i, j :: 0 <= i < j < 24 ==> HourImageFor(i).path != HourImageFor(j).path
  {
    forall h | 0 <= h < 24
      ensures 25 <= HourImageFor(h).overlayAlpha <= 178
      ensures "Stars" !in HourImageFor(h).elements && 1 <= |HourImageFor(h).elements| <= 2
    {
      HourImageShape(h);
    }
    forall i, j | 0 <= i < j < 24
      ensures HourImageFor(i).path != HourImageFor(j).path
    {
      SkyImagePathInjective(i, j);
    }
  }

  /** One pass of the generation loop: lighting, overlay alpha, stars, sun, moon and the element list. */
  method GenerateHour(hour: nat) returns (image: HourImage)
    ensures image == HourImageFor(hour)
    ensures hour < 24 ==> "Stars" !in image.elements && 1 <= |image.elements| <= 2
  {
    var lighting := LightingAdjustment(hour);
    var sun := SunX(hour);
    var moon := MoonX(hour);
    var elements: seq<string> := [];
    if sun.Some? {
      elements := elements + ["Sun"];
    }
    if moon.Some? {
      elements := elements + ["Moon"];
    }
    if sun.None? && moon.None? {
      elements := elements + ["Stars"];
    }
    assert elements == Elements(sun.Some?, moon.Some?);
    image := HourImage(SkyImagePath(hour), lighting, OverlayAlpha(lighting), StarPlan(hour, 150), sun, moon, elements);
    if hour < 24 {
      HourImageShape(hour);
    }
  }

  /** `for hour in range(24)`: one image per hour, saved under distinct names. */
  method GenerateSkyImages() returns (out: seq<HourImage>)
    ensures |out| == 24
    ensures forall h :: 0 <= h < 24 ==> out[h] == HourImageFor(h)
    ensures forall i, j :: 0 <= i < j < 24 ==> out[i].path != out[j].path
    ensures forall h :: 0 <= h < 24 ==> 25 <= out[h].overlayAlpha <= 178
    ensures forall h :: 0 <= h < 24 ==> "Stars" !in out[h].elements && 1 <= |out[h].elements| <= 2
  {
    out := [];
    for hour := 0 to 24
      invariant |out| == hour
      invariant forall h :: 0 <= h < hour ==> out[h] == HourImageFor(h)
    {
      var image := GenerateHour(hour);
      out := out + [image];
    }
    AllHourImages();
    forall i, j | 0 <= i < j < 24
      ensures out[i].path != out[j].path
    {
      assert out[i] == HourImageFor(i) && out[j] == HourImageFor(j);
    }
  }
}
