/**
 * The time-of-day presentation of js/main.js: the SkyTimeLapse class that
 * keeps one of 24 hourly sky images active, the fallback gradient for a
 * missing image, the sun/moon icon opacity table and the hour-nav click
 * handler that moves the 'active' class.
 *
 * An image is a value with an `active` flag (its 'active' CSS class) and
 * an optional inline background (set by its error handler); the class
 * keeps the list of images as a sequence that its methods reassign.
 */
module SkyBackground {
  import opened Common
  import Navigator

  const HourCount: nat := 24

  // ----- fallback gradient (getTimeBasedGradient) -----

  datatype Band = Dawn | Day | Dusk | Night

  /** The band of the day whose gradient a missing sky image falls back to. */
  function GradientBand(hour: int): (b: Band)
    ensures b == Dawn <==> 5 <= hour < 7
    ensures b == Day <==> 7 <= hour < 17
    ensures b == Dusk <==> 17 <= hour < 19
    ensures b == Night <==> hour < 5 || 19 <= hour
  {
    if 5 <= hour < 7 then Dawn
    else if 7 <= hour < 17 then Day
    else if 17 <= hour < 19 then Dusk
    else Night
  }

  function BandCss(b: Band): string
  {
    match b
    case Dawn => "linear-gradient(to bottom, #FF6B6B, #FFA07A, #87CEEB)"
    case Day => "linear-gradient(to bottom, #4A90E2, #87CEEB)"
    case Dusk => "linear-gradient(to bottom, #FF6B6B, #FF8C42, #4A5568)"
    case Night => "linear-gradient(to bottom, #1A202C, #2D3748)"
  }

  function TimeBasedGradient(hour: int): string
  {
    BandCss(GradientBand(hour))
  }

  /** Two hours get the same gradient exactly when they are in the same band. */
  lemma GradientDeterminesBand(h1: int, h2: int)
    ensures TimeBasedGradient(h1) == TimeBasedGradient(h2) <==> GradientBand(h1) == GradientBand(h2)
  {
    var b1, b2 := GradientBand(h1), GradientBand(h2);
    if b1 != b2 {
      assert BandCss(b1)[28] != BandCss(b2)[28] || BandCss(b1)[39] != BandCss(b2)[39];
    }
  }

  // ----- sun/moon icon opacity (the if-chain in updateIconOpacity) -----

  /** The opacity given to an hour's icon; None where the chain leaves it undefined. */
  function IconOpacity(hour: int): (r: Option<real>)
    ensures r.Some? <==> 0 <= hour < 24
    ensures r.Some? ==> 0.2 <= r.value <= 1.0
    ensures r == Some(1.0) <==> hour == 0 || hour == 12 || hour == 13
  {
    if 6 <= hour <= 18 then
      if hour == 6 then Some(0.2)
      else if hour == 7 then Some(0.35)
      else if hour == 8 then Some(0.55)
      else if hour == 9 then Some(0.75)
      else if hour == 10 then Some(0.9)
      else if hour == 11 then Some(0.95)
      else if hour == 12 then Some(1.0)
      else if hour == 13 then Some(1.0)
      else if hour == 14 then Some(0.95)
      else if hour == 15 then Some(0.9)
      else if hour == 16 then Some(0.8)
      else if hour == 17 then Some(0.65)
      else Some(0.4)
    else
      if hour == 19 then Some(0.3)
      else if hour == 20 then Some(0.45)
      else if hour == 21 then Some(0.6)
      else if hour == 22 then Some(0.75)
      else if hour == 23 then Some(0.85)
      else if hour == 0 then Some(1.0)
      else if hour == 1 then Some(0.95)
      else if hour == 2 then Some(0.85)
      else if hour == 3 then Some(0.7)
      else if hour == 4 then Some(0.5)
      else if hour == 5 then Some(0.25)
      else None
  }

  function Opacity(hour: int): real
    requires 0 <= hour < 24
  {
    IconOpacity(hour).value
  }

  /** The sun icon brightens towards noon and the moon icon towards midnight, then both fade. */
  lemma IconOpacityShape()
    ensures forall h :: 6 <= h < 12 ==> Opacity(h) < Opacity(h + 1)
    ensures Opacity(12) == Opacity(13)
    ensures forall h :: 13 <= h < 18 ==> Opacity(h) > Opacity(h + 1)
    ensures forall h :: 19 <= h < 23 ==> Opacity(h) < Opacity(h + 1)
    ensures Opacity(23) < Opacity(0)
    ensures forall h :: 0 <= h < 5 ==> Opacity(h) > Opacity(h + 1)
  {
  }

  // ----- sky images -----

  /** One sky <img>: src, alt, data-hour, its 'active' class and a fallback inline background. */
  datatype SkyImage = SkyImage(src: string, alt: string, hour: int, active: bool, background: Option<string>)

  function ImageAlt(i: nat): string { "Sky at " + TwoDigit(i) + ":00" }

  /** The hour whose section first contains the midpoint, if handleScroll would switch to it. */
  function ScrollTargetHour(current: int, secs: seq<Navigator.Section>, pos: real): (h: int)
  {
    match Navigator.FirstContaining(secs, pos)
    case None => current
    case Some(i) =>
      var hour := secs[i].hour;
      if hour != current && 0 <= hour < HourCount then hour else current
  }

  lemma ScrollTargetIsFirstHit(current: int, secs: seq<Navigator.Section>, pos: real)
    requires 0 <= current < HourCount
    ensures var h := ScrollTargetHour(current, secs, pos);
      && 0 <= h < HourCount
      && (h != current ==>
            exists i :: (0 <= i < |secs| && Navigator.Contains(secs[i], pos) && secs[i].hour == h
                         && forall j :: 0 <= j < i ==> !Navigator.Contains(secs[j], pos)))
  {
    var r := Navigator.FirstContaining(secs, pos);
    if r.Some? {
      var i := r.value;
      assert Navigator.Contains(secs[i], pos) && forall j :: 0 <= j < i ==> !Navigator.Contains(secs[j], pos);
    }
  }

  /** The image the page creates for an hour: its file, its alt text, not active, no fallback. */
  function FreshImage(hour: nat): (img: SkyImage)
    ensures img.src == SkyImagePath(hour) && img.alt == ImageAlt(hour)
    ensures img.hour == hour && !img.active && img.background.None?
  {
    SkyImage(SkyImagePath(hour), ImageAlt(hour), hour, false, None)
  }

  /** The loop of init that creates one image per hour, in hour order. */
  method CreateImages() returns (imgs: seq<SkyImage>)
    ensures |imgs| == HourCount
    ensures forall k :: 0 <= k < HourCount ==> imgs[k] == FreshImage(k)
  {
    imgs := [];
    for i := 0 to HourCount
      invariant |imgs| == i
      invariant forall k :: 0 <= k < i ==> imgs[k] == FreshImage(k)
    {
      imgs := imgs + [FreshImage(i)];
    }
  }

  /** An image whose file failed to load, shown with the gradient of its own hour instead. */
  function WithFallback(img: SkyImage): (r: SkyImage)
    ensures r.src == img.src && r.alt == img.alt && r.hour == img.hour && r.active == img.active
    ensures r.background == Some(TimeBasedGradient(img.hour))
  {
    img.(background := Some(TimeBasedGradient(img.hour)))
  }

  class SkyTimeLapse {
    var currentHour: int
    var images: seq<SkyImage>
    var isInitialized: bool
    var sections: seq<Navigator.Section>

    ghost predicate Valid()
      reads this
    {
      && |images| == HourCount
      && 0 <= currentHour < HourCount
      && (forall i :: 0 <= i < HourCount ==> images[i].hour == i && images[i].src == SkyImagePath(i))
      && (forall i :: 0 <= i < HourCount ==> images[i].active == (i == currentHour))
    }

    /** constructor + init: create the 24 images, activate image 0, then the initial handleScroll. */
    constructor (sections: seq<Navigator.Section>, scrollY: real, innerHeight: real)
      ensures Valid() && isInitialized && this.sections == sections
      ensures forall i :: 0 <= i < HourCount ==> images[i].alt == ImageAlt(i) && images[i].background.None?
      ensures currentHour == ScrollTargetHour(0, sections, Navigator.Midpoint(scrollY, innerHeight))
    {
      currentHour := 0;
      isInitialized := false;
      var imgs := CreateImages();
      this.sections := sections;
      if |imgs| > 0 {
        imgs := imgs[0 := imgs[0].(active := true)];
        isInitialized := true;
      }
      images := imgs;
      new;
      HandleScroll(scrollY, innerHeight);
    }

    /** Switch the active image; out-of-range hours and the current hour change nothing. */
    method TransitionToHour(hour: int)
      requires Valid()
      modifies this
      ensures Valid() && sections == old(sections) && isInitialized == old(isInitialized)
      ensures if 0 <= hour < HourCount && hour != old(currentHour)
              then currentHour == hour
              else currentHour == old(currentHour) && images == old(images)
      ensures forall i :: 0 <= i < HourCount ==>
                images[i] == old(images[i]).(active := (i == currentHour))
    {
      if 0 <= hour < HourCount && hour != currentHour {
        ghost var before := images;
        images := images[currentHour := images[currentHour].(active := false)];
        currentHour := hour;
        images := images[currentHour := images[currentHour].(active := true)];
        assert forall i :: 0 <= i < HourCount ==> images[i] == before[i].(active := (i == hour));
      }
    }

    /** The first section under the viewport midpoint decides the hour shown. */
    method HandleScroll(scrollY: real, innerHeight: real)
      requires Valid()
      modifies this
      ensures Valid() && sections == old(sections) && isInitialized == old(isInitialized)
      ensures currentHour == ScrollTargetHour(old(currentHour), sections, Navigator.Midpoint(scrollY, innerHeight))
      ensures forall i :: 0 <= i < HourCount ==>
                images[i] == old(images[i]).(active := (i == currentHour))
    {
      var scrollPosition := scrollY + innerHeight / 2.0;
      var i := 0;
      while i < |sections|
        invariant 0 <= i <= |sections|
        invariant forall j :: 0 <= j < i ==> !Navigator.Contains(sections[j], scrollPosition)
        invariant unchanged(this)
      {
        if Navigator.Contains(sections[i], scrollPosition) {
          var hour := sections[i].hour;
          assert Navigator.FirstContaining(sections, scrollPosition) == Some(i);
          if hour != currentHour {
            TransitionToHour(hour);
          }
          return;
        }
        i := i + 1;
      }
    }

    /** The error handler of image i: fall back to the gradient of its hour. */
    method OnImageError(i: nat)
      requires Valid() && i < HourCount
      modifies this
      ensures Valid() && currentHour == old(currentHour) && sections == old(sections) && isInitialized == old(isInitialized)
      ensures images == old(images)[i := old(images[i]).(background := Some(TimeBasedGradient(i)))]
    {
      images := images[i := WithFallback(images[i])];
    }
  }

  /** At most one image is active in a valid SkyTimeLapse. */
  lemma AtMostOneActive(t: SkyTimeLapse, i: nat, j: nat)
    requires t.Valid() && i < HourCount && j < HourCount
    requires t.images[i].active && t.images[j].active
    ensures i == j
  {
  }

  // ----- hour navigation click -----

  /**
   * A click on hour item `clicked`: when its target section exists, every
   * item loses 'active' and the clicked one gains it; otherwise nothing.
   */
  method ClickHourItem(active: array<bool>, clicked: nat, targetExists: bool)
    requires clicked < active.Length
    modifies active
    ensures targetExists ==> forall i :: 0 <= i < active.Length ==> active[i] == (i == clicked)
    ensures !targetExists ==> active[..] == old(active[..])
  {
    if !targetExists {
      return;
    }
    for k := 0 to active.Length
      invariant forall i :: 0 <= i < k ==> !active[i]
    {
      active[k] := false;
    }
    active[clicked] := true;
  }
}
