# LiveLikeRichard — a verified model of the memorial site's behaviour

The LiveLikeRichard site is a single scrolling page of hourly sections.
Behind the page, a 24-image sky time-lapse follows the section in view.
The page also has a full-page section navigator driven by keys, the
wheel and scrolling, a small melody player built on the Web Audio API,
and two Python scripts that produce the hourly sky images offline.

This project models the logic of those four pieces in Dafny and proves
what the code promises about it:

- `common.dfy` (module `Common`): an optional value and RGB colours.
  It also holds truncation toward zero (Python's `int()` on a float) and
  the two-digit, zero-padded hour names (`zfill(2)`, `padStart(2, '0')`,
  `{hour:02d}`), proved to read back to their hour. It also holds the
  image file name `images/sky/HH.jpg`, which the page loads and both
  generators write.
- `navigator.dfy` (module `Navigator`): the module globals
  `currentSection`, `isScrolling` and `scrollTimeout` of `js/main.js`.
  `Step` and `Run` form a pure event-driven specification of them.
  The class `FullPage` holds the same state in fields, keeps the sections
  in an array, and is proved against that specification.
  The 50 ms wheel timer and the 1000 ms lock-release timer are explicit
  events.
- `sky_timelapse.dfy` (module `SkyBackground`): the `SkyTimeLapse` class,
  with its 24 images and the one marked active, and its fallback
  gradient bands. It also holds the icon-opacity table and the hour-nav
  click that moves the `active` class.
- `melody_player.dfy` (module `MelodyPlayback`): the score, the beat and
  velocity arithmetic of `play`, and the four-point envelope of
  `playNote`. It also holds the play/stop toggle with its auto-stop
  timer, as the class `MelodyPlayer`.
- `sky_images.dfy` (module `SkyImages`): the hour tables of
  `generate_sky_images.py`. These are the palettes, sun and moon
  visibility and x-position, sun size and glow rings, moon drawing, star
  counts and lighting adjustment. It also models the 24-iteration
  generation loop.
- `restaurant_variants.dfy` (module `RestaurantVariants`): the tables of
  `generate_restaurant_variants.py`. These are the sky stops with their
  hour-13 fallback, the piecewise-linear sky colour and the lighting
  parameters. It also covers the glow decision, the vignette ring
  alphas, and the file names and 12-hour labels of `main`.

Decimal constants and interpolation are exact `real`s. Where the code
converts to an integer, the model applies `Trunc` explicitly.

Some behaviours of the code are easy to assume otherwise:

- `scrollToSection` re-locks and moves even when the target is the
  current section. It has no same-index no-op.
- The wheel handler keeps only the last event's `deltaY` and does not
  accumulate deltas. A `deltaY` of zero steps up.
- The keyboard handler does not check whether a text input has focus.
- The scripts have no darkness-overlay table, no hour caption labels
  and no image crossfade.

## Model

| member | source | states |
|---|---|---|
| `Common.Trunc` | generate_restaurant_variants.py:93-95 | `int()` on a float truncates toward zero: for x ≥ 0 the result n has n ≤ x < n + 1, and for x < 0 it has n − 1 < x ≤ n |
| `Common.TruncMonotone` | generate_restaurant_variants.py:172 | on non-negative reals, truncation preserves order |
| `Common.Decimal` | generate_restaurant_variants.py:279 | the decimal spelling of a number is a non-empty string of digits; it has one digit exactly below 10, and two digits for 10..99 |
| `Common.ZeroPad2` | generate_sky_images.py:277 | `zfill(2)` pads a short string to exactly two characters, leaves a longer one unchanged and keeps it all digits |
| `Common.ZeroPad2Pads` | generate_sky_images.py:277 | padding keeps the string itself as the tail of the result and puts only '0's in front of it |
| `Common.TwoDigit` | js/main.js:19 | the zero-padded hour name is all digits and exactly two characters for every hour below 100 |
| `Common.DecimalRoundTrip` | generate_sky_images.py:277 | reading the decimal spelling of n back as a number gives n |
| `Common.TwoDigitRoundTrip` | generate_sky_images.py:276-277 | reading a two-digit hour name back gives the hour |
| `Common.TwoDigitInjective` | generate_sky_images.py:322 | two hours with the same name are the same hour |
| `Common.SkyImagePathInjective` | js/main.js:19-21 | the file `images/sky/HH.jpg` that the page loads and both generators write is different for different hours, and its characters 11..12 are the hour's two-digit name, which reads back to the hour |
| `Navigator.LastContaining` | js/main.js:199-206 | the index kept by the overwriting `forEach`: a section whose half-open span [top, top+height) holds the point, with no later one holding it; None exactly when no section holds it |
| `Navigator.FirstContaining` | js/main.js:69-80 | the index `handleScroll`'s loop stops at: a section holding the point, with no earlier one holding it; None exactly when none does |
| `Navigator.FirstIsLastWhenDisjoint` | js/main.js:197-206 | when no point lies in two sections, both sweeps pick the same section |
| `Navigator.ScrollTo` | js/main.js:128-143 | an index below 0 or at/after the section count changes nothing; a valid index sets `currentSection` to it, sets the lock and schedules one more release timer; the pending wheel timer is untouched |
| `Navigator.OnKey` | js/main.js:167-191 | while locked a key changes nothing; otherwise it either changes nothing or locks on a section in range and schedules one release; the wheel timer is never touched |
| `Navigator.OnWheel` | js/main.js:146-156 | a wheel event never moves the section or the lock; unlocked, it replaces the pending wheel timer with one carrying its deltaY; locked, it changes nothing |
| `Navigator.OnWheelTimer` | js/main.js:153-163 | the fired wheel timer is no longer pending; with none pending nothing changes; with one pending, when the section current at that moment plus the step of its deltaY is in range the page moves there, locked, with one more release pending, and otherwise only the timer is cleared; it never looks at the lock |
| `Navigator.OnUnlockTimer` | js/main.js:139-142 | a fired release timer clears the lock and is no longer pending, leaving the section and the wheel timer alone |
| `Navigator.OnScroll` | js/main.js:194-207 | a scroll sync never touches the lock or timers, and either keeps the section or adopts one in range that holds the point |
| `Navigator.Step` | js/main.js:146-212 | one event schedules at most one release, and only a fired release timer removes one, exactly one |
| `Navigator.WheelDirection` | js/main.js:157 | the wheel step is +1 exactly when deltaY > 0 and −1 exactly when deltaY ≤ 0 |
| `Navigator.StepKeepsInv` | js/main.js:123-212 | every event keeps the invariant: the section index stays in range (or 0 without sections), and while locked a release timer is pending |
| `Navigator.RunKeepsInv` | js/main.js:210-215 | any sequence of events from an invariant state keeps the invariant |
| `Navigator.OnlyTimerUnlocks` | js/main.js:140-142 | the lock is cleared only by a lock-release timer firing |
| `Navigator.LockedIgnoresInput` | js/main.js:146-195 | while locked, key presses, wheel events and scroll syncing leave the whole state unchanged |
| `Navigator.ScrollToSameIndexStillLocks` | js/main.js:128-132 | scrolling to the current section still locks and schedules a release |
| `Navigator.KeyMap` | js/main.js:167-191 | ArrowDown/PageDown/Space step +1 and ArrowUp/PageUp step −1, in both cases only inside the range with no wrap-around; Home goes to 0; End goes to the last section; any other key changes nothing |
| `Navigator.WheelBurst` | js/main.js:146-156 | on an unlocked navigator, a burst of wheel events leaves exactly one pending wheel timer, carrying the last event's deltaY, and changes nothing else |
| `Navigator.WheelBurstThenTimer` | js/main.js:153-163 | a burst followed by its timer moves at most one section, in the last event's direction, from the section current when the timer fires, and only if the target is in range |
| `Navigator.WheelTimerIgnoresLock` | js/main.js:146-191 | a wheel event, then ArrowDown inside the 50 ms window, then the wheel timer, then the first release: the page has moved two sections and is unlocked while a second release is still pending |
| `Navigator.ScrollBeforeWheelTimer` | js/main.js:153-163 | when a scroll sync lands between a wheel event and its timer, the timer steps from the section the sync adopted: into range it moves there and locks with one more release, otherwise the page stays on that section unlocked; the timer is no longer pending |
| `Navigator.RunAppend` | js/main.js:210-212 | handling a sequence of events then another is handling their concatenation |
| `Navigator.ScrollSync` | js/main.js:194-207 | an unlocked scroll sync adopts the last section holding the viewport midpoint, keeps the old section if none holds it, and leaves the lock and timers alone |
| `Navigator.FullPage.constructor` | js/main.js:123-126 | the globals start at section 0, unlocked, with no timers, and are then synced once to the scroll position |
| `Navigator.FullPage.ScrollToSection` | js/main.js:128-143 | the fields change exactly as `ScrollTo` says, and the invariant is kept |
| `Navigator.FullPage.HandleWheel` | js/main.js:146-156 | locked: nothing changes; otherwise the pending wheel timer is replaced by one for this event |
| `Navigator.FullPage.FireWheelTimer` | js/main.js:156-163 | the fired wheel timer steps from the current section in its direction when the target is in range, then is no longer pending |
| `Navigator.FullPage.FireUnlockTimer` | js/main.js:140-142 | a fired release timer clears the lock and is no longer pending |
| `Navigator.FullPage.HandleKeydown` | js/main.js:167-191 | the fields change exactly as the key map says |
| `Navigator.FullPage.UpdateCurrentSection` | js/main.js:194-207 | the loop leaves `currentSection` at the last section holding the midpoint (unchanged if none), and does nothing while locked |
| `Navigator.FullPage.Handle` | js/main.js:210-212 | each listener or timer event changes the fields exactly as `Step` says |
| `SkyBackground.GradientBand` | js/main.js:96-106 | the fallback gradient partitions the hours: dawn exactly on [5,7), day on [7,17), dusk on [17,19), night otherwise |
| `SkyBackground.GradientDeterminesBand` | js/main.js:96-106 | two hours get the same gradient string exactly when they fall in the same band |
| `SkyBackground.IconOpacity` | js/main.js:409-490 | the opacity is defined exactly for hours 0..23, lies in [0.2, 1.0], and is 1.0 exactly at 0, 12 and 13 |
| `SkyBackground.IconOpacityShape` | js/main.js:412-490 | opacity rises from 6 to 12, is level from 12 to 13, falls from 13 to 18, rises over 19→23→0, and falls from 0 to 5 |
| `SkyBackground.CreateImages` | js/main.js:17-24 | the loop of `init` creates one image per hour, in hour order, each with its `images/sky/HH.jpg` source and `Sky at HH:00` alt text, inactive and without a fallback background |
| `SkyBackground.ScrollTargetIsFirstHit` | js/main.js:65-82 | the hour `handleScroll` switches to is a valid hour, and a change comes from the first section holding the midpoint |
| `SkyBackground.SkyTimeLapse.constructor` | js/main.js:6-46 | init creates 24 images in hour order with their src and alt and activates image 0; the initial `handleScroll` then selects the hour |
| `SkyBackground.SkyTimeLapse.TransitionToHour` | js/main.js:84-93 | a valid hour different from the current one becomes current and only its image is active; any other argument changes nothing |
| `SkyBackground.SkyTimeLapse.HandleScroll` | js/main.js:65-82 | the current hour becomes that of the first section holding the viewport midpoint, when it is a valid, different hour; exactly one image stays active |
| `SkyBackground.SkyTimeLapse.OnImageError` | js/main.js:26-29 | the failed image, and only it, gets its hour's gradient as background; its source, alt text, hour and active flag, the other images, the current hour, the sections and the initialised flag are unchanged |
| `SkyBackground.AtMostOneActive` | js/main.js:84-93 | in every valid time-lapse state at most one image is active |
| `SkyBackground.ClickHourItem` | js/main.js:272-290 | when the target section exists, the clicked item alone becomes active; otherwise no item changes |
| `MelodyPlayback.AdjacentOrderSuffices` | js/audio-player.js:17-45 | if each note starts no earlier than the one before it, the whole part is in start order |
| `MelodyPlayback.ScoreShape` | js/audio-player.js:17-45 | every melody and bass note starts at or after beat 0, lasts at least half a beat and ends by beat 13; both parts are in start order and use velocities 70..100 |
| `MelodyPlayback.PlayNote` | js/audio-player.js:105-157 | the oscillator runs from the start time for the note's duration; the envelope is 0 at the start, velocity×0.3 at start + 0.05 s, velocity×0.25 at start + duration − 0.1 s and 0 at the stop; its four times strictly increase when the duration exceeds 0.15 s |
| `MelodyPlayback.NoteGain` | js/audio-player.js:84-94 | the gain is exactly velocity/127 for the melody and exactly 0.6 × velocity/127 for the bass, strictly inside (0, 1) for velocities 1..126 |
| `MelodyPlayback.Schedule` | js/audio-player.js:79-96 | a note of the score sounds its own pitch from startTime + time × 0.6 s for duration × 0.6 s, with an envelope peak of 0.3 × its gain |
| `MelodyPlayback.ScheduledWithinAutoStop` | js/audio-player.js:79-102 | a note of the score's shape sounds within [startTime, startTime + 13 beats × 0.6 s] with a strictly increasing envelope |
| `MelodyPlayback.ScheduleAllProperties` | js/audio-player.js:78-96 | scheduling keeps the score's start order and, for a fitting score, ends every voice before the auto-stop time |
| `MelodyPlayback.ScheduleNotes` | js/audio-player.js:78-96 | the `forEach` loop schedules each note at startTime + time × 0.6 s for duration × 0.6 s, in score order, within the auto-stop time |
| `MelodyPlayback.ScoreGainsInUnitInterval` | js/audio-player.js:84-94 | every gain the score produces lies strictly between 0 and 1 |
| `MelodyPlayback.ViewFor` | js/audio-player.js:172-182 | exactly one icon is shown; the pause icon is shown and the label is 'Pause music' exactly while playing; the label is 'Play music' exactly while stopped |
| `MelodyPlayback.Stopped` | js/audio-player.js:159-170 | after stop the player is not playing, no auto-stop timer is pending and the button shows play; the context and scheduled voices are kept |
| `MelodyPlayback.Played` | js/audio-player.js:63-103 | after play a context exists, the player is playing with one auto-stop timer pending and the button shows pause; the melody then the bass are appended to what is scheduled |
| `MelodyPlayback.Clicked` | js/audio-player.js:54-60 | a click flips playing, leaves the auto-stop timer pending exactly while playing, shows the button for the new state and never unschedules a voice |
| `MelodyPlayback.ClickTwiceStops` | js/audio-player.js:54-60 | two clicks on a stopped player play once and stop: a context exists, nothing is playing or pending, the button shows play, and the melody then the bass of the first click stay scheduled |
| `MelodyPlayback.StopIdempotent` | js/audio-player.js:159-166 | stopping twice is the same as stopping once |
| `MelodyPlayback.PlayEndsBeforeAutoStop` | js/audio-player.js:98-102 | every voice one play schedules starts no earlier than play and has ended when the 13-beat auto-stop fires |
| `MelodyPlayback.MelodyPlayer.constructor` | js/audio-player.js:7-13 | a new player has no context, is not playing and has no timer |
| `MelodyPlayback.MelodyPlayer.UpdateButtonState` | js/audio-player.js:172-182 | only the button view changes, to the view for the current playing flag |
| `MelodyPlayback.MelodyPlayer.Play` | js/audio-player.js:63-103 | the fields change exactly as `Played` says |
| `MelodyPlayback.MelodyPlayer.Stop` | js/audio-player.js:159-170 | the fields change exactly as `Stopped` says |
| `MelodyPlayback.MelodyPlayer.Click` | js/audio-player.js:54-60 | a click stops a playing player and plays a stopped one |
| `MelodyPlayback.MelodyPlayer.FireAutoStop` | js/audio-player.js:100-102 | the auto-stop timer stops the player |
| `SkyImages.SkyColors` | generate_sky_images.py:17-90 | every hour gets three colours with all channels in 0..255 |
| `SkyImages.SharedPalettes` | generate_sky_images.py:52-58 | hours 10 and 11 share one palette, 12, 13 and 14 share another, the two differ, and hours outside 0..23 read as hour 23 |
| `SkyImages.SunX` | generate_sky_images.py:92-106 | the sun is absent exactly when hour < 6 or hour > 19; otherwise x = 0.15 + 0.7 × (hour − 6)/13, which lies in [0.15, 0.85] |
| `SkyImages.SunXIncreasing` | generate_sky_images.py:99-103 | the sun's x-position strictly increases through the day |
| `SkyImages.MoonHour` | generate_sky_images.py:114-118 | for the hours the moon is up (19..23 and 0..5), the moon hour is in 0..10 and counts the hours since 19:00 |
| `SkyImages.MoonX` | generate_sky_images.py:108-126 | the moon is absent exactly for 6..18; otherwise x = 0.15 + 0.7 × moon_hour/11 |
| `SkyImages.MoonHourConsecutive` | generate_sky_images.py:115-120 | moon hours run 0..10 over 19..23 then 0..5, with no jump at midnight, so x stays in [0.15, 0.15 + 0.7 × 10/11] |
| `SkyImages.SunOrMoon` | generate_sky_images.py:94-110 | every hour of the day draws the sun or the moon, and both exactly at hour 19 |
| `SkyImages.SunStyle` | generate_sky_images.py:133-149 | the sun radius is 40 at 6, 45 at 18, 50 for 12..15 and 45 otherwise |
| `SkyImages.DrawSun` | generate_sky_images.py:128-163 | four glow rings of radius +80, +60, +40, +20 and then the disc, all around one centre, with strictly decreasing sizes |
| `SkyImages.DrawMoon` | generate_sky_images.py:165-193 | three glow rings of radius 80, 65 and 50, the radius-35 disc, then the craters (x−10, y−8, x−2, y), (x+5, y−12, x+12, y−5) and (x−5, y+5, x+2, y+12) in (210, 210, 220), each strictly inside the disc |
| `SkyImages.StarPlan` | generate_sky_images.py:195-206 | no stars exactly for 6..18; otherwise a byte opacity and at most 200 stars |
| `SkyImages.StarPlanTable` | generate_sky_images.py:197-206 | 200 stars at 255 for 0..4 and 21..23 and 80 at 100 for 5, 19 and 20, whatever count is passed in |
| `SkyImages.LightingPeriod` | generate_sky_images.py:220-262 | the branch taken is characterised by its own guard alone: night exactly for 0..4, one branch each for 5, 6, 7, 16, 17, 18 and 19, day exactly for 8..15, and the final else exactly outside 0..19 |
| `SkyImages.LightingAdjustment` | generate_sky_images.py:220-262 | brightness lies in [0.15, 1.0], overlay opacity in [0.1, 0.7] and the tint is a byte colour; hours 8..15 get (1.0, (255, 255, 250), 0.1) |
| `SkyImages.OverlayAlpha` | generate_sky_images.py:290 | the overlay alpha `int(255 × opacity)` lies in 25..178 for every tabled opacity |
| `SkyImages.Elements` | generate_sky_images.py:324-331 | the printed list names the sun exactly when it is up, the moon exactly when it is up, 'Stars' exactly when neither is, and has one or two entries |
| `SkyImages.HourImageFor` | generate_sky_images.py:276-331 | one pass's record has stars exactly when the moon is up, and an overlay alpha in 25..178 |
| `SkyImages.HourImageShape` | generate_sky_images.py:325-331 | each hour's element list names the sun, the moon or both, and never falls back to 'Stars' |
| `SkyImages.AllHourImages` | generate_sky_images.py:276-333 | across the day the records have distinct paths, overlay alphas in range and no 'Stars' entry |
| `SkyImages.GenerateHour` | generate_sky_images.py:283-331 | one pass of the loop builds exactly that hour's record (path, overlay alpha, star plan, sun and moon positions, element list); for hours 0..23 the element list names one or two bodies and never 'Stars' |
| `SkyImages.GenerateSkyImages` | generate_sky_images.py:276-333 | the loop yields one record per hour 0..23, in order, with distinct output paths, alphas in 25..178 and no 'Stars' entry |
| `RestaurantVariants.StopsFor` | generate_restaurant_variants.py:25-88 | the stops are byte colours, and an hour missing from the table gets the hour-13 stops |
| `RestaurantVariants.Lerp` | generate_restaurant_variants.py:93-100 | `int(a + (b − a) × t)` is a at t = 0 and b at t = 1 |
| `RestaurantVariants.LerpBetween` | generate_restaurant_variants.py:93-100 | an interpolated channel lies between its two byte stops and equals the first stop at t = 0 |
| `RestaurantVariants.MixBetween` | generate_restaurant_variants.py:91-100 | an interpolated colour lies channel by channel between its two stops and is a byte colour |
| `RestaurantVariants.SkyColorForHour` | generate_restaurant_variants.py:88-102 | position 0 gives exactly the hour's top stop and 0.35 exactly its horizon stop |
| `RestaurantVariants.SkyColorBetweenStops` | generate_restaurant_variants.py:91-100 | for a position in [0, 1), the colour lies between top and horizon below 0.35 and between horizon and bottom from 0.35; position 0 gives the top colour exactly and 0.35 the horizon colour exactly |
| `RestaurantVariants.SkyGradient` | generate_restaurant_variants.py:125-135 | one byte colour per row y, the sky colour at y/height |
| `RestaurantVariants.LightingFor` | generate_restaurant_variants.py:104-123 | brightness lies in [0.35, 1.1] and glow in [0, 0.75]; an hour missing from the table gets the hour-13 parameters |
| `RestaurantVariants.TablesCoverGeneratedHours` | generate_restaurant_variants.py:255-257 | both tables are keyed by exactly the twelve hours `main` generates, so the fallback is never used there |
| `RestaurantVariants.GlowHours` | generate_restaurant_variants.py:230-233 | among the generated hours, the glow step runs exactly for 5, 17, 19, 21, 23, 1 and 3, and it never runs for 7..15 |
| `RestaurantVariants.VignetteStrength` | generate_restaurant_variants.py:247 | full brightness gives strength 0.2; a brightness in [0, 1] gives a strength in [0.2, 0.4] |
| `RestaurantVariants.RingAlpha` | generate_restaurant_variants.py:172 | the outermost ring, and every ring at strength 0, is fully opaque (255) |
| `RestaurantVariants.RingAlphaNonIncreasing` | generate_restaurant_variants.py:170-175 | for a strength in [0, 1] the ring alpha is 255 at the edge and never increases inward |
| `RestaurantVariants.RingAlphaPositive` | generate_restaurant_variants.py:247 | for every brightness in the table the vignette strength is in [0.18, 0.33] and every ring alpha is at least 170 |
| `RestaurantVariants.VignetteRings` | generate_restaurant_variants.py:164-176 | min(width, height) // 3 rectangles, ring i inset by i with alpha `int(255 × (1 − i/edge × strength))`, alphas non-increasing |
| `RestaurantVariants.TimeLabel` | generate_restaurant_variants.py:275 | the label is AM exactly before noon and PM exactly from noon |
| `RestaurantVariants.DisplayHour` | generate_restaurant_variants.py:276-278 | for an hour of the day the display hour is in 1..12 and agrees with the hour modulo 12 |
| `RestaurantVariants.TwelveHourClock` | generate_restaurant_variants.py:274-279 | the display hour and the label read back to the hour, so two hours of the day never share a listing time |
| `RestaurantVariants.GenerateVariants` | generate_restaurant_variants.py:266-268 | the first loop yields one variant per hour of its list, in order, each built from its own hour; for distinct hours below 100 the output files are distinct |
| `RestaurantVariants.GeneratedListing` | generate_restaurant_variants.py:273-279 | the second loop yields one listing line per hour of its list, in order, giving its file name, display hour and AM/PM |
| `RestaurantVariants.GeneratorMain` | generate_restaurant_variants.py:255-279 | `main` makes twelve variants and twelve listing lines for its hour list, in order, writing twelve distinct files |
| `RestaurantVariants.GeneratedVariantsDiffer` | generate_restaurant_variants.py:266-268 | every generated variant is made with its own hour's lighting table entry, never the fallback |
| `RestaurantVariants.HoursDistinct` | generate_restaurant_variants.py:257 | the twelve generated hours are distinct hours of the day |

## Left out

- Browser plumbing in `js/main.js` is not modelled. This covers
  `querySelector`/`classList` wiring, the `scrollIntoView`/`scrollTo`
  animations, and `requestAnimationFrame` throttling. It also covers
  IntersectionObserver registration, the hour-nav centring arithmetic,
  lazy loading and console output. Timers are explicit events instead.
- `updateActiveHour` and the scroll-driven icon update are not
  modelled. The anchor smooth-scroll handler and the navbar shadow are
  not modelled either.
- Section geometry (`offsetTop`, `offsetHeight`) and `data-hour` are
  inputs, with hours already parsed as integers. `parseInt` returning
  NaN is not modelled.
- The Web Audio graph is not modelled: oscillators, gain nodes and the
  convolver. The MIDI-to-frequency `Math.pow` and the random reverb
  impulse are left out as floating point and randomness. The model
  keeps what `playNote` schedules: start, stop and envelope points.
- The `await resume()` gap in `play` is not modelled, since re-entry
  there is a concurrency matter. `Play` starts where the context is
  running, and `currentTime` is its parameter.
- The button's initial markup is a constructor parameter of
  `MelodyPlayer`, not read from the page.
- `generate_melody.py` is not part of this model. It only feeds the
  same score to a MIDI library.
- The sine-based vertical arc positions of the sun and moon are left
  out as floating point. The seeded random star positions are left out
  as randomness.
- PIL processing is not modelled: brightness, contrast and colour
  enhancers, blur, blends, composites, the per-pixel HSV loop, the
  ambient-glow image and JPEG saving. The model keeps the parameters
  chosen for it and the rectangle and row loops.
- Printing is output only. The restaurant listing is returned as lines.
- The comment "~13 seconds" next to the auto-stop delay in
  `js/audio-player.js` is misleading. The delay is 13 beats, 7.8 s, and
  the model uses beats.
- The comment "0-5 for 19-23" in `get_moon_position` is also off: those
  hours give moon hours 0..4.
- A wheel timer does not look at the lock. If a key press locks the
  page inside the 50 ms window, the timer moves a second section and
  schedules a second release. The model counts pending releases, and
  `WheelTimerIgnoresLock` states that the first release unlocks the page
  while the second is pending. The smooth-scroll animation is not
  modelled. The first release fires at most 50 ms before the second,
  so at least about 950 ms into the second scroll. Whether that scroll
  is still running then depends on the browser's smooth-scroll
  duration, which the code does not fix.
- `GenerateSkyImages`: `generate_sky_images.py` exits before the loop
  when the background image is missing. The model always yields the 24
  records, because file access is not modelled.
- `FullPage`: the navigator takes the section geometry once and keeps it
  for its lifetime. `updateCurrentSection` re-reads `offsetTop` and
  `offsetHeight` on every call (js/main.js:200-201), so layout changes
  between events are not modelled.
- `Lerp`, `RingAlpha` and `OverlayAlpha` truncate an exact real. Python
  truncates a double, and at an integral boundary the two can differ by
  one.
- `TimeBasedGradient` has no contract of its own; its strings are
  characterised through `GradientBand` and `GradientDeterminesBand`.
- `updateIconOpacity` skips an item without an icon and applies the
  chosen opacity with a CSS transition. Only the opacity chain is
  modelled, as `IconOpacity`.
