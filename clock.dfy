/**
 * The clock overlay: the arithmetic that turns the local time into hand
 * angles, the swing-in rule that animates the hands from the angles stored
 * at construction, the dial geometry, and the three resource slots
 * (`brush`, `clock`, `shadow`) that its lifecycle methods fill and clear.
 *
 * Angles and sizes are reals (no floating-point rounding); the swing value
 * and the local time are inputs.
 */
module Clock {
  import opened Win32

  /** The fields of `SYSTEMTIME` the clock reads. */
  datatype LocalTime = LocalTime(hour: u16, minute: u16, second: u16, milliseconds: u16)

  /** Hand angles in degrees, clockwise from twelve. */
  datatype Angles = Angles(second: real, minute: real, hour: real)

  predicate OnDial(a: Angles) {
    0.0 <= a.second < 360.0 && 0.0 <= a.minute < 360.0 && 0.0 <= a.hour < 360.0
  }

  /**
   * `Angles::now`: each hand advances continuously, so it lies within the
   * sector of its own unit (6 degrees per second and per minute, 30 per
   * hour on a 12-hour dial), and all three lie on the dial.
   */
  function AnglesNow(t: LocalTime): (a: Angles)
    ensures 0.0 <= a.second && 0.0 <= a.minute && 0.0 <= a.hour
    ensures t.second < 60 && t.milliseconds < 1000 ==>
              t.second as real * 6.0 <= a.second < t.second as real * 6.0 + 6.0
    ensures t.second < 60 && t.milliseconds < 1000 && t.minute < 60 ==>
              t.minute as real * 6.0 <= a.minute < t.minute as real * 6.0 + 6.0
    ensures t.second < 60 && t.milliseconds < 1000 && t.minute < 60 ==>
              (t.hour % 12) as real * 30.0 <= a.hour < (t.hour % 12) as real * 30.0 + 30.0
    ensures t.second < 60 && t.milliseconds < 1000 && t.minute < 60 ==> OnDial(a)
  {
    var second := (t.second as real + t.milliseconds as real / 1000.0) * 6.0;
    var minute := t.minute as real * 6.0 + second / 60.0;
    var hour := (t.hour % 12) as real * 30.0 + minute / 12.0;
    Angles(second, minute, hour)
  }

  /**
   * The wrap step of the swing-in: an angle smaller than the stored one is
   * moved one turn forward, so that it is the representative of the same
   * direction in the turn that starts at the stored angle.
   */
  function Unwrap(stored: real, now: real): (u: real)
    ensures u == now || u == now + 360.0
    ensures 0.0 <= stored < 360.0 && 0.0 <= now < 360.0 ==> stored <= u < stored + 360.0
  {
    if stored > now then now + 360.0 else now
  }

  /**
   * The angles `draw_clock` draws: the current angles as they are once the
   * swing has reached 1; before that, each unwrapped against the stored
   * angle and scaled by the swing.
   */
  function SwingIn(stored: Angles, now: Angles, swing: real): (r: Angles)
    ensures swing >= 1.0 ==> r == now
    ensures swing < 1.0 ==>
              && r.second == Scaled(Unwrap(stored.second, now.second), swing)
              && r.minute == Scaled(Unwrap(stored.minute, now.minute), swing)
              && r.hour == Scaled(Unwrap(stored.hour, now.hour), swing)
  {
    if swing < 1.0 then
      Angles(Scaled(Unwrap(stored.second, now.second), swing),
             Scaled(Unwrap(stored.minute, now.minute), swing),
             Scaled(Unwrap(stored.hour, now.hour), swing))
    else now
  }

  /** An angle multiplied by the swing. */
  function Scaled(angle: real, swing: real): real {
    angle * swing
  }

  lemma ScaleMonotone(k: real, x: real, y: real)
    requires 0.0 <= k && x <= y
    ensures k * x <= k * y && x * k <= y * k
  {
    assert k * y - k * x == k * (y - x);
  }

  /**
   * The swing-in starts from twelve o'clock: at swing 0 every hand is at 0,
   * whatever the stored and the current angles.
   */
  lemma SwingStartsAtTwelve(stored: Angles, now: Angles)
    ensures SwingIn(stored, now, 0.0) == Angles(0.0, 0.0, 0.0)
  {
  }

  /** For a fixed time, a larger swing below 1 never turns a hand backwards. */
  lemma SwingInMonotone(stored: Angles, now: Angles, s1: real, s2: real)
    requires OnDial(now) && 0.0 <= s1 <= s2 < 1.0
    ensures var a, b := SwingIn(stored, now, s1), SwingIn(stored, now, s2);
            a.second <= b.second && a.minute <= b.minute && a.hour <= b.hour
  {
    ScaleMonotone(Unwrap(stored.second, now.second), s1, s2);
    ScaleMonotone(Unwrap(stored.minute, now.minute), s1, s2);
    ScaleMonotone(Unwrap(stored.hour, now.hour), s1, s2);
  }

  /** `min(w, h).max(200) / 2 - 50`: never below 50, and fits the smaller side from 200 on. */
  function Radius(width: real, height: real): (r: real)
    ensures r >= 50.0
    ensures width >= 200.0 && height >= 200.0 ==> r + 50.0 <= width / 2.0 && r + 50.0 <= height / 2.0
    ensures width >= 200.0 && height >= 200.0 ==> r + 50.0 == width / 2.0 || r + 50.0 == height / 2.0
  {
    var smaller := if width < height then width else height;
    var clamped := if smaller > 200.0 then smaller else 200.0;
    clamped / 2.0 - 50.0
  }

  datatype SizeF = SizeF(width: real, height: real)

  /** A line from the dial's centre at an angle. */
  datatype Hand = Hand(angle: real, length: real, width: real)

  /** What `draw_clock` draws: the dial's rim and the three hands. */
  datatype Face = Face(radius: real, rimWidth: real, second: Hand, minute: Hand, hour: Hand)

  /**
   * The dial drawn for a target size and hand angles: the hour hand is the
   * shortest and the thickest, the second hand the thinnest, and every hand
   * stays inside the rim.
   */
  function FaceFor(size: SizeF, a: Angles): (f: Face)
    ensures f.radius == Radius(size.width, size.height)
    ensures f.second.angle == a.second && f.minute.angle == a.minute && f.hour.angle == a.hour
    ensures 0.0 < f.hour.length < f.minute.length == f.second.length < f.radius
    ensures 0.0 < f.second.width < f.minute.width < f.hour.width
    ensures 0.0 < f.rimWidth
  {
    var radius := Radius(size.width, size.height);
    Face(radius, radius / 20.0,
         Hand(a.second, radius * 0.75, radius / 25.0),
         Hand(a.minute, radius * 0.75, radius / 15.0),
         Hand(a.hour, radius * 0.5, radius / 10.0))
  }

  /**
   * `f32 as u32`: truncation toward zero, saturating at both ends.
   */
  function PixelExtent(x: real): (px: u32)
    ensures x <= 0.0 ==> px == 0
    ensures 0.0 <= x < 4294967295.0 ==> px as real <= x < px as real + 1.0
    ensures x >= 4294967295.0 ==> px == 0xFFFF_FFFF
  {
    if x <= 0.0 then 0
    else if x >= 4294967295.0 then 0xFFFF_FFFF
    else x.Floor
  }

  /** `ID2D1Bitmap1`: its size in pixels and its dpi. */
  datatype Bitmap = Bitmap(width: u32, height: u32, dpi: real)

  /** `ID2D1Effect` (the shadow effect) with its input bitmap. */
  datatype ShadowEffect = ShadowEffect(input: Bitmap)

  /** `ID2D1SolidColorBrush`: colour and opacity. */
  datatype Brush = Brush(r: real, g: real, b: real, a: real, opacity: real)

  /** The one brush `create_brush` makes. */
  const HandBrush: Brush := Brush(0.92, 0.38, 0.208, 0.6, 0.8)

  /**
   * `create_clock`: an offscreen bitmap covering the target at the
   * overlay's dpi, its pixel size being the target's size in DIPs scaled by
   * dpi / 96 and truncated.
   */
  function ClockBitmap(size: SizeF, dpi: real): (b: Bitmap)
    ensures b.dpi == dpi
    ensures 0.0 <= size.width * dpi / 96.0 < 4294967295.0 ==>
              b.width as real <= size.width * dpi / 96.0 < b.width as real + 1.0
    ensures 0.0 <= size.height * dpi / 96.0 < 4294967295.0 ==>
              b.height as real <= size.height * dpi / 96.0 < b.height as real + 1.0
  {
    Bitmap(PixelExtent(size.width * dpi / 96.0), PixelExtent(size.height * dpi / 96.0), dpi)
  }

  /** How a draw ends. */
  datatype DrawOutcome = Drawn(face: Face) | Failed(error: Error) | Panicked

  /** What the world answers during one `draw`. */
  datatype ClockFrame = ClockFrame(
    update: Status,          // manager.Update(get_time(..))
    previous: Status,        // target.GetTarget()
    size: SizeF,             // target.GetSize() while drawing into the clock bitmap
    swing: Result<real>,     // variable.GetValue()
    now: LocalTime,          // GetLocalTime()
    shadowOutput: Status)    // shadow.GetOutput()

  class ClockOverlay {
    /** The angles at construction; nothing assigns them afterwards. */
    const angles: Angles
    const dpi: real
    var clock: Option<Bitmap>
    var shadow: Option<ShadowEffect>
    var brush: Option<Brush>

    /** The shadow effect always reads the current clock bitmap. */
    ghost predicate Valid()
      reads this
    {
      shadow.Some? ==> clock == Some(shadow.value.input)
    }

    constructor Init(angles: Angles, dpi: real)
      ensures this.angles == angles && this.dpi == dpi
      ensures clock.None? && shadow.None? && brush.None? && Valid()
    {
      this.angles := angles;
      this.dpi := dpi;
      clock, shadow, brush := None, None, None;
    }

    /**
     * `new((), factory)`: `setup` is the first failure among the stroke
     * style, the animation manager, the transition, the performance
     * frequency and the scheduled animation variable.
     */
    static method New(setup: Status, dpi: real, now: LocalTime) returns (r: Result<ClockOverlay>)
      ensures r.Ok? <==> setup.Ok?
      ensures r.Err? ==> r.error == setup.error
      ensures r.Ok? ==> fresh(r.value) && r.value.Valid()
      ensures r.Ok? ==> r.value.angles == AnglesNow(now) && r.value.dpi == dpi
      ensures r.Ok? ==> r.value.clock.None? && r.value.shadow.None? && r.value.brush.None?
    {
      if setup.Err? {
        return Err(setup.error);
      }
      var overlay := new ClockOverlay.Init(AnglesNow(now), dpi);
      return Ok(overlay);
    }

    /** `create_resources`: never fails; the brush slot holds the brush or, if it failed, nothing. */
    method CreateResources(brushOutcome: Status) returns (r: Status)
      modifies this
      ensures r == Ok(())
      ensures brush == (if brushOutcome.Ok? then Some(HandBrush) else None)
      ensures clock == old(clock) && shadow == old(shadow)
    {
      brush := if brushOutcome.Ok? then Some(HandBrush) else None;
      r := Ok(());
    }

    /**
     * `create_sized_resources`: fails, changing nothing, when the bitmap
     * cannot be made; otherwise stores the bitmap and a shadow of it, or no
     * shadow if the effect failed.
     */
    method CreateSizedResources(size: SizeF, bitmapOutcome: Status, effectOutcome: Status)
      returns (r: Status)
      requires Valid()
      modifies this
      ensures Valid()
      ensures bitmapOutcome.Err? ==> r == bitmapOutcome && unchanged(this)
      ensures bitmapOutcome.Ok? ==> r == Ok(()) && clock == Some(ClockBitmap(size, dpi))
      ensures bitmapOutcome.Ok? ==>
                shadow == (if effectOutcome.Ok? then Some(ShadowEffect(ClockBitmap(size, dpi))) else None)
      ensures brush == old(brush)
    {
      if bitmapOutcome.Err? {
        return bitmapOutcome;
      }
      var bitmap := ClockBitmap(size, dpi);
      shadow := if effectOutcome.Ok? then Some(ShadowEffect(bitmap)) else None;
      clock := Some(bitmap);
      r := Ok(());
    }

    /** `release_resources`: clears the brush only. */
    method ReleaseResources() returns (r: Status)
      modifies this
      ensures r == Ok(()) && brush.None?
      ensures clock == old(clock) && shadow == old(shadow)
    {
      brush := None;
      r := Ok(());
    }

    /** `release_sized_resources`: clears the bitmap and the shadow only. */
    method ReleaseSizedResources() returns (r: Status)
      modifies this
      ensures r == Ok(()) && clock.None? && shadow.None? && Valid()
      ensures brush == old(brush)
    {
      clock := None;
      shadow := None;
      r := Ok(());
    }

    /**
     * `draw_clock`: unwraps the brush, then reads the swing; the hands it
     * draws are `SwingIn` of the stored and the current angles.
     */
    method DrawClock(size: SizeF, swing: Result<real>, now: LocalTime) returns (r: DrawOutcome)
      ensures brush.None? ==> r == Panicked
      ensures brush.Some? && swing.Err? ==> r == Failed(swing.error)
      ensures brush.Some? && swing.Ok? ==>
                r == Drawn(FaceFor(size, SwingIn(angles, AnglesNow(now), swing.value)))
    {
      if brush.None? {
        return Panicked;
      }
      if swing.Err? {
        return Failed(swing.error);
      }
      var a := AnglesNow(now);
      var second, minute, hour := a.second, a.minute, a.hour;
      var s := swing.value;
      if s < 1.0 {
        if angles.second > second {
          second := second + 360.0;
        }
        if angles.minute > minute {
          minute := minute + 360.0;
        }
        if angles.hour > hour {
          hour := hour + 360.0;
        }
        second := Scaled(second, s);
        minute := Scaled(minute, s);
        hour := Scaled(hour, s);
      }
      a := Angles(second, minute, hour);
      assert a == SwingIn(angles, AnglesNow(now), s);
      return Drawn(FaceFor(size, a));
    }

    /**
     * `draw`: unwraps the bitmap and the shadow, updates the animation,
     * draws the clock into the bitmap and composes shadow and bitmap.
     */
    method Draw(frame: ClockFrame) returns (r: DrawOutcome)
      ensures clock.None? || shadow.None? ==> r == Panicked
      ensures clock.Some? && shadow.Some? && frame.update.Err? ==> r == Failed(frame.update.error)
      ensures clock.Some? && shadow.Some? && frame.update.Ok? && frame.previous.Err? ==>
                r == Failed(frame.previous.error)
      ensures clock.Some? && shadow.Some? && frame.update.Ok? && frame.previous.Ok? ==>
                match r
                case Drawn(face) =>
                  brush.Some? && frame.swing.Ok? && frame.shadowOutput.Ok? &&
                  face == FaceFor(frame.size, SwingIn(angles, AnglesNow(frame.now), frame.swing.value))
                case Failed(e) =>
                  brush.Some? &&
                  ((frame.swing.Err? && e == frame.swing.error) ||
                   (frame.swing.Ok? && frame.shadowOutput.Err? && e == frame.shadowOutput.error))
                case Panicked => brush.None?
    {
      if clock.None? || shadow.None? {
        return Panicked;
      }
      if frame.update.Err? {
        return Failed(frame.update.error);
      }
      if frame.previous.Err? {
        return Failed(frame.previous.error);
      }
      var drawn := DrawClock(frame.size, frame.swing, frame.now);
      if !drawn.Drawn? {
        return drawn;
      }
      if frame.shadowOutput.Err? {
        return Failed(frame.shadowOutput.error);
      }
      return drawn;
    }
  }
}
