/** The mouse-wheel volume control: each wheel notch moves the volume by a
    fixed step, and the result is clamped to the percentage range. */
module Volume {

  const MinVolume := 0
  const MaxVolume := 100
  const WheelStep := 5

  function Max(a: int, b: int): int {
    if a >= b then a else b
  }

  function Min(a: int, b: int): int {
    if a <= b then a else b
  }

  /** The change one wheel notch asks for: scrolling down (a positive
      `deltaY`) lowers the volume, scrolling up raises it. */
  function WheelDelta(deltaY: real): (d: int)
    ensures d == -WheelStep || d == WheelStep
    ensures d < 0 <==> deltaY > 0.0
  {
    if deltaY > 0.0 then -WheelStep else WheelStep
  }

  /** The volume after one wheel notch, clamped into [0, 100]. */
  function WheelVolume(v: int, deltaY: real): (nv: int)
    ensures MinVolume <= nv <= MaxVolume
    ensures MinVolume <= v + WheelDelta(deltaY) <= MaxVolume ==> nv == v + WheelDelta(deltaY)
    ensures v + WheelDelta(deltaY) < MinVolume ==> nv == MinVolume
    ensures v + WheelDelta(deltaY) > MaxVolume ==> nv == MaxVolume
    ensures MinVolume <= v <= MaxVolume ==> -WheelStep <= nv - v <= WheelStep
    ensures MinVolume <= v <= MaxVolume && deltaY > 0.0 ==> nv <= v
    ensures MinVolume <= v <= MaxVolume && deltaY <= 0.0 ==> nv >= v
  {
    Max(MinVolume, Min(MaxVolume, v + WheelDelta(deltaY)))
  }

  /** Away from the ends of the range, a notch down undoes a notch up and
      a notch up undoes a notch down. */
  lemma WheelUpDownInverse(v: int, down: real, up: real)
    requires down > 0.0 && up <= 0.0
    ensures MinVolume <= v <= MaxVolume - WheelStep ==> WheelVolume(WheelVolume(v, up), down) == v
    ensures MinVolume + WheelStep <= v <= MaxVolume ==> WheelVolume(WheelVolume(v, down), up) == v
  {
  }

  /** At the ends of the range a further notch outward changes nothing. */
  lemma WheelSaturates(down: real, up: real)
    requires down > 0.0 && up <= 0.0
    ensures WheelVolume(MinVolume, down) == MinVolume
    ensures WheelVolume(MaxVolume, up) == MaxVolume
  {
  }
}
