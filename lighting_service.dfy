/** The lamp controller: whole-state Apply with an automatic night override,
    an on/off toggle, and a periodic tick that animates the Pulse and
    ColorCycle effects, publishing a snapshot whenever the state changes. */
module Lighting {
  import opened Common
  import opened LightingModels

  /** The warm colour of the night override. */
  const NightColor: Color := Color(255, 255, 196, 140)

  // ------------------------------------------------------------ colours

  /** Convert.ToInt32 of a channel value already in [0, 255]. */
  function Channel(x: real): (c: byte)
    requires 0.0 <= x <= 255.0
    ensures c as int == RoundHalfEven(x)
  {
    RoundHalfEvenWithin(x, 0, 255);
    RoundHalfEven(x) as byte
  }

  /** The hue FromHsv works with: negative hues become 0, hues of 360 and more
      are reduced modulo 360. */
  function NormalHue(hue: real): (h: real)
    ensures 0.0 <= h < 360.0
    ensures 0.0 <= hue < 360.0 ==> h == hue
  {
    if hue < 0.0 then 0.0
    else if hue >= 360.0 then hue - 360.0 * (hue / 360.0).Floor as real
    else hue
  }

  /** Convert.ToInt32(Math.Floor(hue / 60)) % 6: the 60-degree sector of the hue. */
  function Sector(h: real): (hi: int)
    requires 0.0 <= h < 360.0
    ensures 0 <= hi < 6
  {
    (h / 60.0).Floor % 6
  }

  /** hue / 60 - Math.Floor(hue / 60): the position inside the sector. */
  function SectorFraction(h: real): (f: real)
    ensures 0.0 <= f < 1.0
  {
    h / 60.0 - (h / 60.0).Floor as real
  }

  /** FromHsv: the opaque colour with the given hue (degrees), saturation and value. */
  function FromHsv(hue: real, saturation: real, value: real): (c: Color)
    ensures c.a == 255
  {
    var h := NormalHue(hue);
    Levels(Sector(h), Scaled(255.0, ClampReal(value, 0.0, 1.0)), ClampReal(saturation, 0.0, 1.0), SectorFraction(h))
  }

  /** The colour of sector `hi` at value v (out of 255), saturation s and position f
      inside the sector: the levels vi, p, q and t of the HSV conversion. */
  function Levels(hi: int, v: real, s: real, f: real): (c: Color)
    requires 0.0 <= v <= 255.0 && 0.0 <= s <= 1.0 && 0.0 <= f < 1.0
    ensures c.a == 255
  {
    SectorColor(hi, Channel(v), Channel(Scaled(v, 1.0 - s)),
                Channel(Scaled(v, 1.0 - Scaled(s, f))), Channel(Scaled(v, 1.0 - Scaled(s, 1.0 - f))))
  }

  /** The `hi switch` of FromHsv: which channel gets which level in each sector. */
  function SectorColor(hi: int, vi: byte, p: byte, q: byte, t: byte): (c: Color)
    ensures c.a == 255
  {
    if hi == 0 then Color(255, vi, t, p)
    else if hi == 1 then Color(255, q, vi, p)
    else if hi == 2 then Color(255, p, vi, t)
    else if hi == 3 then Color(255, p, q, vi)
    else if hi == 4 then Color(255, t, p, vi)
    else Color(255, vi, p, q)
  }

  function MaxChannel(c: Color): int
  {
    MaxInt(c.r as int, MaxInt(c.g as int, c.b as int))
  }

  function MinChannel(c: Color): int
  {
    MinInt(c.r as int, MinInt(c.g as int, c.b as int))
  }

  /** In every sector the levels p <= q, t <= vi put vi on the brightest channel
      and p on the darkest. */
  lemma SectorColorExtremes(hi: int, vi: byte, p: byte, q: byte, t: byte)
    requires p <= q <= vi && p <= t <= vi
    ensures MaxChannel(SectorColor(hi, vi, p, q, t)) == vi as int
    ensures MinChannel(SectorColor(hi, vi, p, q, t)) == p as int
  {
  }

  /** The levels are ordered p <= q, t <= vi, so vi is the brightest channel and p the darkest. */
  lemma {:induction false} LevelsExtremes(hi: int, v: real, s: real, f: real)
    requires 0.0 <= v <= 255.0 && 0.0 <= s <= 1.0 && 0.0 <= f < 1.0
    ensures MaxChannel(Levels(hi, v, s, f)) == RoundHalfEven(v)
    ensures MinChannel(Levels(hi, v, s, f)) == RoundHalfEven(Scaled(v, 1.0 - s))
  {
    var p := Scaled(v, 1.0 - s);
    var q := Scaled(v, 1.0 - Scaled(s, f));
    var t := Scaled(v, 1.0 - Scaled(s, 1.0 - f));
    ScaledMonotone(v, 1.0 - s, 1.0 - Scaled(s, f));
    ScaledMonotone(v, 1.0 - s, 1.0 - Scaled(s, 1.0 - f));
    RoundHalfEvenMonotone(p, q);
    RoundHalfEvenMonotone(p, t);
    RoundHalfEvenMonotone(q, v);
    RoundHalfEvenMonotone(t, v);
    SectorColorExtremes(hi, Channel(v), Channel(p), Channel(q), Channel(t));
  }

  /** The brightest channel of FromHsv is the rounded 255 * value and the darkest
      is that scaled by (1 - saturation), for every hue: the result is a genuine
      HSV colour, so saturation 0 gives a grey. */
  lemma FromHsvExtremes(hue: real, saturation: real, value: real)
    ensures MaxChannel(FromHsv(hue, saturation, value))
         == RoundHalfEven(Scaled(255.0, ClampReal(value, 0.0, 1.0)))
    ensures MinChannel(FromHsv(hue, saturation, value))
         == RoundHalfEven(Scaled(Scaled(255.0, ClampReal(value, 0.0, 1.0)), 1.0 - ClampReal(saturation, 0.0, 1.0)))
  {
    var h := NormalHue(hue);
    LevelsExtremes(Sector(h), Scaled(255.0, ClampReal(value, 0.0, 1.0)), ClampReal(saturation, 0.0, 1.0), SectorFraction(h));
  }

  /** Full hue, saturation and value give pure red. */
  lemma FromHsvRed()
    ensures FromHsv(0.0, 1.0, 1.0) == Color(255, 255, 0, 0)
  {
    assert NormalHue(0.0) == 0.0 && Sector(0.0) == 0 && SectorFraction(0.0) == 0.0;
    assert Scaled(255.0, 1.0) == 255.0 && Scaled(255.0, 1.0 - 1.0) == 0.0;
    assert Scaled(1.0, 0.0) == 0.0 && Scaled(1.0, 1.0 - 0.0) == 1.0;
    assert Channel(255.0) == 255 && Channel(0.0) == 0;
  }

  // ---------------------------------------------------------- night mode

  /** 21:00 or later, or before 06:00 (time of day in hours). */
  predicate IsNight(timeOfDay: real)
  {
    timeOfDay >= 21.0 || timeOfDay < 6.0
  }

  /** ApplyNightSuggestionIfNeeded: at night Static and Reading become a dim warm NightLight. */
  function NightOverride(v: LightingView, timeOfDay: real): LightingView
  {
    if IsNight(timeOfDay) && (v.effect == Static || v.effect == Reading) then
      v.(effect := NightLight, color := NightColor, brightness := MinInt(v.brightness, 35))
    else v
  }

  /** The state Apply stores: the argument, overridden at night when AutoNight is set. */
  function AfterApply(v: LightingView, timeOfDay: real): LightingView
  {
    if v.autoNight then NightOverride(v, timeOfDay) else v
  }

  /** Without the override Apply stores the argument unchanged; brightness is not clamped. */
  lemma ApplyWithoutOverride(v: LightingView, timeOfDay: real)
    requires !v.autoNight || !IsNight(timeOfDay) || v.effect in {NightLight, Pulse, ColorCycle}
    ensures AfterApply(v, timeOfDay) == v
  {
  }

  /** With the override only effect, colour and brightness change, and brightness
      becomes min(b, 35). */
  lemma ApplyWithOverride(v: LightingView, timeOfDay: real)
    requires v.autoNight && IsNight(timeOfDay) && v.effect in {Static, Reading}
    ensures AfterApply(v, timeOfDay)
         == v.(effect := NightLight, color := NightColor, brightness := MinInt(v.brightness, 35))
    ensures AfterApply(v, timeOfDay).brightness <= 35
  {
  }

  /** Applying a state that Apply has already produced stores it unchanged. */
  lemma ApplyIdempotent(v: LightingView, timeOfDay: real)
    ensures AfterApply(AfterApply(v, timeOfDay), timeOfDay) == AfterApply(v, timeOfDay)
  {
  }

  /** On a time of day in [0, 24), night is exactly the complement of 06:00 to 21:00. */
  lemma NightHours(timeOfDay: real)
    requires 0.0 <= timeOfDay < 24.0
    ensures IsNight(timeOfDay) <==> !(6.0 <= timeOfDay < 21.0)
  {
  }

  // --------------------------------------------------------------- ticks

  /** The Pulse phase after one tick: 0.12 on, back to 0 once past 2 pi. */
  function NextPhase(phase: real): (r: real)
    ensures 0.0 <= phase ==> 0.0 <= r <= 2.0 * Pi
    ensures phase + 0.12 <= 2.0 * Pi ==> r == phase + 0.12
    ensures phase + 0.12 > 2.0 * Pi ==> r == 0.0
  {
    var p := phase + 0.12;
    if p > 2.0 * Pi then 0.0 else p
  }

  /** The Pulse amplitude, Math.Max(5, (int)(mid * 0.35)). */
  function Amplitude(mid: int): (amp: int)
    ensures amp >= 5
  {
    MaxInt(5, Trunc(mid as real * 0.35))
  }

  /** (int)(sin * amp): the swing a sine value in [-1, 1] gives, never more than the amplitude. */
  function Swing(s: real, amp: int): (d: int)
    requires -1.0 <= s <= 1.0 && amp >= 0
    ensures -amp <= d <= amp
  {
    var x := s * amp as real;
    assert -(amp as real) <= x <= amp as real by {
      if s >= 0.0 {
        assert x == Scaled(amp as real, s);
      } else {
        assert -x == Scaled(amp as real, -s);
      }
    }
    Trunc(x)
  }

  /** The pulsed brightness for the sine value `s` of the new phase. */
  function Pulsed(mid: int, s: real): (b: int)
    requires -1.0 <= s <= 1.0
    ensures 5 <= b <= 100
  {
    ClampInt(mid + Swing(s, Amplitude(mid)), 5, 100)
  }

  /** A pulse never moves a brightness within [5, 100] by more than the amplitude. */
  lemma PulsedNearMid(mid: int, s: real)
    requires 5 <= mid <= 100 && -1.0 <= s <= 1.0
    ensures AbsInt(Pulsed(mid, s) - mid) <= Amplitude(mid)
  {
  }

  /** The ColorCycle hue after one tick: one degree on, kept in [0, 360). */
  function NextHue(hue: real): (r: real)
    requires 0.0 <= hue < 360.0
    ensures 0.0 <= r < 360.0
    ensures hue < 359.0 ==> r == hue + 1.0
  {
    var h := hue + 1.0;
    if h >= 360.0 then h - 360.0 else h
  }

  /** The ColorCycle colour at a hue. */
  function CycleColor(hue: real): Color
  {
    FromHsv(hue, 0.55, 1.0)
  }

  /** The animated part of the service: the lamp state, the pulse phase and the hue. */
  datatype Lamp = Lamp(view: LightingView, phase: real, hue: real)

  /** One timer tick as a value; `sin` stands for Math.Sin. */
  function TickSpec(l: Lamp, sin: real -> real): Lamp
    requires 0.0 <= l.hue < 360.0
    requires forall x :: -1.0 <= sin(x) <= 1.0
  {
    if !l.view.isOn then l
    else match l.view.effect
      case Pulse =>
        var ph := NextPhase(l.phase);
        l.(view := l.view.(brightness := Pulsed(l.view.brightness, sin(ph))), phase := ph)
      case ColorCycle =>
        var h := NextHue(l.hue);
        l.(view := l.view.(color := CycleColor(h)), hue := h)
      case _ => l
  }

  /** A tick while off, or under Static, NightLight or Reading, changes nothing. */
  lemma TickIdle(l: Lamp, sin: real -> real)
    requires 0.0 <= l.hue < 360.0
    requires !l.view.isOn || l.view.effect in {Static, NightLight, Reading}
    requires forall x :: -1.0 <= sin(x) <= 1.0
    ensures TickSpec(l, sin) == l
  {
  }

  /** A Pulse tick changes only brightness and phase, and leaves brightness in [5, 100]. */
  lemma TickPulse(l: Lamp, sin: real -> real)
    requires 0.0 <= l.hue < 360.0
    requires l.view.isOn && l.view.effect == Pulse
    requires forall x :: -1.0 <= sin(x) <= 1.0
    ensures TickSpec(l, sin).view == l.view.(brightness := TickSpec(l, sin).view.brightness)
    ensures 5 <= TickSpec(l, sin).view.brightness <= 100
    ensures TickSpec(l, sin).hue == l.hue
  {
  }

  /** A ColorCycle tick changes only colour and hue; the colour stays opaque. */
  lemma TickColorCycle(l: Lamp, sin: real -> real)
    requires 0.0 <= l.hue < 360.0
    requires l.view.isOn && l.view.effect == ColorCycle
    requires forall x :: -1.0 <= sin(x) <= 1.0
    ensures TickSpec(l, sin).view == l.view.(color := TickSpec(l, sin).view.color)
    ensures TickSpec(l, sin).view.color.a == 255
    ensures TickSpec(l, sin).phase == l.phase
  {
  }

  /** Ticks keep the phase in [0, 2 pi] and the hue in [0, 360). */
  lemma TickKeepsRanges(l: Lamp, sin: real -> real)
    requires 0.0 <= l.hue < 360.0 && 0.0 <= l.phase <= 2.0 * Pi
    requires forall x :: -1.0 <= sin(x) <= 1.0
    ensures 0.0 <= TickSpec(l, sin).hue < 360.0
    ensures 0.0 <= TickSpec(l, sin).phase <= 2.0 * Pi
  {
  }

  /** The outcome of Apply: ArgumentNullException for a null state. */
  datatype ApplyOutcome = Applied | NullArgument

  class LightingService {
    var state: LightingState
    var phase: real
    var hue: real
    /** Every snapshot StateChanged has been raised with, oldest first. */
    ghost var published: seq<LightingView>

    ghost predicate Valid()
      reads this
    {
      0.0 <= phase <= 2.0 * Pi && 0.0 <= hue < 360.0
    }

    ghost function View(): LightingView
      reads this, state
    {
      state.View()
    }

    /** The default lamp state; phase and hue start at 0. */
    constructor ()
      ensures Valid() && fresh(state)
      ensures View() == LightingView(true, 60, Color(255, 255, 244, 230), Static, true)
      ensures phase == 0.0 && hue == 0.0 && published == []
    {
      state := new LightingState();
      phase := 0.0;
      hue := 0.0;
      published := [];
    }

    /** Stores a copy of the argument, applies the night override if AutoNight is
        set, and publishes once. */
    method Apply(newState: LightingState?, timeOfDay: real) returns (res: ApplyOutcome)
      requires Valid()
      modifies this
      ensures Valid() && phase == old(phase) && hue == old(hue)
      ensures newState == null ==> res == NullArgument && state == old(state) && published == old(published)
      ensures newState != null ==>
        && res == Applied && fresh(state)
        && View() == AfterApply(old(newState.View()), timeOfDay)
        && published == old(published) + [View()]
    {
      if newState == null {
        return NullArgument;
      }
      var copy := newState.Clone();
      state := copy;
      if state.autoNight {
        ApplyNightSuggestionIfNeeded(timeOfDay);
      }
      published := published + [state.View()];
      return Applied;
    }

    method ApplyNightSuggestionIfNeeded(timeOfDay: real)
      modifies state
      ensures View() == NightOverride(old(View()), timeOfDay)
    {
      var isNight := timeOfDay >= 21.0 || timeOfDay < 6.0;
      if isNight && (state.effect == Static || state.effect == Reading) {
        state.effect := NightLight;
        state.color := NightColor;
        state.brightness := MinInt(state.brightness, 35);
      }
    }

    /** Switches the lamp; switching to the current value does nothing. */
    method Toggle(on: bool)
      modifies this, state
      ensures state == old(state) && phase == old(phase) && hue == old(hue)
      ensures View() == old(View()).(isOn := on)
      ensures old(state.isOn) == on ==> published == old(published)
      ensures old(state.isOn) != on ==> published == old(published) + [View()]
    {
      if state.isOn == on {
        return;
      }
      state.isOn := on;
      published := published + [state.View()];
    }

    /** One timer tick; publishes only when the state changed. */
    method Tick(sin: real -> real)
      requires Valid()
      requires forall x :: -1.0 <= sin(x) <= 1.0
      modifies this, state
      ensures Valid() && state == old(state)
      ensures Lamp(View(), phase, hue) == TickSpec(Lamp(old(View()), old(phase), old(hue)), sin)
      ensures View() == old(View()) ==> published == old(published)
      ensures View() != old(View()) ==> published == old(published) + [View()]
    {
      if !state.isOn {
        return;
      }
      match state.effect {
        case Pulse => PulseTick(sin);
        case ColorCycle => ColorCycleTick();
        case _ =>
      }
    }

    /** The Pulse branch of Tick. */
    method PulseTick(sin: real -> real)
      requires Valid()
      requires forall x :: -1.0 <= sin(x) <= 1.0
      modifies this, state
      ensures Valid() && state == old(state) && hue == old(hue)
      ensures phase == NextPhase(old(phase))
      ensures View() == old(View()).(brightness := Pulsed(old(state.brightness), sin(phase)))
      ensures View() == old(View()) ==> published == old(published)
      ensures View() != old(View()) ==> published == old(published) + [View()]
    {
      phase := phase + 0.12;
      if phase > Pi * 2.0 {
        phase := 0.0;
      }
      var mid := state.brightness;
      var amp := Amplitude(mid);
      var pulsed := mid + Swing(sin(phase), amp);
      pulsed := MaxInt(5, MinInt(100, pulsed));
      if pulsed != state.brightness {
        state.brightness := pulsed;
        published := published + [state.View()];
      }
    }

    /** The ColorCycle branch of Tick: the colour is replaced only when its ARGB value differs. */
    method ColorCycleTick()
      requires Valid()
      modifies this, state
      ensures Valid() && state == old(state) && phase == old(phase)
      ensures hue == NextHue(old(hue))
      ensures View() == old(View()).(color := CycleColor(hue))
      ensures View() == old(View()) ==> published == old(published)
      ensures View() != old(View()) ==> published == old(published) + [View()]
    {
      hue := hue + 1.0;
      if hue >= 360.0 {
        hue := hue - 360.0;
      }
      var c := FromHsv(hue, 0.55, 1.0);
      ToArgbInjective(c, state.color);
      if c.ToArgb() != state.color.ToArgb() {
        state.color := c;
        published := published + [state.View()];
      }
    }
  }
}
