/** The lighting data model: effects, ARGB colours and the lamp state. */
module LightingModels {
  import opened Common

  /** The five lamp effects, numbered 0 to 4 in this order. */
  datatype LightingEffect = Static | NightLight | Reading | Pulse | ColorCycle

  /** The enum's underlying value. */
  function EffectValue(e: LightingEffect): (n: int)
    ensures 0 <= n <= 4
  {
    match e
    case Static => 0
    case NightLight => 1
    case Reading => 2
    case Pulse => 3
    case ColorCycle => 4
  }

  /** The member with the given underlying value, if any. */
  function EffectOf(n: int): (r: Option<LightingEffect>)
    ensures r.Some? <==> 0 <= n <= 4
  {
    if n == 0 then Some(Static)
    else if n == 1 then Some(NightLight)
    else if n == 2 then Some(Reading)
    else if n == 3 then Some(Pulse)
    else if n == 4 then Some(ColorCycle)
    else None
  }

  /** The values 0..4 name exactly the five effects: each way round is the inverse. */
  lemma EffectNumbering(e: LightingEffect, n: int)
    ensures EffectOf(EffectValue(e)) == Some(e)
    ensures 0 <= n <= 4 ==> EffectValue(EffectOf(n).value) == n
  {
  }

  /** A colour channel. */
  newtype byte = x: int | 0 <= x < 256

  /** System.Drawing.Color as its four channels; Color.FromArgb range-checks, so
      every colour has channels in [0, 255]. */
  datatype Color = Color(a: byte, r: byte, g: byte, b: byte)
  {
    /** The packed 0xAARRGGBB value, read as a signed 32-bit integer. */
    function ToArgb(): (n: int)
      ensures -0x8000_0000 <= n < 0x8000_0000
    {
      var u := a as int * 0x100_0000 + r as int * 0x1_0000 + g as int * 0x100 + b as int;
      if u >= 0x8000_0000 then u - 0x1_0000_0000 else u
    }
  }

  /** Two colours pack to the same ARGB value exactly when they are the same colour,
      so comparing ToArgb values compares colours. */
  lemma {:induction false} ToArgbInjective(c: Color, d: Color)
    ensures c.ToArgb() == d.ToArgb() <==> c == d
  {
    if c.ToArgb() == d.ToArgb() {
      var u := c.a as int * 0x100_0000 + c.r as int * 0x1_0000 + c.g as int * 0x100 + c.b as int;
      var w := d.a as int * 0x100_0000 + d.r as int * 0x1_0000 + d.g as int * 0x100 + d.b as int;
      assert u == w;
      assert c.a == d.a;
      assert c.r == d.r;
      assert c.g == d.g;
    }
  }

  /** The value form of a lamp state. */
  datatype LightingView = LightingView(isOn: bool, brightness: int, color: Color, effect: LightingEffect, autoNight: bool)

  /** The lamp's settings. Brightness is nominally 0..100 but is not range-checked. */
  class LightingState {
    var isOn: bool
    var brightness: int
    var color: Color
    var effect: LightingEffect
    var autoNight: bool

    ghost function View(): LightingView
      reads this
    {
      LightingView(isOn, brightness, color, effect, autoNight)
    }

    /** On, brightness 60, warm white (255, 244, 230), Static, automatic night mode on. */
    constructor ()
      ensures View() == LightingView(true, 60, Color(255, 255, 244, 230), Static, true)
    {
      isOn := true;
      brightness := 60;
      color := Color(255, 255, 244, 230);
      effect := Static;
      autoNight := true;
    }

    /** A new state object with all five fields copied. */
    method Clone() returns (c: LightingState)
      ensures fresh(c)
      ensures c.View() == View()
    {
      c := new LightingState();
      c.isOn := isOn;
      c.brightness := brightness;
      c.color := color;
      c.effect := effect;
      c.autoNight := autoNight;
    }
  }
}
