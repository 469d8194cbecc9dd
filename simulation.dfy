/**
  simulate_colorblindness: how a colour looks to a viewer with one of three
  forms of dichromacy. The pipeline decodes the colour, removes the display
  gamma, mixes the channels with the matrix of the chosen deficiency, clips
  each channel to [0,1], re-applies the gamma and formats the result.
 */
module Simulation {
  import opened Color
  import opened Transfer
  import opened Matrices

  datatype Option<T> = None | Some(value: T)

  /** The error matplotlib raises for a string it cannot read as a colour. */
  datatype ColorError = InvalidColor(text: string)

  datatype Result<T> = Ok(value: T) | Err(error: ColorError)

  /** The three deficiencies the simulator recognises. */
  datatype Deficiency = Deuteranopia | Protanopia | Tritanopia

  /** The type the simulator uses when the caller names none. */
  const DefaultKind: string := "Deuteranopia"

  function Name(d: Deficiency): string
  {
    match d
    case Deuteranopia => "Deuteranopia"
    case Protanopia => "Protanopia"
    case Tritanopia => "Tritanopia"
  }

  /**
    The if/elif chain on the type name: an exact, case-sensitive match against
    the three names; any other name selects nothing.
   */
  function ParseDeficiency(kind: string): (d: Option<Deficiency>)
    ensures d.Some? <==> kind in {"Deuteranopia", "Protanopia", "Tritanopia"}
    ensures d.Some? ==> Name(d.value) == kind
  {
    if kind == "Deuteranopia" then Some(Deuteranopia)
    else if kind == "Protanopia" then Some(Protanopia)
    else if kind == "Tritanopia" then Some(Tritanopia)
    else None
  }

  lemma ParseName(d: Deficiency)
    ensures ParseDeficiency(Name(d)) == Some(d)
  {
  }

  function MatrixOf(d: Deficiency): (m: Mat3)
    ensures NonNegative(m)
    ensures d != Deuteranopia ==> RowStochastic(m)
    ensures d == Deuteranopia ==> Sum(m.red) == 1.0 && Sum(m.green) == 1.0 && Sum(m.blue) == 1.3
    ensures d != Tritanopia ==> m.red.b == 0.0 && m.green.b == 0.0
  {
    MatrixConstants();
    match d
    case Deuteranopia => DeuteranopiaMatrix
    case Protanopia => ProtanopiaMatrix
    case Tritanopia => TritanopiaMatrix
  }

  /**
    The mixed linear-light colour before the clip. For an input in [0,1] no
    channel is negative, and only the blue channel of Deuteranopia, whose row
    sums to 1.3, can exceed 1.
   */
  function Mixed(d: Deficiency, v: Rgb): (w: Rgb)
    ensures InGamut(v) ==> Below(Black, w)
    ensures InGamut(v) ==> w.r <= 1.0 && w.g <= 1.0
    ensures InGamut(v) && d != Deuteranopia ==> w.b <= 1.0
  {
    var m := MatrixOf(d);
    if InGamut(v) then ApplyBounds(m, v); Apply(m, v) else Apply(m, v)
  }

  /**
    The pipeline on a parsed colour: remove the gamma, mix, clip, re-apply the
    gamma. The result is always in [0,1], and black and white are fixed points.
   */
  function SimulateRgb(g: Gamma, d: Deficiency, c: Rgb): (o: Rgb)
    requires Valid(g) && InGamut(c)
    ensures InGamut(o)
    ensures c == Black ==> o == Black
    ensures c == White ==> o == White
  {
    var linear := Decode(g, c);
    var mixed := Mixed(d, linear);
    var clipped := ClipRgb(mixed);
    assert c == Black ==> clipped == Black by {
      if c == Black {
        ApplyBlack(MatrixOf(d));
      }
    }
    assert c == White ==> clipped == White by {
      if c == White {
        ApplyWhite(MatrixOf(d));
      }
    }
    Encode(g, clipped)
  }

  /**
    The colour codec of matplotlib: parse is hex2color (None where it raises),
    format is to_hex. Neither is computed here.
   */
  datatype HexCodec = HexCodec(parse: string -> Option<Rgb>, format: Rgb -> string)

  /** hex2color only ever yields channels in [0,1]. */
  ghost predicate ValidCodec(codec: HexCodec)
  {
    forall s :: codec.parse(s).Some? ==> InGamut(codec.parse(s).value)
  }

  /**
    simulate_colorblindness(hex_color, type). The colour is parsed first, so a
    string matplotlib cannot read is an error whatever the type; a type outside
    the three names returns the input string itself, with no gamma round trip.
   */
  function SimulateColorblindness(codec: HexCodec, g: Gamma, hex: string, kind: string := DefaultKind): (res: Result<string>)
    requires ValidCodec(codec) && Valid(g)
    ensures codec.parse(hex).None? <==> res == Err(InvalidColor(hex))
    ensures codec.parse(hex).Some? && ParseDeficiency(kind).None? ==> res == Ok(hex)
    ensures codec.parse(hex).Some? && ParseDeficiency(kind).Some? ==>
      res == Ok(codec.format(SimulateRgb(g, ParseDeficiency(kind).value, codec.parse(hex).value)))
    ensures res.Ok? ==> res.value == hex || exists o :: InGamut(o) && res.value == codec.format(o)
  {
    match codec.parse(hex)
    case None => Err(InvalidColor(hex))
    case Some(c) =>
      match ParseDeficiency(kind)
      case None => Ok(hex)
      case Some(d) => Ok(codec.format(SimulateRgb(g, d, c)))
  }
}
