/**
  The caller's use of the simulator: every swatch of a palette is simulated in
  order, as the list comprehension that builds the plot colours does. The first
  swatch matplotlib cannot read raises, so the whole palette fails with it.
 */
module Palette {
  import opened Transfer
  import opened Simulation

  /**
    Applies a step that can fail to every element in order, as a list
    comprehension does: the first failure is the result.
   */
  function MapAll(f: string -> Result<string>, colors: seq<string>): (res: Result<seq<string>>)
    ensures res.Ok? <==> forall i :: 0 <= i < |colors| ==> f(colors[i]).Ok?
    ensures res.Ok? ==> |res.value| == |colors| && forall i :: 0 <= i < |colors| ==> res.value[i] == f(colors[i]).value
    ensures res.Err? ==> exists i :: (0 <= i < |colors| && f(colors[i]) == Err(res.error)
      && forall j :: 0 <= j < i ==> f(colors[j]).Ok?)
  {
    if colors == [] then Ok([])
    else
      match f(colors[0])
      case Err(e) => Err(e)
      case Ok(first) =>
        match MapAll(f, colors[1..])
        case Err(e) =>
          ghost var i :| 0 <= i < |colors| - 1 && f(colors[1..][i]) == Err(e)
            && forall j :: 0 <= j < i ==> f(colors[1..][j]).Ok?;
          assert f(colors[i + 1]) == Err(e);
          Err(e)
        case Ok(rest) => Ok([first] + rest)
  }

  /** The plot colours: every swatch of the palette simulated under one type. */
  function SimulatePalette(codec: HexCodec, g: Gamma, colors: seq<string>, kind: string): (res: Result<seq<string>>)
    requires ValidCodec(codec) && Valid(g)
    ensures res.Ok? <==> forall i :: 0 <= i < |colors| ==> SimulateColorblindness(codec, g, colors[i], kind).Ok?
    ensures res.Ok? ==> |res.value| == |colors|
    ensures res.Ok? ==> forall i :: 0 <= i < |colors| ==>
      res.value[i] == SimulateColorblindness(codec, g, colors[i], kind).value
    ensures res.Err? ==> exists i :: (0 <= i < |colors| && SimulateColorblindness(codec, g, colors[i], kind) == Err(res.error)
      && forall j :: 0 <= j < i ==> SimulateColorblindness(codec, g, colors[j], kind).Ok?)
  {
    MapAll(c => SimulateColorblindness(codec, g, c, kind), colors)
  }

  /**
    A type outside the three names returns a palette that parses unchanged,
    swatch for swatch.
   */
  lemma {:induction false} UnknownTypeKeepsPalette(codec: HexCodec, g: Gamma, colors: seq<string>, kind: string)
    requires ValidCodec(codec) && Valid(g)
    requires ParseDeficiency(kind).None?
    requires forall i :: 0 <= i < |colors| ==> codec.parse(colors[i]).Some?
    ensures SimulatePalette(codec, g, colors, kind) == Ok(colors)
  {
    var res := SimulatePalette(codec, g, colors, kind);
    assert res.Ok?;
    assert res.value == colors;
  }
}
