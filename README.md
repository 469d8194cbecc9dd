# Colour-vision-deficiency simulator, modelled in Dafny

This project models `simulate_colorblindness` from `utils.py`. It predicts how a
palette colour looks to a viewer with one of three forms of dichromacy
(Deuteranopia, Protanopia, Tritanopia). The function does seven things in a row:

1. parse the hex string into three channels in [0,1];
2. remove the display gamma (each channel to the power 2.2);
3. choose one of three fixed 3x3 matrices by an exact match on the type name;
4. mix the channels with `np.dot(v, M.T)`;
5. clip each channel to [0,1];
6. re-apply the gamma (each channel to the power 1/2.2);
7. format the result as a hex string.

The model is pure, in the same form as the source: datatypes, functions and lemmas.

- `Color` (color.dfy): the `Rgb` triple, the [0,1] range, the channel-wise order and the clip of step 5.
- `Transfer` (transfer.dfy): the two gamma curves of steps 2 and 6. They are parameters (`Gamma`), constrained by `Valid`: each maps [0,1] into [0,1], fixes 0 and 1, and is monotone. `RoundTrips` adds the exact-arithmetic fact that the 1/2.2 power undoes the 2.2 power. Only the grey lemmas assume it.
- `Matrices` (matrices.dfy): the three matrix constants, the numpy product `np.dot(v, M.T)` written as the source writes it, and its meaning: channel i is the dot product with row i.
- `Simulation` (simulation.dfy): the type dispatch, the pipeline on colours (`SimulateRgb`) and `SimulateColorblindness` on strings. matplotlib's `hex2color` and `to_hex` are the two fields of a `HexCodec` parameter. Parsing can fail, which stands for the `ValueError` matplotlib raises.
- `Properties` (properties.dfy): what the pipeline guarantees.
- `Palette` (palette.dfy): the caller's list comprehension over a palette (app.py:60).

Four behaviours of the code worth stating:

- An unrecognised type name is not an error. The input string is returned unchanged (utils.py:27-28).
- The colour is parsed before the type is examined (utils.py:8). So an unreadable colour is an error even when the type name is unrecognised.
- The names are matched exactly and case-sensitively. The default type is "Deuteranopia".
- Black and white are fixed points as colours. As strings they come back unchanged only when `to_hex` spells the colour the way the input did. For example, `to_hex` writes lower case, so "#FFFFFF" comes back as white spelled "#ffffff". `Properties.BlackAndWhiteAreFixed` states the string-level claim under exactly that condition. `SimulateRgb` states it without the condition, at the level of colours.

## Model

| member | source | states |
|---|---|---|
| Color.Clip | utils.py:34 | the clipped channel is in [0,1]; a channel already in [0,1] is unchanged; below 0 gives 0 and above 1 gives 1 |
| Color.ClipRgb | utils.py:34 | every channel of the result is in [0,1]; a colour in range is unchanged; a non-negative colour is only lowered |
| Color.ClipRgbMonotone | utils.py:34 | clipping preserves the channel-wise order of two colours |
| Transfer.Decode | utils.py:12-14 | removing the gamma keeps a colour in [0,1] and fixes black and white |
| Transfer.Encode | utils.py:35 | re-applying the gamma keeps a colour in [0,1] and fixes black and white |
| Transfer.DecodeMonotone | utils.py:12-14 | removing the gamma preserves the channel-wise order |
| Transfer.EncodeMonotone | utils.py:35 | re-applying the gamma preserves the channel-wise order |
| Matrices.Apply | utils.py:31 | `np.dot(v, M.T)` gives, as channel i, the dot product of v with row i of M |
| Matrices.ApplyMonotone | utils.py:31 | a matrix with non-negative entries preserves the channel-wise order |
| Matrices.ApplyBounds | utils.py:31 | for inputs in [0,1], a non-negative matrix gives channels between 0 and the row sums |
| Matrices.StochasticKeepsGrey | utils.py:31 | a matrix whose rows sum to 1 maps every grey to itself |
| Matrices.MatrixConstants | utils.py:17-19 | all entries of the three matrices are non-negative; every Protanopia and Tritanopia row sums to 1; the Deuteranopia rows sum to 1, 1 and 1.3; Deuteranopia and Protanopia have zeros in the third column of rows 1 and 2 |
| Simulation.ParseDeficiency | utils.py:21-28 | a type is recognised exactly when it is one of the three case-sensitive names, and the recognised deficiency carries that name |
| Simulation.ParseName | utils.py:21-26 | each deficiency's name selects that deficiency |
| Simulation.MatrixOf | utils.py:17-26 | the selected matrix is non-negative; it is row-stochastic except for Deuteranopia, whose rows sum to 1, 1 and 1.3; the red and green rows ignore blue for Deuteranopia and Protanopia |
| Simulation.Mixed | utils.py:31 | for inputs in [0,1], no mixed channel is negative; red and green never exceed 1; blue exceeds 1 only under Deuteranopia |
| Simulation.SimulateRgb | utils.py:12-35 | every output channel is in [0,1]; black maps to black and white to white for every type |
| Simulation.SimulateColorblindness | utils.py:6-37 | an unreadable colour is an error for every type; an unrecognised type returns the input string unchanged; a recognised type formats the simulated colour; every string returned is the input or the formatting of a colour with all channels in [0,1] |
| Properties.DefaultIsDeuteranopia | utils.py:6 | omitting the type means Deuteranopia |
| Properties.UnknownTypePassesThrough | utils.py:8-28 | for every name other than the three, a readable colour comes back as the same string and an unreadable one is an error |
| Properties.ClipOnlyCapsDeuteranopiaBlue | utils.py:31-34 | for inputs in [0,1] the lower clip bound changes nothing; only the Deuteranopia blue channel can be changed, and only lowered |
| Properties.DeuteranopiaWhiteOverflows | utils.py:17-31 | Deuteranopia mixes white to (1, 1, 1.3), so the clip is needed |
| Properties.RedGreenIgnoreBlue | utils.py:17-35 | under Deuteranopia and Protanopia the red and green outputs do not depend on the blue input |
| Properties.SimulateMonotone | utils.py:12-35 | a colour nowhere darker than another is simulated to a colour nowhere darker |
| Properties.GreyIsFixed | utils.py:12-35 | with exact powers, Protanopia and Tritanopia map every grey to itself |
| Properties.DeuteranopiaGrey | utils.py:12-35 | with exact powers, Deuteranopia keeps a grey's red and green channels and never lowers its blue channel |
| Properties.BlackAndWhiteAreFixed | utils.py:8-37 | a string that parses to black or white, and that the formatter spells back the same way, is returned unchanged for every type |
| Palette.MapAll | app.py:60 | mapping a step that can fail over a list succeeds exactly when every element does; then the output keeps length and order, element i being the step applied to input i; otherwise it is the first failure |
| Palette.SimulatePalette | app.py:60 | the palette result succeeds exactly when every swatch does; then it has the same length and order, swatch i being the simulation of input i; otherwise it is the error of the first failing swatch |
| Palette.UnknownTypeKeepsPalette | app.py:60 | under an unrecognised type a readable palette comes back unchanged |

## Left out

- `hex2color` and `to_hex` (utils.py:8, 37) are matplotlib calls. Their accepted formats, rounding to 8 bits and error messages are not visible, so they are the parameters of `HexCodec`. The model assumes only that parsed channels lie in [0,1].
- The powers `** 2.2` and `** (1/2.2)` (utils.py:12-14, 35) cannot be computed in Dafny. They are curve parameters constrained to map [0,1] into [0,1], fix 0 and 1, and be monotone. Real arithmetic is exact. IEEE floating-point rounding is not modelled.
- `Simulation.SimulateColorblindness` is stated on colour values. It does not say which hex digits come out, because that depends on `to_hex`.
- `convert_dpi` (utils.py:40-44) is a thin wrapper around the imaging library: it opens an image and converts its mode.
- app.py is user interface: page layout, widgets, plotting and downloads. The label-to-type split `cb_type.split()[0]` (app.py:51, 60) is also left out, and so is the normal-vision branch of app.py:51 and app.py:60 (`... else c`), which returns each swatch without parsing it, so an unreadable swatch raises nothing there. Only the simulated branch of the palette map of app.py:60 is modelled.
- init_assets.py downloads assets over the network and writes files. It is not part of this model.
- Determinism needs no lemma: every member is a mathematical function of its inputs.
