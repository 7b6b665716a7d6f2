/** The colour (Z) axis: where the colour of each segment comes from. */
module Colors {
  import opened Key

  /** The chart's own palette, used when the caller supplies none. */
  const DefaultColors: seq<string> :=
    ["#98abc5", "#8a89a6", "#7b6888", "#6b486b", "#a05d56", "#d0743c", "#ff8c00"]

  /** The `color` argument: a function (taken to be a colour scale), or any
      other value (undefined, an array, a string), which is not used. */
  datatype ColorArg = ColorFunction(scale: string -> string) | NotAFunction

  /** The `scale` argument after `scale || {}`: an array, or any other value
      (the `{x, y}` override object or the empty object). */
  datatype ScaleArg = ScaleArray(colors: seq<string>) | NotAnArray

  /** The resolved colour source. A palette is an ordinal scale whose range is
      `range` and whose domain is `key.metric`. */
  datatype ColorSource =
    | UserScale(scale: string -> string)
    | Palette(range: seq<string>, domain: Metric)

  /** Three-way policy: a `color` function is used as it is; otherwise an array
      passed as `scale` is the palette; otherwise the default palette. Either
      palette is keyed by the key's metric. */
  function ResolveColors(color: ColorArg, scale: ScaleArg, metric: Metric): (r: ColorSource)
    ensures r.UserScale? <==> color.ColorFunction?
    ensures r.UserScale? ==> r.scale == color.scale
    ensures r.Palette? ==> r.domain == metric
    ensures r.Palette? && r.range == DefaultColors <== color.NotAFunction? && scale.NotAnArray?
    ensures r.Palette? && r.range == scale.colors <== color.NotAFunction? && scale.ScaleArray?
  {
    match color
    case ColorFunction(f) => UserScale(f)
    case NotAFunction =>
      match scale
      case ScaleArray(colors) => Palette(colors, metric)
      case NotAnArray => Palette(DefaultColors, metric)
  }

  /** A colour function takes precedence over any `scale` argument: with one,
      the resolved source is that function whatever `scale` holds, so every
      segment's fill is the function applied to the segment's metric name. */
  lemma ColorFunctionWins(f: string -> string, scale1: ScaleArg, scale2: ScaleArg, metric: Metric, x: string)
    ensures ResolveColors(ColorFunction(f), scale1, metric) == ResolveColors(ColorFunction(f), scale2, metric)
    ensures ResolveColors(ColorFunction(f), scale1, metric).scale(x) == f(x)
  {
  }
}
