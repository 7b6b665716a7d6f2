/** Tooltip content for a stack, shown on pointer movement. */
module Tooltip {

  /** The placeholder shown when the chart was given no tooltip function. */
  const Missing: string := "Tooltip missing!"

  /** The `tooltip` argument: undefined, or a function from a stack's data
      point to its content. */
  datatype TooltipArg<!D> = Undefined | Given(content: D -> string)

  /** What the content resolver hands the tooltip: the placeholder string, or
      the content with the anchor point `[x, y]`. */
  datatype Html = Placeholder(text: string) | Annotated(content: string, x: real, y: real)

  /** The content resolver for the stack whose data point is `dp`: the band's
      horizontal centre (band starting at `bandStart`, `bandWidth` wide) and
      the value scale's pixel for the stack total. */
  function StackHtml<D>(tooltip: TooltipArg<D>, dp: D, bandStart: real, bandWidth: real,
                        yScale: real -> real, total: real): (r: Html)
    ensures r.Placeholder? <==> tooltip.Undefined?
    ensures r.Placeholder? ==> r.text == Missing
    ensures r.Annotated? ==>
      r.content == tooltip.content(dp) && r.y == yScale(total)
      && r.x - bandStart == bandStart + bandWidth - r.x
  {
    var x := bandStart + bandWidth / 2.0;
    var y := yScale(total);
    match tooltip
    case Undefined => Placeholder(Missing)
    case Given(f) => Annotated(f(dp), x, y)
  }

  /** Without a tooltip function every stack shows the same placeholder, and
      with one the anchor lies inside the stack's band. */
  lemma TooltipFallback<D>(tooltip: TooltipArg<D>, dp1: D, dp2: D, bandStart: real, bandWidth: real,
                           yScale: real -> real, total1: real, total2: real)
    requires 0.0 <= bandWidth
    ensures tooltip.Undefined? ==>
      StackHtml(tooltip, dp1, bandStart, bandWidth, yScale, total1)
      == StackHtml(tooltip, dp2, bandStart, bandWidth, yScale, total2)
      == Placeholder("Tooltip missing!")
    ensures tooltip.Given? ==>
      bandStart <= StackHtml(tooltip, dp1, bandStart, bandWidth, yScale, total1).x <= bandStart + bandWidth
  {
  }
}
