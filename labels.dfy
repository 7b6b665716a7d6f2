/** Layout of the category-axis tick labels: rotate them all when one is too
    wide for its band, then shorten the ones still too tall with an ellipsis.
    Every measurement of rendered text is an input. */
module Labels {

  /** How many measured label widths exceed the band width (the size of the
      filtered selection). */
  function CountWider(widths: seq<real>, band: real): (n: nat)
    ensures n <= |widths|
  {
    if |widths| == 0 then 0
    else CountWider(widths[..|widths| - 1], band) + (if widths[|widths| - 1] > band then 1 else 0)
  }

  /** The count is positive exactly when some width exceeds the band. */
  lemma {:induction false} CountWiderPositive(widths: seq<real>, band: real)
    ensures CountWider(widths, band) > 0 <==> exists i :: 0 <= i < |widths| && widths[i] > band
  {
    if |widths| > 0 {
      var init := widths[..|widths| - 1];
      CountWiderPositive(init, band);
      if exists i :: 0 <= i < |init| && init[i] > band {
        var i :| 0 <= i < |init| && init[i] > band;
        assert widths[i] > band;
      }
    }
  }

  /** `rotate`: the labels are turned when the filter keeps at least one. */
  function Rotated(widths: seq<real>, band: real): (r: bool)
    ensures r <==> exists i :: 0 <= i < |widths| && widths[i] > band
  {
    CountWiderPositive(widths, band);
    CountWider(widths, band) > 0
  }

  /** JavaScript `s.substring(start, end)`: both indices clamped to [0, |s|],
      and swapped when the start is after the end. */
  function Substring(s: string, start: int, end: int): (r: string)
  {
    var a := Clamp(start, |s|);
    var b := Clamp(end, |s|);
    if a <= b then s[a..b] else s[b..a]
  }

  function Clamp(n: int, len: nat): (c: nat)
    ensures c <= len
  {
    if n < 0 then 0 else if n > len then len else n
  }

  /** How many characters the truncated label keeps: `i - 4`, clamped to the
      label. */
  function Kept(text: string, i: nat): (k: nat)
    ensures k <= |text|
  {
    Clamp(i - 4, |text|)
  }

  /** The new label text once the scan has stopped at index `i`. */
  function Truncated(text: string, i: nat): (r: string)
  {
    Substring(text, 0, i - 4) + "..."
  }

  /** The truncated text is the first `max(i - 4, 0)` characters of the
      label (no more than the label has) followed by "..."; when the scan
      stops at `i <= 4` it is exactly "...". */
  lemma TruncatedIsPrefixAndEllipsis(text: string, i: nat)
    ensures Truncated(text, i) == text[..Kept(text, i)] + "..."
    ensures Kept(text, i) == (if i <= 4 then 0 else if i - 4 <= |text| then i - 4 else |text|)
    ensures i <= 4 ==> Truncated(text, i) == "..."
  {
  }

  /** Some prefix length reaches the hypotenuse, so the scan stops. */
  ghost predicate Reaches(prefixLength: nat -> real, hypotenuse: real)
  {
    exists n: nat :: prefixLength(n) >= hypotenuse
  }

  /** `i` is the first index whose measured prefix length reaches the
      hypotenuse: where the scan `for (; len(0, i) < hypotenuse; i++)` stops. */
  predicate FirstReach(prefixLength: nat -> real, hypotenuse: real, i: nat)
  {
    prefixLength(i) >= hypotenuse && forall j :: 0 <= j < i ==> prefixLength(j) < hypotenuse
  }

  /** Truncation of one label: scan `i` upward until the measured length of
      the first `i` characters is at least `hypotenuse`, then keep `i - 4`
      characters and append "...". */
  method TruncateLabel(text: string, prefixLength: nat -> real, hypotenuse: real) returns (r: string)
    requires Reaches(prefixLength, hypotenuse)
    ensures exists i: nat :: FirstReach(prefixLength, hypotenuse, i) && r == Truncated(text, i)
  {
    ghost var n: nat :| prefixLength(n) >= hypotenuse;
    var i: nat := 0;
    while prefixLength(i) < hypotenuse
      invariant i <= n
      invariant forall j :: 0 <= j < i ==> prefixLength(j) < hypotenuse
      decreases n - i
    {
      i := i + 1;
    }
    r := Truncated(text, i);
  }

  /** The stopping index is unique, and when the measure grows with the
      prefix it splits the indices: those at or past it reach the hypotenuse,
      those before it do not. What the label keeps is strictly shorter than
      the stopping index, so (for `i > 0`) it measures below the hypotenuse. */
  lemma FirstReachIsThreshold(text: string, prefixLength: nat -> real, hypotenuse: real, i: nat, i': nat)
    requires FirstReach(prefixLength, hypotenuse, i)
    requires FirstReach(prefixLength, hypotenuse, i')
    ensures i == i'
    ensures 0 < i ==> Kept(text, i) < i && prefixLength(Kept(text, i)) < hypotenuse
    ensures (forall a: nat, b: nat :: a <= b ==> prefixLength(a) <= prefixLength(b)) ==>
      forall j: nat :: prefixLength(j) >= hypotenuse <==> i <= j
  {
  }

  /** One tick label as rendered: its text, its measured width before
      rotation, its measured height after rotation, and the measured length
      of its first `n` characters. */
  datatype AxisLabel = AxisLabel(text: string, width: real, height: real, prefixLength: nat -> real)

  function Widths(labels: seq<AxisLabel>): (w: seq<real>)
    ensures |w| == |labels|
    ensures forall k :: 0 <= k < |labels| ==> w[k] == labels[k].width
  {
    seq(|labels|, k requires 0 <= k < |labels| => labels[k].width)
  }

  /** A label is truncated only when the labels are rotated and its height
      exceeds the bottom margin. */
  predicate NeedsTruncation(tick: AxisLabel, rotated: bool, marginBot: int)
  {
    rotated && tick.height > marginBot as real
  }

  /** `text` is what the layout leaves on `tick`: the truncation when it needs
      one, its own text otherwise. */
  ghost predicate LaidOut(tick: AxisLabel, rotated: bool, marginBot: int, hypotenuse: real, text: string)
  {
    if NeedsTruncation(tick, rotated, marginBot) then
      exists i: nat :: FirstReach(tick.prefixLength, hypotenuse, i) && text == Truncated(tick.text, i)
    else
      text == tick.text
  }

  /** The whole label pass: decide rotation from the widths, then truncate
      each rotated label taller than the bottom margin. */
  method LayOutLabels(labels: seq<AxisLabel>, band: real, marginBot: int, hypotenuse: real)
    returns (rotated: bool, texts: seq<string>)
    requires forall k :: 0 <= k < |labels| && NeedsTruncation(labels[k], Rotated(Widths(labels), band), marginBot) ==>
      Reaches(labels[k].prefixLength, hypotenuse)
    ensures rotated <==> exists k :: 0 <= k < |labels| && labels[k].width > band
    ensures |texts| == |labels|
    ensures forall k :: 0 <= k < |labels| ==> LaidOut(labels[k], rotated, marginBot, hypotenuse, texts[k])
  {
    rotated := Rotated(Widths(labels), band);
    texts := [];
    for k := 0 to |labels|
      invariant |texts| == k
      invariant forall j :: 0 <= j < k ==> LaidOut(labels[j], rotated, marginBot, hypotenuse, texts[j])
    {
      var text := labels[k].text;
      if NeedsTruncation(labels[k], rotated, marginBot) {
        text := TruncateLabel(text, labels[k].prefixLength, hypotenuse);
      }
      texts := texts + [text];
    }
  }
}
