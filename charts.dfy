/**
  An abstract description of the two plotly figures the dashboard builds:
  what `px.pie` and `px.scatter` are given, not how they are drawn.
 */
module Charts {
  import opened Wrappers

  /** One pie slice: the name shown and the value its share is computed from. */
  datatype Slice = Slice(name: string, value: nat)

  /** A scatter coordinate: a numeric column value, or the text of a placeholder point. */
  datatype Coord = Num(n: int) | Label(text: string)

  /** One scatter point; `color` is its colour category, absent on a placeholder. */
  datatype Point = Point(x: Coord, y: Coord, color: Option<string>)

  /** The visible x-axis interval, as handed to `update_xaxes(range=...)`. */
  datatype AxisRange = AxisRange(lo: int, hi: int)

  /**
    A pie carries its slices and the colour assigned to each slice name
    (empty when plotly's default colours are used); a scatter carries its
    series and the x-axis range, absent when the axis is left to plotly.
   */
  datatype Chart =
    | Pie(title: string, slices: seq<Slice>, colors: map<string, string>)
    | Scatter(title: string, points: seq<Point>, xRange: Option<AxisRange>)

  function Names(slices: seq<Slice>): seq<string> {
    seq(|slices|, i requires 0 <= i < |slices| => slices[i].name)
  }

  function Sum(slices: seq<Slice>): nat {
    if slices == [] then 0 else slices[0].value + Sum(slices[1..])
  }
}
