/** `ChartArea`: the background canvas. On every paint it captures the
    control's client rectangle and derives the plot rectangle from it by
    shrinking each side by `Border` pixels. */
module ChartArea {

  /** `System.Drawing.Rectangle` with unbounded integer fields. */
  datatype Rect = Rect(x: int, y: int, width: int, height: int) {
    function Bottom(): int { y + height }
    function Right(): int { x + width }
  }

  /** `Rectangle.Inflate(dx, dy)`: the left and right sides move outwards by
      dx, the top and bottom by dy (inwards when negative), so the centre
      stays where it was. */
  function Inflate(r: Rect, dx: int, dy: int): (i: Rect)
    ensures i.x == r.x - dx && i.Right() == r.Right() + dx
    ensures i.y == r.y - dy && i.Bottom() == r.Bottom() + dy
    ensures 2 * i.x + i.width == 2 * r.x + r.width
    ensures 2 * i.y + i.height == 2 * r.y + r.height
  {
    Rect(r.x - dx, r.y - dy, r.width + 2 * dx, r.height + 2 * dy)
  }

  /** Inflating by (dx, dy) is undone by inflating by (-dx, -dy). */
  lemma InflateUndone(r: Rect, dx: int, dy: int)
    ensures Inflate(Inflate(r, dx, dy), -dx, -dy) == r
  {
  }

  datatype Area = Area(border: int, chartRect: Rect, plotRect: Rect)

  /** A new area: border 0 and both rectangles empty until the first paint. */
  function New(): (a: Area)
    ensures a.border == 0
    ensures a.chartRect == Rect(0, 0, 0, 0) && a.plotRect == Rect(0, 0, 0, 0)
  {
    Area(0, Rect(0, 0, 0, 0), Rect(0, 0, 0, 0))
  }

  /** The `Border` setter stores any int; the rectangles keep their last
      computed values until the next `Draw`. */
  function SetBorder(a: Area, b: int): (r: Area)
    ensures r.border == b
    ensures r.chartRect == a.chartRect && r.plotRect == a.plotRect
  {
    a.(border := b)
  }

  /** The rectangle part of `Draw`: the chart rectangle becomes the client
      rectangle and the plot rectangle is it shrunk by `Border` on every side. */
  function Draw(a: Area, client: Rect): (r: Area)
    ensures r.border == a.border
    ensures r.chartRect == client
    ensures r.plotRect == Rect(client.x + a.border, client.y + a.border,
                               client.width - 2 * a.border, client.height - 2 * a.border)
  {
    a.(chartRect := client, plotRect := Inflate(client, -a.border, -a.border))
  }

  /** The plot rectangle has the same centre as the chart rectangle. */
  lemma PlotCentred(a: Area, client: Rect)
    ensures var r := Draw(a, client);
            && 2 * r.plotRect.x + r.plotRect.width == 2 * r.chartRect.x + r.chartRect.width
            && 2 * r.plotRect.y + r.plotRect.height == 2 * r.chartRect.y + r.chartRect.height
  {
  }

  /** A non-negative border keeps the plot rectangle inside the chart
      rectangle; a negative one makes it strictly larger. */
  lemma PlotInsideChart(a: Area, client: Rect)
    ensures var r := Draw(a, client);
            a.border >= 0 ==>
              && r.chartRect.x <= r.plotRect.x && r.plotRect.Right() <= r.chartRect.Right()
              && r.chartRect.y <= r.plotRect.y && r.plotRect.Bottom() <= r.chartRect.Bottom()
    ensures var r := Draw(a, client);
            a.border < 0 ==>
              r.plotRect.width > r.chartRect.width && r.plotRect.height > r.chartRect.height
  {
  }

  /** With the default border of 0 the plot rectangle is the chart rectangle. */
  lemma ZeroBorderPlotIsChart(client: Rect)
    ensures Draw(New(), client).plotRect == client
  {
  }
}
