/**
 * `PieChart`: one slice per map entry, in the map's iteration order; each sweep is the
 * entry's share of the total times 360 degrees, and slices start at 12 o'clock (-90).
 */
module Chart {
  import opened Sums

  /** A Compose colour as its packed ARGB value. */
  datatype Color = Argb(value: int)

  /** `Color.Gray`. */
  const Gray := Argb(0xFF888888)

  /** One `drawArc` call. */
  datatype Arc = Arc(color: Color, startAngle: real, sweepAngle: real)

  function ValueOf(entry: (string, real)): real { entry.1 }

  /** `data.values.sum()` over the entries in iteration order. */
  function ChartTotal(data: seq<(string, real)>): real
  {
    SumOf(data, ValueOf)
  }

  /** With no negative value the total is non-negative and bounds every value. */
  lemma ChartTotalBounds(data: seq<(string, real)>)
    requires forall entry :: entry in data ==> entry.1 >= 0.0
    ensures ChartTotal(data) >= 0.0
    ensures forall i :: 0 <= i < |data| ==> data[i].1 <= ChartTotal(data)
  {
    SumOfNonNegative(data, ValueOf);
    forall i | 0 <= i < |data| ensures data[i].1 <= ChartTotal(data) {
      TermAtMostSum(data, ValueOf, i);
    }
  }

  /**
   * `angles`: each value over the total, times 360. The sweeps of a non-empty chart add up
   * to a full turn; with a positive total and no negative value each lies within one turn.
   * An empty chart has no sweeps and needs no total.
   */
  function Angles(data: seq<(string, real)>): (angles: seq<real>)
    requires |data| == 0 || ChartTotal(data) != 0.0
    ensures |angles| == |data|
    ensures |data| > 0 ==> Sum(angles) == 360.0
    ensures ChartTotal(data) > 0.0 && (forall entry :: entry in data ==> entry.1 >= 0.0) ==>
      forall i :: 0 <= i < |angles| ==> 0.0 <= angles[i] <= 360.0
  {
    if |data| == 0 then []
    else
      var total := ChartTotal(data);
      var angles := seq(|data|, i requires 0 <= i < |data| => data[i].1 / total * 360.0);
      SharesSumTo360(data, angles);
      SharesWithinTurn(data, angles);
      angles
  }

  /** Sweep `i` is entry `i`'s share of the total, times 360. */
  lemma AnglesAreShares(data: seq<(string, real)>)
    requires |data| == 0 || ChartTotal(data) != 0.0
    ensures forall i :: 0 <= i < |data| ==> Angles(data)[i] == data[i].1 / ChartTotal(data) * 360.0
  {
    if |data| > 0 {
      var angles := Angles(data);
      forall i | 0 <= i < |data| ensures angles[i] == data[i].1 / ChartTotal(data) * 360.0 {
      }
    }
  }

  /** Sweeps proportional to the values add up to 360 degrees. */
  lemma SharesSumTo360(data: seq<(string, real)>, angles: seq<real>)
    requires ChartTotal(data) != 0.0 && |angles| == |data|
    requires forall i :: 0 <= i < |data| ==> angles[i] == data[i].1 / ChartTotal(data) * 360.0
    ensures Sum(angles) == 360.0
  {
    var total := ChartTotal(data);
    var c := 360.0 / total;
    forall i | 0 <= i < |data| ensures angles[i] == ValueOf(data[i]) * c {
      ShareScales(data[i].1, total);
    }
    SumOfScaled(data, ValueOf, angles, c);
    ShareScales(total, total);
  }

  lemma ShareScales(v: real, t: real)
    requires t != 0.0
    ensures v / t * 360.0 == v * (360.0 / t)
    ensures t / t * 360.0 == 360.0
  {
  }

  /** With a positive total and no negative value, every proportional sweep lies within one turn. */
  lemma SharesWithinTurn(data: seq<(string, real)>, angles: seq<real>)
    requires ChartTotal(data) != 0.0 && |angles| == |data|
    requires forall i :: 0 <= i < |data| ==> angles[i] == data[i].1 / ChartTotal(data) * 360.0
    ensures ChartTotal(data) > 0.0 && (forall entry :: entry in data ==> entry.1 >= 0.0) ==>
      forall i :: 0 <= i < |angles| ==> 0.0 <= angles[i] <= 360.0
  {
    var total := ChartTotal(data);
    if total > 0.0 && forall entry :: entry in data ==> entry.1 >= 0.0 {
      ChartTotalBounds(data);
      forall i | 0 <= i < |angles| ensures 0.0 <= angles[i] <= 360.0 {
        assert data[i] in data;
        FractionBounds(data[i].1, total);
      }
    }
  }

  lemma FractionBounds(v: real, t: real)
    requires 0.0 < t && 0.0 <= v <= t
    ensures 0.0 <= v / t <= 1.0
  {
    var q := v / t;
    assert q * t == v;
    assert (1.0 - q) * t == t - v;
  }

  /** `colors.getOrElse(index) { Color.Gray }`: the palette colour at that position, gray past its end. */
  function ColorAt(colors: seq<Color>, index: nat): (c: Color)
    ensures index < |colors| ==> c == colors[index]
    ensures index >= |colors| ==> c == Gray
    ensures c in colors || c == Gray
  {
    if index < |colors| then colors[index] else Gray
  }

  /** Where slice `i` begins: 12 o'clock plus the sweeps of the slices before it. */
  function SliceStart(angles: seq<real>, i: int): real
    requires 0 <= i <= |angles|
  {
    -90.0 + Sum(angles[..i])
  }

  /** Each slice begins where the previous one ends. */
  lemma SliceStartNext(angles: seq<real>, i: int)
    requires 0 <= i < |angles|
    ensures SliceStart(angles, i + 1) == SliceStart(angles, i) + angles[i]
  {
    assert angles[..i + 1][..i] == angles[..i];
  }

  /** After the last slice of a non-empty chart the angle has turned once round, to 270. */
  lemma SlicesEndAt270(data: seq<(string, real)>)
    requires |data| > 0 && ChartTotal(data) != 0.0
    ensures SliceStart(Angles(data), |data|) == 270.0
  {
    assert Angles(data)[..|data|] == Angles(data);
  }

  /** Arcs laid out from consecutive slice starts tile up to the last slice's end. */
  lemma SlicesTile(angles: seq<real>, colors: seq<Color>, arcs: seq<Arc>)
    requires |arcs| == |angles|
    requires forall i :: 0 <= i < |arcs| ==>
      arcs[i] == Arc(ColorAt(colors, i), SliceStart(angles, i), angles[i])
    ensures forall i :: 0 <= i < |arcs| - 1 ==>
      arcs[i + 1].startAngle == arcs[i].startAngle + arcs[i].sweepAngle
    ensures |arcs| > 0 ==>
      arcs[|arcs| - 1].startAngle + arcs[|arcs| - 1].sweepAngle == SliceStart(angles, |angles|)
  {
    forall i | 0 <= i < |arcs| - 1
      ensures arcs[i + 1].startAngle == arcs[i].startAngle + arcs[i].sweepAngle
    {
      SliceStartNext(angles, i);
    }
    if |arcs| > 0 {
      SliceStartNext(angles, |arcs| - 1);
    }
  }

  /**
   * The drawing loop: `startAngle` begins at -90 and advances by each sweep, so slice `i`
   * starts where slice `i - 1` ends, and the last slice ends a full turn later, at 270.
   */
  method PieChart(data: seq<(string, real)>, colors: seq<Color>) returns (arcs: seq<Arc>)
    requires |data| == 0 || ChartTotal(data) != 0.0
    ensures |arcs| == |data|
    ensures forall i :: 0 <= i < |arcs| ==>
      arcs[i] == Arc(ColorAt(colors, i), SliceStart(Angles(data), i), Angles(data)[i])
    ensures forall i :: 0 <= i < |arcs| - 1 ==>
      arcs[i + 1].startAngle == arcs[i].startAngle + arcs[i].sweepAngle
    ensures |arcs| > 0 ==> arcs[|arcs| - 1].startAngle + arcs[|arcs| - 1].sweepAngle == 270.0
  {
    var angles := Angles(data);
    var startAngle := -90.0;
    arcs := [];
    for index := 0 to |angles|
      invariant |arcs| == index
      invariant forall i :: 0 <= i < index ==>
        arcs[i] == Arc(ColorAt(colors, i), SliceStart(angles, i), angles[i])
      invariant startAngle == SliceStart(angles, index)
    {
      var sweepAngle := angles[index];
      arcs := arcs + [Arc(ColorAt(colors, index), startAngle, sweepAngle)];
      SliceStartNext(angles, index);
      startAngle := startAngle + sweepAngle;
    }
    SlicesTile(angles, colors, arcs);
    if |arcs| > 0 {
      SlicesEndAt270(data);
    }
  }
}
