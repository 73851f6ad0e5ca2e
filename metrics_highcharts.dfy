/** The pie chart's data: of the metrics, only those whose value is a
    yes/no answer become slices, green for a positive answer and red for a
    negative one. */
module MetricsHighcharts {
  import opened WebsiteAnalyzer

  const Green: string := "#4ade80"
  const Red: string := "#ef4444"

  /** A value the chart can show as a slice. */
  predicate IsPresenceValue(v: string) {
    v == "Present" || v == "Missing" || v == "Yes" || v == "No"
  }

  /** A positive answer. */
  predicate IsPositive(v: string) {
    v == "Present" || v == "Yes"
  }

  /** `{ name, y, color, status }`. */
  datatype Point = Point(name: string, y: int, color: string, status: string)

  function ToPoint(d: Metric): (p: Point)
    ensures p.name == d.metric && p.status == d.value
    ensures p.y == 1 <==> IsPositive(d.value)
    ensures p.y == 0 <==> !IsPositive(d.value)
    ensures p.color == Green <==> p.y == 1
    ensures p.color == Red <==> p.y == 0
  {
    Point(d.metric, if IsPositive(d.value) then 1 else 0, if IsPositive(d.value) then Green else Red, d.value)
  }

  /** `presenceData`: the filter, then the map. */
  function PresenceData(data: seq<Metric>): (r: seq<Point>)
    ensures |r| <= |data|
    ensures forall k :: 0 <= k < |r| ==> IsPresenceValue(r[k].status)
    ensures forall k :: 0 <= k < |r| ==> (r[k].y == 1 || r[k].y == 0)
    ensures forall k :: 0 <= k < |r| ==> (r[k].color == Green <==> IsPositive(r[k].status))
  {
    if data == [] then []
    else (if IsPresenceValue(data[0].value) then [ToPoint(data[0])] else []) + PresenceData(data[1..])
  }

  /** The transform works entry by entry and keeps the order: the chart of
      two lists in a row is the two charts in a row. */
  lemma {:induction false} PresenceDataAppend(a: seq<Metric>, b: seq<Metric>)
    ensures PresenceData(a + b) == PresenceData(a) + PresenceData(b)
    decreases |a|
  {
    if a == [] {
      assert a + b == b;
    } else {
      var head := if IsPresenceValue(a[0].value) then [ToPoint(a[0])] else [];
      assert (a + b)[0] == a[0] && (a + b)[1..] == a[1..] + b;
      assert PresenceData(a + b) == head + PresenceData(a[1..] + b);
      PresenceDataAppend(a[1..], b);
      assert head + (PresenceData(a[1..]) + PresenceData(b)) == (head + PresenceData(a[1..])) + PresenceData(b);
    }
  }

  /** A slice is the point of an input entry with a yes/no value, and every
      such entry gets a slice. */
  lemma {:induction false} PresenceDataMembers(data: seq<Metric>)
    ensures forall p :: p in PresenceData(data) <==>
                        exists i :: 0 <= i < |data| && IsPresenceValue(data[i].value) && p == ToPoint(data[i])
  {
    if data != [] {
      PresenceDataMembers(data[1..]);
      forall p
        ensures p in PresenceData(data) <==>
                exists i :: 0 <= i < |data| && IsPresenceValue(data[i].value) && p == ToPoint(data[i])
      {
        if p in PresenceData(data[1..]) {
          var i :| 0 <= i < |data[1..]| && IsPresenceValue(data[1..][i].value) && p == ToPoint(data[1..][i]);
          assert data[i + 1] == data[1..][i];
        }
        if exists i :: 0 <= i < |data| && IsPresenceValue(data[i].value) && p == ToPoint(data[i]) {
          var i :| 0 <= i < |data| && IsPresenceValue(data[i].value) && p == ToPoint(data[i]);
          if i > 0 {
            assert data[1..][i - 1] == data[i];
          }
        }
      }
    }
  }

  /** An entry that is not a yes/no answer ("All Present", "Partially
      Present", a load time) makes the chart strictly shorter than the
      input. */
  lemma {:induction false} DroppedEntryShortens(data: seq<Metric>, i: nat)
    requires i < |data| && !IsPresenceValue(data[i].value)
    ensures |PresenceData(data)| < |data|
  {
    if i > 0 {
      assert data[1..][i - 1] == data[i];
      DroppedEntryShortens(data[1..], i - 1);
    }
  }
}
