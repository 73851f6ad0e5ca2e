/** The p5 sketch of the metrics: `setup` turns every metric into a circle
    with a category, a radius and a label; drawing picks a colour per
    category and highlights positive answers. Angles, pulse offsets and the
    drawing geometry are not modelled; a circle records its position in the
    data instead of its angle. */
module MetricsP5 {
  import opened WebsiteAnalyzer

  const Other: string := "other"

  const PerformanceMetrics: seq<string> := ["Page Load Time", "Page Size", "Largest Contentful Paint"]
  const SeoMetrics: seq<string> :=
    ["Meta Description", "H1 Tag", "Canonical Tag", "Meta Keywords", "Title Tag", "Robots Meta"]
  const SecurityMetrics: seq<string> :=
    ["HTTPS", "Content Security Policy", "X-Frame-Options", "X-Content-Type-Options"]
  const AccessibilityMetrics: seq<string> := ["Image Alt Tags", "ARIA Labels", "HTML Lang Attribute", "Skip Links"]

  /** The category table, in declaration order. */
  const Categories: seq<(string, seq<string>)> := [
    ("performance", PerformanceMetrics),
    ("seo", SeoMetrics),
    ("security", SecurityMetrics),
    ("accessibility", AccessibilityMetrics)
  ]

  /** The first category from position `from` on whose list holds `name`,
      or "other". */
  function FirstCategory(table: seq<(string, seq<string>)>, name: string, from: nat): (c: string)
    requires from <= |table|
    ensures c == Other || exists k :: from <= k < |table| && c == table[k].0 && name in table[k].1
    ensures (forall k :: from <= k < |table| ==> name !in table[k].1) ==> c == Other
    ensures forall k :: from <= k < |table| && name in table[k].1 && (forall l :: from <= l < k ==> name !in table[l].1) ==>
              c == table[k].0
    decreases |table| - from
  {
    if from == |table| then Other
    else if name in table[from].1 then table[from].0
    else FirstCategory(table, name, from + 1)
  }

  /** `Object.entries(categories).find(…)?.[0] || 'other'`. */
  function CategoryOf(name: string): string {
    FirstCategory(Categories, name, 0)
  }

  /** Every circle gets one of the four tabled categories or "other", so
      the colour lookup never needs its fallback for a circle `setup` made;
      a name listed nowhere is "other". */
  lemma CategoryIsTabledOrOther(name: string)
    ensures CategoryOf(name) in {"performance", "seo", "security", "accessibility", Other}
    ensures CategoryOf(name) == Other <==> forall k :: 0 <= k < |Categories| ==> name !in Categories[k].1
  {
    if CategoryOf(name) != Other {
      var k :| 0 <= k < |Categories| && CategoryOf(name) == Categories[k].0 && name in Categories[k].1;
    }
  }

  /** Two names told apart by their length or their first character. */
  predicate Distinct(a: string, b: string) {
    |a| != |b| || (|a| > 0 && |b| > 0 && a[0] != b[0])
  }

  lemma NotListed(name: string, list: seq<string>)
    requires forall k :: 0 <= k < |list| ==> Distinct(list[k], name)
    ensures name !in list
  {
  }

  /** The category of a name listed under category `k` and under none
      before it. */
  lemma CategoryOfListed(name: string, k: nat)
    requires k < |Categories| && name in Categories[k].1
    requires forall l :: 0 <= l < k ==> forall m :: 0 <= m < |Categories[l].1| ==> Distinct(Categories[l].1[m], name)
    ensures CategoryOf(name) == Categories[k].0
  {
    forall l | 0 <= l < k
      ensures name !in Categories[l].1
    {
      NotListed(name, Categories[l].1);
    }
  }

  /** The analyser's performance metrics are in the performance category. */
  lemma LoadTimeAndSizeArePerformance()
    ensures CategoryOf("Page Load Time") == "performance"
    ensures CategoryOf("Page Size") == "performance"
  {
    CategoryOfListed("Page Load Time", 0);
    CategoryOfListed("Page Size", 0);
  }

  /** The meta description and the h1 check are in the seo category. */
  lemma MetaAndH1AreSeo()
    ensures CategoryOf("Meta Description") == "seo"
    ensures CategoryOf("H1 Tag") == "seo"
  {
    CategoryOfListed("Meta Description", 1);
    CategoryOfListed("H1 Tag", 1);
  }

  /** The HTTPS check is in the security category. */
  lemma HttpsIsSecurity()
    ensures CategoryOf("HTTPS") == "security"
  {
    CategoryOfListed("HTTPS", 2);
  }

  /** The alt-tag check is in the accessibility category. */
  lemma AltTagsAreAccessibility()
    ensures CategoryOf("Image Alt Tags") == "accessibility"
  {
    CategoryOfListed("Image Alt Tags", 3);
  }

  /** A positive answer. */
  predicate IsPositive(v: string) {
    v == "Present" || v == "Yes"
  }

  /** A circle of the sketch; `position` is the index `i` the angle is
      computed from. */
  datatype Circle = Circle(position: nat, radius: nat, category: string, value: string, caption: string)

  function RadiusOf(value: string): (r: nat)
    ensures r == 150 <==> IsPositive(value)
    ensures r == 100 <==> !IsPositive(value)
  {
    if IsPositive(value) then 150 else 100
  }

  /** The circle `setup` pushes for entry `i`. */
  function CircleOf(d: Metric, i: nat): (c: Circle)
    ensures c.position == i && c.caption == d.metric && c.value == d.value
    ensures c.category == CategoryOf(d.metric)
    ensures c.radius == RadiusOf(d.value)
  {
    Circle(i, RadiusOf(d.value), CategoryOf(d.metric), d.value, d.metric)
  }

  /** "All Present" is not a positive answer: it gets the small radius. */
  lemma AllPresentGetsSmallRadius(metric: string)
    ensures CircleOf(Metric(metric, "All Present"), 0).radius == 100
  {
    assert "All Present" != "Present" by {
      assert |"All Present"| != |"Present"|;
    }
  }

  datatype Rgb = Rgb(r: nat, g: nat, b: nat)

  /** `categoryColors[category] || categoryColors.other`. */
  function ColourOf(category: string): (c: Rgb)
    ensures category !in {"performance", "seo", "security", "accessibility"} ==> c == Rgb(156, 163, 175)
  {
    if category == "performance" then Rgb(252, 82, 74)
    else if category == "seo" then Rgb(56, 189, 248)
    else if category == "security" then Rgb(34, 197, 94)
    else if category == "accessibility" then Rgb(168, 85, 247)
    else Rgb(156, 163, 175)
  }

  /** Whether `draw` paints the outer glow around a circle. */
  predicate DrawsGlow(c: Circle) {
    IsPositive(c.value)
  }

  /** The colour of the value indicator above a circle. */
  function IndicatorColour(c: Circle): (colour: string)
    ensures colour == "#4ade80" <==> IsPositive(c.value)
    ensures colour == "#ef4444" <==> !IsPositive(c.value)
  {
    if IsPositive(c.value) then "#4ade80" else "#ef4444"
  }

  /** A circle built by `setup` glows and shows a green indicator exactly
      when it has the large radius. */
  lemma GlowMatchesRadius(d: Metric, i: nat)
    ensures DrawsGlow(CircleOf(d, i)) <==> CircleOf(d, i).radius == 150
    ensures IndicatorColour(CircleOf(d, i)) == "#4ade80" <==> CircleOf(d, i).radius == 150
  {
  }

  class Sketch {
    var circles: seq<Circle>

    constructor()
      ensures circles == []
    {
      circles := [];
    }

    /** `setup`: one circle pushed per entry, in data order. */
    method Setup(data: seq<Metric>)
      modifies this
      ensures |circles| == |old(circles)| + |data|
      ensures circles[..|old(circles)|] == old(circles)
      ensures forall i :: 0 <= i < |data| ==> circles[|old(circles)| + i] == CircleOf(data[i], i)
    {
      var i := 0;
      while i < |data|
        invariant 0 <= i <= |data|
        invariant |circles| == |old(circles)| + i
        invariant circles[..|old(circles)|] == old(circles)
        invariant forall j :: 0 <= j < i ==> circles[|old(circles)| + j] == CircleOf(data[j], j)
      {
        circles := circles + [CircleOf(data[i], i)];
        i := i + 1;
      }
    }
  }
}
