/** The website audit: the six metrics built from what was fetched and
    parsed. The fetch, the timing and the HTML parser are not modelled; what
    they yield is a `PageFacts` value, or nothing when the fetch failed. */
module WebsiteAnalyzer {
  import opened Common

  const AnalyzeFailure: string := "Failed to analyze website"

  /** `{ metric, value }` as shown by the metrics display. */
  datatype Metric = Metric(metric: string, value: string)

  /** What the page yielded: the load time and size already formatted with
      two decimals, whether a meta description and an h1 were found, and for
      each img whether it has an alt attribute. */
  datatype PageFacts = PageFacts(
    loadTimeSeconds: string,
    pageSizeKb: string,
    hasMetaDescription: bool,
    hasH1: bool,
    imageHasAlt: seq<bool>)

  const MetricNames: seq<string> := ["Page Load Time", "Page Size", "HTTPS", "Meta Description", "H1 Tag", "Image Alt Tags"]

  /** Number of images with an alt attribute (`imagesWithAlt.length`). */
  function CountWithAlt(imageHasAlt: seq<bool>): (n: nat)
    ensures n <= |imageHasAlt|
    ensures n == |imageHasAlt| <==> forall i :: 0 <= i < |imageHasAlt| ==> imageHasAlt[i]
    ensures n > 0 <==> exists i :: 0 <= i < |imageHasAlt| && imageHasAlt[i]
  {
    if imageHasAlt == [] then 0
    else (if imageHasAlt[0] then 1 else 0) + CountWithAlt(imageHasAlt[1..])
  }

  function HttpsValue(url: string): string {
    if StartsWith(url, "https") then "Yes" else "No"
  }

  function PresenceValue(found: bool): string {
    if found then "Present" else "Missing"
  }

  function AltTagsValue(imageHasAlt: seq<bool>): string {
    var withAlt := CountWithAlt(imageHasAlt);
    if withAlt == |imageHasAlt| then "All Present"
    else if withAlt > 0 then "Partially Present"
    else "Missing"
  }

  /** The alt-tag classification: "All Present" when every image has alt,
      a page without images included; "Missing" only when there are images
      and none has alt; "Partially Present" in between. */
  lemma AltTagsThreeWay(imageHasAlt: seq<bool>)
    ensures AltTagsValue(imageHasAlt) == "All Present" <==> forall i :: 0 <= i < |imageHasAlt| ==> imageHasAlt[i]
    ensures AltTagsValue(imageHasAlt) == "Missing" <==>
              |imageHasAlt| > 0 && forall i :: 0 <= i < |imageHasAlt| ==> !imageHasAlt[i]
    ensures AltTagsValue(imageHasAlt) == "Partially Present" <==>
              (exists i :: 0 <= i < |imageHasAlt| && imageHasAlt[i])
              && (exists i :: 0 <= i < |imageHasAlt| && !imageHasAlt[i])
  {
    if |imageHasAlt| > 0 && forall i :: 0 <= i < |imageHasAlt| ==> !imageHasAlt[i] {
      assert !imageHasAlt[0];
    }
  }

  /** The metrics list for a page that was fetched. */
  function Metrics(url: string, page: PageFacts): seq<Metric> {
    [ Metric("Page Load Time", page.loadTimeSeconds + "s"),
      Metric("Page Size", page.pageSizeKb + "KB"),
      Metric("HTTPS", HttpsValue(url)),
      Metric("Meta Description", PresenceValue(page.hasMetaDescription)),
      Metric("H1 Tag", PresenceValue(page.hasH1)),
      Metric("Image Alt Tags", AltTagsValue(page.imageHasAlt)) ]
  }

  /** Exactly six metrics, always under the same names in the same order;
      HTTPS is "Yes" exactly for a URL starting with "https" (case
      sensitive), and the meta description and h1 are "Present" exactly
      when found. */
  lemma MetricsShape(url: string, page: PageFacts)
    ensures |Metrics(url, page)| == 6
    ensures forall i :: 0 <= i < 6 ==> Metrics(url, page)[i].metric == MetricNames[i]
    ensures Metrics(url, page)[2].value == "Yes" <==> StartsWith(url, "https")
    ensures Metrics(url, page)[2].value == "No" <==> !StartsWith(url, "https")
    ensures Metrics(url, page)[3].value == "Present" <==> page.hasMetaDescription
    ensures Metrics(url, page)[4].value == "Present" <==> page.hasH1
  {
  }

  /** "http://…" is never reported as HTTPS, "https…" always is, whatever
      follows. */
  lemma HttpsIsPrefixTest(rest: string)
    ensures HttpsValue("https" + rest) == "Yes"
    ensures HttpsValue("http:" + rest) == "No"
  {
    assert ("https" + rest)[..5] == "https";
    assert ("http:" + rest)[..5][4] == ':' != "https"[4];
  }

  /** `analyzeWebsite`: the first three metrics, then meta description, h1
      and alt tags pushed in turn; any failure becomes the single error
      "Failed to analyze website". */
  method AnalyzeWebsite(url: string, fetched: Option<PageFacts>) returns (r: Result<seq<Metric>, string>)
    ensures fetched.None? ==> r == Err(AnalyzeFailure)
    ensures fetched.Some? ==> r == Ok(Metrics(url, fetched.value))
  {
    if fetched.None? {
      return Err(AnalyzeFailure);
    }
    var page := fetched.value;
    var metrics := [
      Metric("Page Load Time", page.loadTimeSeconds + "s"),
      Metric("Page Size", page.pageSizeKb + "KB"),
      Metric("HTTPS", if StartsWith(url, "https") then "Yes" else "No")
    ];
    metrics := metrics + [Metric("Meta Description", if page.hasMetaDescription then "Present" else "Missing")];
    metrics := metrics + [Metric("H1 Tag", if page.hasH1 then "Present" else "Missing")];
    var withAlt := CountWithAlt(page.imageHasAlt);
    var altValue := if withAlt == |page.imageHasAlt| then "All Present"
                    else if withAlt > 0 then "Partially Present" else "Missing";
    metrics := metrics + [Metric("Image Alt Tags", altValue)];
    assert metrics == Metrics(url, page) by {
      assert |metrics| == 6;
      assert forall i :: 0 <= i < 6 ==> metrics[i] == Metrics(url, page)[i];
    }
    r := Ok(metrics);
  }
}
