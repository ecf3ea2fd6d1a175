/**
 The scanner page's side of the report: the placeholder records it shows
 while a scan runs, and `convertToPdfFormat`, which hands a report to the
 PDF renderer with the transient `loading` status turned into `not_found`.
 */
module ScannerPage {
  import opened Opt
  import opened Tags
  import ScanRoute

  /** The placeholder records, one per platform, all still loading. */
  const InitialTags: seq<Tag> := [
    Tag("gtm", "Google Tag Manager", Loading, None, [], "/google-tag-manager.svg"),
    Tag("ga4", "Google Analytics 4", Loading, None, [], "/google-analytics.svg"),
    Tag("meta", "Meta Pixel", Loading, None, [], "/meta-pixel.svg"),
    Tag("ads", "Google Ads", Loading, None, [], "/google-ads.svg"),
    Tag("microsoft", "Microsoft Advertising", Loading, None, [], "/microsoft.svg"),
    Tag("linkedin", "LinkedIn Insight", Loading, None, [], "/linkedin.svg"),
    Tag("twitter", "Twitter/X Pixel", Loading, None, [], "/twitter.svg"),
    Tag("tiktok", "TikTok Pixel", Loading, None, [], "/tiktok.svg")
  ]

  /** The renderer knows no `loading`: it becomes `not_found`; the other statuses pass through. */
  function PdfStatus(s: Status): (p: Status)
    ensures p != Loading
    ensures s != Loading ==> p == s
    ensures s == Loading ==> p == NotFound
  {
    if s == Loading then NotFound else s
  }

  /** `convertToPdfFormat`. */
  function ConvertToPdfFormat(r: ScanResult): (p: ScanResult)
    ensures p.url == r.url && p.scanDate == r.scanDate && p.cms == r.cms && p.recommendations == r.recommendations
    ensures |p.tags| == |r.tags|
    ensures forall i :: 0 <= i < |r.tags| ==>
              && p.tags[i].kind == r.tags[i].kind
              && p.tags[i].name == r.tags[i].name
              && p.tags[i].id == r.tags[i].id
              && p.tags[i].warnings == r.tags[i].warnings
              && p.tags[i].icon == r.tags[i].icon
              && p.tags[i].status != Loading
              && (r.tags[i].status != Loading ==> p.tags[i].status == r.tags[i].status)
              && (r.tags[i].status == Loading ==> p.tags[i].status == NotFound)
  {
    var tags := seq(|r.tags|, i requires 0 <= i < |r.tags| => r.tags[i].(status := PdfStatus(r.tags[i].status)));
    ScanResult(r.url, r.scanDate, r.cms, tags, r.recommendations)
  }

  /** Converting twice is converting once. */
  lemma ConvertIdempotent(r: ScanResult)
    ensures ConvertToPdfFormat(ConvertToPdfFormat(r)) == ConvertToPdfFormat(r)
  {
    var p := ConvertToPdfFormat(r);
    assert ConvertToPdfFormat(p).tags == p.tags;
  }

  /** A report of the scan route never holds `loading`, so the conversion hands it over unchanged. */
  lemma ConvertKeepsScanReport(html: string, url: string, scanDate: string)
    ensures var r := ScanRoute.DetectTags(html, url, scanDate);
            ConvertToPdfFormat(r) == r
  {
    var r := ScanRoute.DetectTags(html, url, scanDate);
    forall i | 0 <= i < |ScanRoute.Detectors| {
      ScanRoute.ScanRecord(html, i);
    }
    assert ConvertToPdfFormat(r).tags == r.tags;
  }

  /** The placeholders follow the detector table: same platforms, names and icons, in the same order, all loading, without id or warning. */
  lemma InitialTagsFollowDetectors()
    ensures |InitialTags| == |ScanRoute.Detectors|
    ensures forall i :: 0 <= i < |InitialTags| ==>
              && InitialTags[i].kind == ScanRoute.Detectors[i].kind
              && InitialTags[i].name == ScanRoute.Detectors[i].name
              && InitialTags[i].icon == ScanRoute.Detectors[i].icon
              && InitialTags[i].status == Loading
              && InitialTags[i].id == None
              && InitialTags[i].warnings == []
  {
  }

  /** So the placeholders name the same platforms, in the same order and with the same icons, as every scan report. */
  lemma InitialTagsMatchReport(html: string, url: string, scanDate: string)
    ensures var tags := ScanRoute.DetectTags(html, url, scanDate).tags;
            && |InitialTags| == |tags|
            && forall i :: 0 <= i < |tags| ==>
                 InitialTags[i].kind == tags[i].kind && InitialTags[i].name == tags[i].name && InitialTags[i].icon == tags[i].icon
  {
    InitialTagsFollowDetectors();
    forall i | 0 <= i < |ScanRoute.Detectors| {
      ScanRoute.ScanRecord(html, i);
    }
  }

  /** Handing a report that still holds the placeholders to the renderer gives eight missing platforms. */
  lemma PlaceholderReport(url: string, scanDate: string, cms: Option<string>, recommendations: seq<string>)
    ensures var p := ConvertToPdfFormat(ScanResult(url, scanDate, cms, InitialTags, recommendations));
            && |p.tags| == 8
            && forall t <- p.tags :: t.status == NotFound && t.id == None && t.warnings == []
  {
    var p := ConvertToPdfFormat(ScanResult(url, scanDate, cms, InitialTags, recommendations));
    assert forall i :: 0 <= i < |InitialTags| ==> InitialTags[i].status == Loading && InitialTags[i].id == None && InitialTags[i].warnings == [];
    assert forall i :: 0 <= i < |p.tags| ==> p.tags[i].status == NotFound && p.tags[i].id == None && p.tags[i].warnings == [];
  }

}
