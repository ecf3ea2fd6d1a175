/**
 The records the scanner exchanges: one `Tag` per tracking platform and the
 `ScanResult` report. The scan route and the scanner page declare the same
 shapes; the page adds the transient `loading` status, so `Status` here is
 the page's four-valued union and the route only ever uses `Found` and
 `NotFound` of it. The JSON field `type` is called `kind` (a keyword in Dafny).
 */
module Tags {
  import opened Opt

  datatype Status = Found | NotFound | Warning | Loading

  datatype Tag = Tag(kind: string, name: string, status: Status, id: Option<string>, warnings: seq<string>, icon: string)

  datatype ScanResult = ScanResult(url: string, scanDate: string, cms: Option<string>, tags: seq<Tag>, recommendations: seq<string>)

}
