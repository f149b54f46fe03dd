/**
 * Concrete call sequences on a new builder, with what the builder's contracts
 * guarantee about their outcome. The first three build a new engine as well;
 * the first and third follow the builder's test suite, the others exercise
 * its validation and setters on a given engine.
 */
module ReportScenarios {
  import opened Wrappers
  import opened JavaStrings
  import PageSizes
  import PageOrientations
  import opened ReportEngines
  import opened ReportBuilders

  /** Data set but no template: `generateAsBytes` throws `IllegalStateException` and the engine receives nothing. */
  method GenerateWithoutTemplate(pipeline: Request -> Outcome) returns (r: Result<seq<byte>, Error>, ghost received: seq<Request>)
    ensures r == Err(IllegalState(MissingTemplateMessage))
    ensures received == []
  {
    var engine := new ReportEngine(pipeline);
    var b := new ReportBuilder(engine);
    b := b.WithData("title", Text("Test"));
    r := b.GenerateAsBytes();
    received := engine.requests;
  }

  /** A template name of spaces and control characters is as good as none. */
  method GenerateWithBlankTemplate(pipeline: Request -> Outcome) returns (r: Result<(), Error>, ghost received: seq<Request>)
    ensures r == Err(IllegalState(MissingTemplateMessage))
    ensures received == []
  {
    var engine := new ReportEngine(pipeline);
    var b := new ReportBuilder(engine);
    b := b.WithTemplate(Some(" \t\n"));
    assert AllTrimmable(" \t\n");
    r := b.GenerateToFile("out.pdf");
    received := engine.requests;
  }

  /**
   * Landscape, A4 and the caller's map, then `generateAsBytes`: the engine
   * receives exactly one request, whose data model holds the caller's entries
   * and both reserved entries; the caller's own map gains neither.
   */
  method OrientationInDataModel(pipeline: Request -> Outcome) returns (caller: DataModel, ghost received: seq<Request>)
    ensures OrientationKey !in caller && PageSizeKey !in caller
    ensures |received| == 1 && received[0].templateName == "landscape-report.ftl" && received[0].sink == Buffer
    ensures received[0].data == caller[OrientationKey := Text("landscape")][PageSizeKey := Text("A4")]
  {
    caller := map["title" := Text("Test Report"), "generatedDate" := Text("2026-02-26")];
    assert OrientationKey !in caller && PageSizeKey !in caller;
    var engine := new ReportEngine(pipeline);
    var b := new ReportBuilder(engine);
    b := b.WithTemplate(Some("landscape-report.ftl"));
    b := b.Landscape();
    b := b.WithPageSize(PageSizes.A4);
    b := b.WithAllData(caller);
    assert !IsTrimmable("landscape-report.ftl"[0]);
    var _ := b.GenerateAsBytes();
    received := engine.requests;
    ReservedUnderCaller(caller, Text("landscape"), Text("A4"));
  }

  /** Reserved entries written before a caller's map without reserved keys is merged sit beside its entries, as if written after. */
  lemma ReservedUnderCaller(caller: DataModel, o: Value, s: Value)
    requires OrientationKey !in caller && PageSizeKey !in caller
    ensures map[OrientationKey := o][PageSizeKey := s] + caller == caller[OrientationKey := o][PageSizeKey := s]
  {
  }

  /** `landscape()` then `portrait()`: the last orientation set wins, in the field and in the reserved entry. */
  method LandscapeThenPortrait(engine: ReportEngine) returns (orientation: PageOrientations.PageOrientation, entry: Option<Value>)
    ensures orientation == PageOrientations.Portrait
    ensures entry == Some(Text("portrait"))
  {
    var b := new ReportBuilder(engine);
    b := b.Landscape();
    b := b.Portrait();
    orientation := b.orientation;
    entry := if OrientationKey in b.data then Some(b.data[OrientationKey]) else None;
  }

  /** `clearData()` after the geometry setters drops both reserved entries but keeps the geometry fields. */
  method ClearAfterGeometry(engine: ReportEngine) returns (data: DataModel, orientation: PageOrientations.PageOrientation, size: PageSizes.PageSize)
    ensures data == map[]
    ensures orientation == PageOrientations.Landscape && size == PageSizes.Letter
  {
    var b := new ReportBuilder(engine);
    b := b.Landscape();
    b := b.WithPageSize(PageSizes.Letter);
    b := b.ClearData();
    data, orientation, size := b.data, b.orientation, b.pageSize;
  }

  /** Caller data under a reserved key and the geometry setter overwrite each other: the later call wins. */
  method ReservedKeyCollision(engine: ReportEngine) returns (sizeThenData: Value, dataThenSize: Value)
    ensures sizeThenData == Text("custom")
    ensures dataThenSize == Text("legal")
  {
    var b := new ReportBuilder(engine);
    b := b.WithPageSize(PageSizes.A4);
    b := b.WithData(PageSizeKey, Text("custom"));
    sizeThenData := b.data[PageSizeKey];
    b := b.WithAllData(map[PageSizeKey := Text("custom")]);
    b := b.WithPageSize(PageSizes.Legal);
    dataThenSize := b.data[PageSizeKey];
  }
}
