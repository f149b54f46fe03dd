/**
 * The report engine as the builder uses it. Template expansion (FreeMarker)
 * and HTML-to-PDF conversion (Flying Saucer) are not part of this model: what
 * the two stages together make of a request is the engine's `pipeline`, a
 * function fixed when the engine is built. What the model keeps is the log of
 * requests the engine receives and the way a failure of either stage is
 * reported to the caller.
 */
module ReportEngines {
  import opened Wrappers

  newtype byte = b: int | 0 <= b < 256

  /**
   * A value of the data model. The builder never looks inside a value except
   * for the strings it writes itself; numbers, lists and nested maps are
   * `Other`, told apart only by an opaque handle.
   */
  datatype Value = Null | Text(text: string) | Other(handle: nat)

  /** The data model handed to the template: entry names to values. */
  type DataModel = map<string, Value>

  /** Where the PDF goes: a caller's output stream, a file, or an in-memory buffer whose bytes are returned. */
  datatype Sink = Stream(id: nat) | File(path: string) | Buffer

  /** One call of `generateReport`, as the engine receives it. */
  datatype Request = Request(templateName: string, data: DataModel, sink: Sink)

  /** What the two stages make of a request: the PDF bytes, or the message of the exception one of them threw. */
  datatype Outcome = Rendered(pdf: seq<byte>) | Failed(cause: string)

  /**
   * The two exceptions a caller of the builder can see: `IllegalStateException`
   * from the builder's own check, and `ReportGenerationException` from the engine.
   */
  datatype Error = IllegalState(message: string) | ReportGeneration(message: string)

  /** The message prefix of every `ReportGenerationException` the engine's catch-all throws. */
  const GenerationFailurePrefix := "Failed to generate report: "

  /**
   * The catch-all around both stages: the PDF on success; otherwise a
   * `ReportGenerationException` whose message is the prefix followed by the
   * message of the exception that was caught.
   */
  function Wrap(outcome: Outcome): (r: Result<seq<byte>, Error>)
    ensures r.Ok? <==> outcome.Rendered?
    ensures outcome.Rendered? ==> r.value == outcome.pdf
    ensures outcome.Failed? ==>
      && r.error.ReportGeneration?
      && |r.error.message| == |GenerationFailurePrefix| + |outcome.cause|
      && r.error.message[..|GenerationFailurePrefix|] == GenerationFailurePrefix
      && r.error.message[|GenerationFailurePrefix|..] == outcome.cause
  {
    match outcome
    case Rendered(pdf) => Ok(pdf)
    case Failed(cause) => Err(ReportGeneration(GenerationFailurePrefix + cause))
  }

  class ReportEngine {
    /** Template expansion followed by HTML-to-PDF conversion, as one function of the request. */
    const pipeline: Request -> Outcome
    /** Every request the engine has received, oldest first. */
    ghost var requests: seq<Request>

    constructor (pipeline: Request -> Outcome)
      ensures this.pipeline == pipeline && requests == []
    {
      this.pipeline := pipeline;
      requests := [];
    }

    /**
     * `generateReport` (to a stream or a file) and `generateReportAsBytes`
     * (to a buffer): run both stages on the request and report the outcome
     * through the catch-all.
     */
    method GenerateReport(templateName: string, data: DataModel, sink: Sink) returns (r: Result<seq<byte>, Error>)
      modifies this
      ensures requests == old(requests) + [Request(templateName, data, sink)]
      ensures r == Wrap(pipeline(Request(templateName, data, sink)))
    {
      var request := Request(templateName, data, sink);
      requests := requests + [request];
      r := Wrap(pipeline(request));
    }
  }
}
