/** The two-stage data pipeline of turn1modelA/DataPipeline.js: validate the
    input, run the molecular-data processor, feed its output to the phenotype
    tracker, and turn any failure of either stage into one fixed error.

    The stages are `async` in the source; awaiting them is plain sequencing
    here, and a stage is a function from its input to a `Result`. */
module MolecularPipeline {
  import opened JsValues

  /** The argument of `processMolecularData`/`validateInput`, as far as the
      validation can tell values apart. */
  datatype Input = JsNull | JsString(s: string) | JsObject(fields: Record) | JsArray(elems: seq<Record>)

  const InvalidInputMessage: string := "Invalid input: expected a non-empty array."
  const ProcessingFailedMessage: string := "Data processing failed"

  /** One stage of the pipeline: returns its output or throws. */
  type Stage = seq<Record> -> Result<seq<Record>>

  /** The stages a run of the pipeline invoked, in the order it invoked them. */
  datatype StageName = Process | TrackPhenotypes

  /** What one call of `processMolecularData` does: its result (a resolved
      value or the error the promise rejects with) and the stages it called. */
  datatype Run = Run(result: Result<seq<Record>>, invoked: seq<StageName>)

  /** `validateInput`: throws unless the input is an array with an element. */
  function ValidateInput(data: Input): (r: Outcome)
    ensures r == Pass <==> data.JsArray? && |data.elems| >= 1
    ensures r.Fail? ==> r.error == InvalidInputMessage
  {
    if !data.JsArray? || |data.elems| == 0 then Fail(InvalidInputMessage) else Pass
  }

  /** A pipeline holds its two stages, fixed when it is constructed. */
  datatype DataPipeline = DataPipeline(molecularDataProcessor: Stage, phenotypeTracker: Stage)
  {
    /** `processMolecularData`: validation runs outside the `try`, so its error
        escapes unchanged; a failure of either stage becomes the single
        "Data processing failed" error; on success the tracker's output is
        returned as it is. */
    function ProcessMolecularData(data: Input): (run: Run)
      ensures run.invoked <= [Process, TrackPhenotypes]
      ensures run.result.Err? ==> run.result.error in {InvalidInputMessage, ProcessingFailedMessage}
      ensures ValidateInput(data).Fail? <==> run.result == Err(InvalidInputMessage)
      ensures ValidateInput(data).Fail? ==> run.invoked == []
      ensures run.result.Ok? <==>
                && data.JsArray? && |data.elems| >= 1
                && molecularDataProcessor(data.elems).Ok?
                && phenotypeTracker(molecularDataProcessor(data.elems).value).Ok?
      ensures run.result.Ok? ==>
                run.result.value == phenotypeTracker(molecularDataProcessor(data.elems).value).value
    {
      match ValidateInput(data)
      case Fail(e) => Run(Err(e), [])
      case Pass =>
        match molecularDataProcessor(data.elems)
        case Err(_) => Run(Err(ProcessingFailedMessage), [Process])
        case Ok(processedData) =>
          match phenotypeTracker(processedData)
          case Err(_) => Run(Err(ProcessingFailedMessage), [Process, TrackPhenotypes])
          case Ok(trackingResults) => Run(Ok(trackingResults), [Process, TrackPhenotypes])
    }
  }

  /** `items.map(item => ({ ...item, [name]: true }))`, the shape of both mock
      stages: length and order are kept, and every item gains the flag. */
  function FlagAll(items: seq<Record>, name: string): (r: seq<Record>)
    ensures |r| == |items|
    ensures forall i :: 0 <= i < |r| ==>
              && r[i].Keys == items[i].Keys + {name}
              && r[i][name] == Bool(true)
              && forall k :: k in items[i] && k != name ==> r[i][k] == items[i][k]
  {
    seq(|items|, i requires 0 <= i < |items| => WithFlag(items[i], name))
  }

  /** The mock `MolecularDataProcessor.process`: every marker gains
      `processed: true`. */
  function ProcessMarkers(molecularData: seq<Record>): (r: seq<Record>)
    ensures |r| == |molecularData|
    ensures forall i :: 0 <= i < |r| ==> r[i] == WithFlag(molecularData[i], "processed")
  {
    FlagAll(molecularData, "processed")
  }

  /** The mock `PhenotypeTracker.trackPhenotypes`: every item gains
      `tracked: true`. */
  function TrackMarkers(processedData: seq<Record>): (r: seq<Record>)
    ensures |r| == |processedData|
    ensures forall i :: 0 <= i < |r| ==> r[i] == WithFlag(processedData[i], "tracked")
  {
    FlagAll(processedData, "tracked")
  }

  /** The pipeline wired with the two mock stages, neither of which fails. */
  function MockPipeline(): DataPipeline
  {
    DataPipeline(data => Ok(ProcessMarkers(data)), data => Ok(TrackMarkers(data)))
  }

  /** Invalid input never reaches a stage, whatever the stages are, and its
      error is not rewrapped as a processing failure. */
  lemma InvalidInputRunsNoStage(p: DataPipeline, data: Input)
    requires !data.JsArray? || data.elems == []
    ensures p.ProcessMolecularData(data) == Run(Err(InvalidInputMessage), [])
  {
  }

  /** The inputs the test suite rejects: `null`, `{}`, `''` and `[]`. */
  lemma RejectedTestInputs()
    ensures ValidateInput(JsNull) == Fail(InvalidInputMessage)
    ensures ValidateInput(JsObject(map[])) == Fail(InvalidInputMessage)
    ensures ValidateInput(JsString("")) == Fail(InvalidInputMessage)
    ensures ValidateInput(JsArray([])) == Fail(InvalidInputMessage)
  {
  }

  /** A failing processor yields the wrapped error and the tracker is never
      called. */
  lemma ProcessorFailureSkipsTracker(p: DataPipeline, data: Input)
    requires ValidateInput(data).Pass?
    requires p.molecularDataProcessor(data.elems).Err?
    ensures p.ProcessMolecularData(data) == Run(Err(ProcessingFailedMessage), [Process])
  {
  }

  /** A failing tracker yields the same wrapped error, and no partial result. */
  lemma TrackerFailureIsWrapped(p: DataPipeline, data: Input)
    requires ValidateInput(data).Pass?
    requires p.molecularDataProcessor(data.elems).Ok?
    requires p.phenotypeTracker(p.molecularDataProcessor(data.elems).value).Err?
    ensures p.ProcessMolecularData(data) == Run(Err(ProcessingFailedMessage), [Process, TrackPhenotypes])
  {
  }

  /** End to end with the mock stages: one output per input marker, in order,
      each the original marker with both flags set and nothing else changed. */
  lemma MockPipelineFlagsEveryMarker(markers: seq<Record>)
    requires |markers| >= 1
    ensures var run := MockPipeline().ProcessMolecularData(JsArray(markers));
            && run.invoked == [Process, TrackPhenotypes]
            && run.result.Ok?
            && |run.result.value| == |markers|
            && forall i :: 0 <= i < |markers| ==>
                 && run.result.value[i].Keys == markers[i].Keys + {"processed", "tracked"}
                 && run.result.value[i]["processed"] == Bool(true)
                 && run.result.value[i]["tracked"] == Bool(true)
                 && forall k :: k in markers[i] && k !in {"processed", "tracked"} ==>
                      run.result.value[i][k] == markers[i][k]
  {
    var run := MockPipeline().ProcessMolecularData(JsArray(markers));
    var processed := ProcessMarkers(markers);
    assert run.result == Ok(TrackMarkers(processed));
    forall i | 0 <= i < |markers|
      ensures run.result.value[i] == WithFlag(WithFlag(markers[i], "processed"), "tracked")
    {
    }
  }

  /** The test suite's example: markers A and B come back processed and
      tracked. */
  lemma MockPipelineTestVector()
    ensures MockPipeline().ProcessMolecularData(JsArray([map["marker" := Str("A")], map["marker" := Str("B")]])).result
         == Ok([map["marker" := Str("A"), "processed" := Bool(true), "tracked" := Bool(true)],
                map["marker" := Str("B"), "processed" := Bool(true), "tracked" := Bool(true)]])
  {
    var markers := [map["marker" := Str("A")], map["marker" := Str("B")]];
    var expected := [map["marker" := Str("A"), "processed" := Bool(true), "tracked" := Bool(true)],
                     map["marker" := Str("B"), "processed" := Bool(true), "tracked" := Bool(true)]];
    var processed := ProcessMarkers(markers);
    assert processed == [WithFlag(markers[0], "processed"), WithFlag(markers[1], "processed")];
    var out := TrackMarkers(processed);
    assert out == [WithFlag(processed[0], "tracked"), WithFlag(processed[1], "tracked")];
    assert out == expected;
    assert MockPipeline().ProcessMolecularData(JsArray(markers)).result == Ok(out);
  }
}
