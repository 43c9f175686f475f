/**
 The intra-day report handler: it runs the three stages of a report (generate
 the data, prepare it for export, export it) one after the other, and stops at
 the first stage that fails, handing on that stage's errors unchanged. The
 stages are parameters: A is the generated data, R the prepared report.
 */
module IntraDayReportHandler {
  import opened Entities

  /** A call the handler makes to a stage, with the arguments it passes. */
  datatype StageCall<A, R> = GenerateCall(date: DateTime) | PrepareCall(data: A) | ExportCall(report: R, exportPath: string)

  /** What GenerateReportAsync returns, with the stage calls it made, in order. */
  datatype Run<A, R> = Run(result: Result<()>, calls: seq<StageCall<A, R>>)

  /** A stage outcome with its value dropped: success, or the same errors. */
  function Outcome<T>(r: Result<T>): (o: Result<()>)
    ensures o.Ok? <==> r.Ok?
    ensures r.Fail? ==> o.errors == r.errors
  {
    match r
    case Ok(_) => Ok(())
    case Fail(errors) => Fail(errors)
  }

  /** The outcome of one stage call. */
  function CallOutcome<A, R>(call: StageCall<A, R>, generate: DateTime -> Result<A>, prepare: A -> Result<R>,
                             exportData: (R, string) -> Result<()>): (outcome: Result<()>)
  {
    match call
    case GenerateCall(date) => Outcome(generate(date))
    case PrepareCall(data) => Outcome(prepare(data))
    case ExportCall(report, exportPath) => exportData(report, exportPath)
  }

  /** The place of a stage in the chain: generate, then prepare, then export. */
  function StageIndex<A, R>(call: StageCall<A, R>): (index: nat)
  {
    match call
    case GenerateCall(_) => 0
    case PrepareCall(_) => 1
    case ExportCall(_, _) => 2
  }

  /**
   Call `next` receives, unchanged, the value that call `previous` produced; the
   export also receives the caller's export path.
   */
  predicate Feeds<A(==), R(==)>(previous: StageCall<A, R>, next: StageCall<A, R>, exportPath: string,
                                generate: DateTime -> Result<A>, prepare: A -> Result<R>)
  {
    match (previous, next)
    case (GenerateCall(date), PrepareCall(data)) => generate(date) == Ok(data)
    case (PrepareCall(data), ExportCall(report, path)) => prepare(data) == Ok(report) && path == exportPath
    case _ => false
  }

  /**
   GenerateReportAsync: the stages are called in their order, the first with the
   requested date and each next one with the value the previous one produced;
   every stage but the last one called succeeded, and the handler's result is
   the outcome of that last stage: its errors when it failed, success when it
   was the export and the export succeeded.
   */
  function GenerateReport<A(==), R(==)>(date: DateTime, exportPath: string, generate: DateTime -> Result<A>,
                                        prepare: A -> Result<R>, exportData: (R, string) -> Result<()>): (run: Run<A, R>)
    ensures 1 <= |run.calls| <= 3
    ensures run.calls[0] == GenerateCall(date)
    ensures forall i :: 0 <= i < |run.calls| ==> StageIndex(run.calls[i]) == i
    ensures forall i :: 0 < i < |run.calls| ==> Feeds(run.calls[i - 1], run.calls[i], exportPath, generate, prepare)
    ensures forall i :: 0 <= i < |run.calls| - 1 ==> CallOutcome(run.calls[i], generate, prepare, exportData).Ok?
    ensures run.result == CallOutcome(run.calls[|run.calls| - 1], generate, prepare, exportData)
    ensures run.result.Ok? ==> |run.calls| == 3
  {
    var reportData := generate(date);
    if reportData.Fail? then
      Run(Fail(reportData.errors), [GenerateCall(date)])
    else
      var dataForExport := prepare(reportData.value);
      if dataForExport.Fail? then
        Run(Fail(dataForExport.errors), [GenerateCall(date), PrepareCall(reportData.value)])
      else
        var exportResult := exportData(dataForExport.value, exportPath);
        var calls := [GenerateCall(date), PrepareCall(reportData.value), ExportCall(dataForExport.value, exportPath)];
        if exportResult.Fail? then Run(Fail(exportResult.errors), calls)
        else assert exportResult.value == (); Run(Ok(()), calls)
  }

  /** Sequencing of stage results: a failure passes through, a success feeds the next stage. */
  function Then<T, U>(r: Result<T>, next: T -> Result<U>): (s: Result<U>)
    ensures r.Fail? ==> s == Fail(r.errors)
    ensures r.Ok? ==> s == next(r.value)
  {
    match r
    case Fail(errors) => Fail(errors)
    case Ok(v) => next(v)
  }

  /** The handler's result is the short-circuit sequencing of its three stages. */
  lemma GenerateReportIsSequencing<A, R>(date: DateTime, exportPath: string, generate: DateTime -> Result<A>,
                                         prepare: A -> Result<R>, exportData: (R, string) -> Result<()>)
    ensures GenerateReport(date, exportPath, generate, prepare, exportData).result
         == Then(Then(generate(date), prepare), (report: R) => exportData(report, exportPath))
  {
  }

  /**
   The three ways a report fails, as the handler's tests state them: each failing
   stage's errors come back unchanged, and the stages after it are not called.
   */
  lemma GenerateReportFailures<A, R>(date: DateTime, exportPath: string, generate: DateTime -> Result<A>,
                                     prepare: A -> Result<R>, exportData: (R, string) -> Result<()>)
    ensures var run := GenerateReport(date, exportPath, generate, prepare, exportData);
      && (generate(date).Fail? ==>
            run.result == Fail(generate(date).errors) && run.calls == [GenerateCall(date)])
      && (generate(date).Ok? && prepare(generate(date).value).Fail? ==>
            && run.result == Fail(prepare(generate(date).value).errors)
            && run.calls == [GenerateCall(date), PrepareCall(generate(date).value)])
      && (generate(date).Ok? && prepare(generate(date).value).Ok?
          && exportData(prepare(generate(date).value).value, exportPath).Fail? ==>
            run.result == Fail(exportData(prepare(generate(date).value).value, exportPath).errors))
  {
  }

  /** When data generation fails, what prepare and export would do makes no difference. */
  lemma GenerateFailureIgnoresLaterStages<A, R>(date: DateTime, exportPath: string, generate: DateTime -> Result<A>,
                                                prepare1: A -> Result<R>, exportData1: (R, string) -> Result<()>,
                                                prepare2: A -> Result<R>, exportData2: (R, string) -> Result<()>)
    requires generate(date).Fail?
    ensures GenerateReport(date, exportPath, generate, prepare1, exportData1)
         == GenerateReport(date, exportPath, generate, prepare2, exportData2)
  {
  }

  /** The handler succeeds exactly when all three stages succeed. */
  lemma GenerateReportOkIff<A, R>(date: DateTime, exportPath: string, generate: DateTime -> Result<A>,
                                  prepare: A -> Result<R>, exportData: (R, string) -> Result<()>)
    ensures GenerateReport(date, exportPath, generate, prepare, exportData).result.Ok?
        <==> && generate(date).Ok?
             && prepare(generate(date).value).Ok?
             && exportData(prepare(generate(date).value).value, exportPath).Ok?
  {
  }
}
