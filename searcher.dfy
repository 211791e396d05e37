/**
 * GoogleScholarSearcher's batch drivers (search_batch_initial,
 * search_batch_details), the mode dispatch of search_batch, and `main`.
 */
module Searcher {
  import opened Tables
  import opened Query
  import opened Fetchers
  import opened Encodings
  import opened Columns
  import opened Checkpoint

  /** The header of a fresh initial output file. */
  function InitialColumns(cfg: Config): seq<string> {
    [cfg.idCol, "Name", "Organization", LinkColumn]
  }

  /** The header of a fresh details output file. */
  function DetailsColumns(cfg: Config): seq<string> {
    [cfg.idCol, LinkColumn, "img_link", "google_scholar_name", "google_scholar_organization", "citation_data"]
  }

  /** The configured id column is none of the fixed output labels, so the result dicts keep it. */
  predicate IdColumnIsOwn(cfg: Config) {
    cfg.idCol !in InitialColumns(cfg)[1..] && cfg.idCol !in DetailsColumns(cfg)[1..]
  }

  /** The result dict the initial drain loop builds from a returned tuple, keys in the source's order. */
  function InitialRow(cfg: Config, o: InitialOutcome): Row {
    map[][cfg.idCol := o.id]["Name" := o.name]["Organization" := OrganizationCell(o.org)][LinkColumn := o.link]
  }

  /** The result dict the details drain loop builds from a returned tuple. */
  function DetailsRow(cfg: Config, o: DetailsOutcome): Row {
    map[][cfg.idCol := o.id][LinkColumn := o.url]["img_link" := o.img]["google_scholar_name" := o.name]
         ["google_scholar_organization" := o.org]["citation_data" := o.citations]
  }

  /** Each initial result row has exactly the columns of the initial header, and carries the id it was asked for. */
  lemma InitialRowShape(cfg: Config, o: InitialOutcome)
    requires IdColumnIsOwn(cfg)
    ensures InitialRow(cfg, o).Keys == ColumnSet(InitialColumns(cfg))
    ensures Cell(InitialRow(cfg, o), cfg.idCol) == o.id
    ensures InitialRow(cfg, o)["Organization"] != Null
  {
  }

  /** Each details result row has exactly the columns of the details header, and carries its id. */
  lemma DetailsRowShape(cfg: Config, o: DetailsOutcome)
    requires IdColumnIsOwn(cfg)
    ensures DetailsRow(cfg, o).Keys == ColumnSet(DetailsColumns(cfg))
    ensures Cell(DetailsRow(cfg, o), cfg.idCol) == o.id
  {
  }

  /** `row.get(organization, '')`. */
  function OrgArgument(cfg: Config, row: Row): Value {
    if cfg.orgCol in row then row[cfg.orgCol] else Text("")
  }

  /** The future submitted for one input row of the initial phase, completed into its result dict. */
  function InitialFuture(cfg: Config, row: Row, env: TaskEnv<string, SearchPage>): Completion<Row>
    requires TextCells(row)
  {
    match InitialTask(Cell(row, cfg.idCol), Cell(row, cfg.nameCol), OrgArgument(cfg, row), env)
    case Raised => Raised
    case Returned(o) => Returned(InitialRow(cfg, o))
  }

  /** The future submitted for one input row of the details phase. */
  function DetailsFuture(cfg: Config, row: Row, env: TaskEnv<Value, ProfilePage>): Completion<Row> {
    match DetailsTask(Cell(row, cfg.idCol), Cell(row, LinkColumn), env)
    case Raised => Raised
    case Returned(o) => Returned(DetailsRow(cfg, o))
  }

  /** `future_to_row`: one future per work row, the k-th meeting environment envs(k). */
  function SubmitInitial(cfg: Config, work: seq<Row>, envs: nat -> TaskEnv<string, SearchPage>): seq<Completion<Row>>
    requires forall r | r in work :: TextCells(r)
  {
    seq(|work|, k requires 0 <= k < |work| => InitialFuture(cfg, work[k], envs(k)))
  }

  function SubmitDetails(cfg: Config, work: seq<Row>, envs: nat -> TaskEnv<Value, ProfilePage>): seq<Completion<Row>> {
    seq(|work|, k requires 0 <= k < |work| => DetailsFuture(cfg, work[k], envs(k)))
  }

  /**
   * Every initial future returns the id of its row, and returns (so the row
   * is checkpointed) whenever the driver starts and quits, whatever the
   * lookup did: a failed lookup is recorded with link None.
   */
  lemma InitialFuturesKeepIds(cfg: Config, work: seq<Row>, envs: nat -> TaskEnv<string, SearchPage>)
    requires IdColumnIsOwn(cfg)
    requires forall r | r in work :: TextCells(r)
    ensures KeepsIds(work, SubmitInitial(cfg, work, envs), cfg.idCol)
    ensures forall k :: 0 <= k < |work| ==>
              (SubmitInitial(cfg, work, envs)[k].Returned? <==> envs(k).driverStarts && envs(k).quitSucceeds)
  {
    var futures := SubmitInitial(cfg, work, envs);
    forall k | 0 <= k < |work| && futures[k].Returned?
      ensures Cell(futures[k].value, cfg.idCol) == Cell(work[k], cfg.idCol)
    {
      assert work[k] in work;
      var c := InitialTask(Cell(work[k], cfg.idCol), Cell(work[k], cfg.nameCol), OrgArgument(cfg, work[k]), envs(k));
      assert futures[k] == InitialFuture(cfg, work[k], envs(k));
      InitialRowShape(cfg, c.value);
    }
  }

  /** The same for the details phase: a page that fails to load is still recorded, with four None fields. */
  lemma DetailsFuturesKeepIds(cfg: Config, work: seq<Row>, envs: nat -> TaskEnv<Value, ProfilePage>)
    requires IdColumnIsOwn(cfg)
    ensures KeepsIds(work, SubmitDetails(cfg, work, envs), cfg.idCol)
    ensures forall k :: 0 <= k < |work| ==>
              (SubmitDetails(cfg, work, envs)[k].Returned? <==> envs(k).driverStarts && envs(k).quitSucceeds)
  {
    var futures := SubmitDetails(cfg, work, envs);
    forall k | 0 <= k < |work| && futures[k].Returned?
      ensures Cell(futures[k].value, cfg.idCol) == Cell(work[k], cfg.idCol)
    {
      var c := DetailsTask(Cell(work[k], cfg.idCol), Cell(work[k], LinkColumn), envs(k));
      assert futures[k] == DetailsFuture(cfg, work[k], envs(k));
      DetailsRowShape(cfg, c.value);
    }
  }

  /** What the initial phase needs of its input: a parsed table holding the id and name columns. */
  predicate InitialInput(cfg: Config, df: Table) {
    WellFormed(df) && TextOnly(df) && cfg.idCol in df.columns && cfg.nameCol in df.columns
  }

  /** What the details phase needs of its input: a table holding the id and link columns. */
  predicate DetailsInput(cfg: Config, df: Table) {
    WellFormed(df) && cfg.idCol in df.columns && LinkColumn in df.columns
  }

  /** What one batch run returns: the results list, the final progress count and the completion order. */
  datatype Drained = Drained(results: seq<Row>, progress: nat, order: seq<nat>)

  datatype Mode = InitialMode | DetailsMode

  /** The if/elif/else of search_batch. */
  function ParseMode(mode: string): (r: Result<Mode, Error>)
    ensures r == Success(InitialMode) <==> mode == "initial"
    ensures r == Success(DetailsMode) <==> mode == "details"
    ensures r.Failure? <==> r == Failure(InvalidMode)
  {
    if mode == "initial" then Success(InitialMode)
    else if mode == "details" then Success(DetailsMode)
    else Failure(InvalidMode)
  }

  /**
   * What one batch driver did to its output file. An existing file without
   * the id column raises a KeyError and is left as it was. Otherwise an
   * existing file seeds the results (`seed`) and a missing one is created
   * holding only `freshHeader`; the results are the seed followed by the rows
   * of the completions processed, in completion order, the file holds
   * exactly the results, and progress counts the completions processed: all
   * of them, unless the process was killed first.
   */
  twostate predicate BatchRan(file: CsvFile, idCol: string, freshHeader: seq<string>, seed: seq<Row>,
                              new futures: seq<Completion<Row>>, killAfter: Option<nat>, new r: Result<Drained, Error>)
    reads file
  {
    && file.Valid()
    && (r.Failure? <==> old(file.present) && idCol !in old(file.header))
    && (r.Failure? ==> r.error == MissingIdColumn && unchanged(file))
    && (r.Success? ==>
          && file.present
          && file.header == (if old(file.present) then old(file.header) else freshHeader)
          && IsPartialCompletionOrder(r.value.order, |futures|)
          && |r.value.order| == CompletedBeforeKill(killAfter, |futures|)
          && (killAfter.None? ==> IsCompletionOrder(r.value.order, |futures|))
          && r.value.results == seed + Appended(r.value.order, futures)
          && file.rows == r.value.results
          && r.value.progress == |r.value.order|)
  }

  /** The checkpoint rows a driver starts from: the existing file's rows, or none. */
  twostate function Seed(file: CsvFile): seq<Row>
    reads file
  {
    if old(file.present) then old(file.rows) else []
  }

  /** search_batch_initial's effect on the initial output file, its work being the input rows not yet checkpointed. */
  twostate predicate InitialBatchRan(file: CsvFile, cfg: Config, df: Table, envs: nat -> TaskEnv<string, SearchPage>,
                                     killAfter: Option<nat>, new r: Result<Drained, Error>)
    requires TextOnly(df)
    reads file
  {
    var work := Pending(df.rows, CheckpointIds(Seed(file), cfg.idCol), cfg.idCol);
    BatchRan(file, cfg.idCol, InitialColumns(cfg), Seed(file), SubmitInitial(cfg, work, envs), killAfter, r)
  }

  /** search_batch_details' effect on the details output file. */
  twostate predicate DetailsBatchRan(file: CsvFile, cfg: Config, df: Table, envs: nat -> TaskEnv<Value, ProfilePage>,
                                     killAfter: Option<nat>, new r: Result<Drained, Error>)
    reads file
  {
    var work := Pending(df.rows, CheckpointIds(Seed(file), cfg.idCol), cfg.idCol);
    BatchRan(file, cfg.idCol, DetailsColumns(cfg), Seed(file), SubmitDetails(cfg, work, envs), killAfter, r)
  }

  class GoogleScholarSearcher {
    const config: Config
    const outputInitial: CsvFile   // config['files']['output_initial']
    const outputDetails: CsvFile   // config['files']['output_details']

    constructor (config: Config, outputInitial: CsvFile, outputDetails: CsvFile)
      ensures this.config == config
      ensures this.outputInitial == outputInitial && this.outputDetails == outputDetails
    {
      this.config := config;
      this.outputInitial := outputInitial;
      this.outputDetails := outputDetails;
    }

    /**
     * search_batch_initial. An existing output file is the checkpoint: its
     * rows seed the results and its ids are removed from the input; an absent
     * one is created holding only the initial header. Every work row is then
     * submitted and the completions drained into the results and the file.
     */
    method SearchBatchInitial(df: Table, envs: nat -> TaskEnv<string, SearchPage>, killAfter: Option<nat>)
      returns (r: Result<Drained, Error>)
      requires InitialInput(config, df)
      requires outputInitial.Valid()
      modifies outputInitial
      ensures InitialBatchRan(outputInitial, config, df, envs, killAfter, r)
    {
      var seed: seq<Row> := [];
      var work := df.rows;
      if outputInitial.present {
        if config.idCol !in outputInitial.header {
          return Failure(MissingIdColumn);
        }
        seed := outputInitial.rows;
        work := Pending(df.rows, CheckpointIds(seed, config.idCol), config.idCol);
      } else {
        outputInitial.CreateHeaderOnly(InitialColumns(config));
        assert CheckpointIds(seed, config.idCol) == {};
        PendingOfNothingDone(df.rows, config.idCol);
      }
      var futures := SubmitInitial(config, work, envs);
      var results, progress, order := Drain(outputInitial, seed, futures, killAfter);
      return Success(Drained(results, progress, order));
    }

    /** search_batch_details: the same resume and drain over the details fetcher and header. */
    method SearchBatchDetails(df: Table, envs: nat -> TaskEnv<Value, ProfilePage>, killAfter: Option<nat>)
      returns (r: Result<Drained, Error>)
      requires DetailsInput(config, df)
      requires outputDetails.Valid()
      modifies outputDetails
      ensures DetailsBatchRan(outputDetails, config, df, envs, killAfter, r)
    {
      var seed: seq<Row> := [];
      var work := df.rows;
      if outputDetails.present {
        if config.idCol !in outputDetails.header {
          return Failure(MissingIdColumn);
        }
        seed := outputDetails.rows;
        work := Pending(df.rows, CheckpointIds(seed, config.idCol), config.idCol);
      } else {
        outputDetails.CreateHeaderOnly(DetailsColumns(config));
        assert CheckpointIds(seed, config.idCol) == {};
        PendingOfNothingDone(df.rows, config.idCol);
      }
      var futures := SubmitDetails(config, work, envs);
      var results, progress, order := Drain(outputDetails, seed, futures, killAfter);
      return Success(Drained(results, progress, order));
    }

    /**
     * search_batch: 'initial' runs the initial driver and 'details' the
     * details driver, each touching only its own output file; any other mode
     * raises before any file is touched.
     */
    method SearchBatch(df: Table, mode: string,
                       initialEnvs: nat -> TaskEnv<string, SearchPage>,
                       detailsEnvs: nat -> TaskEnv<Value, ProfilePage>,
                       killAfter: Option<nat>) returns (r: Result<Drained, Error>)
      requires mode == "initial" ==> InitialInput(config, df)
      requires mode == "details" ==> DetailsInput(config, df)
      requires outputInitial != outputDetails
      requires outputInitial.Valid() && outputDetails.Valid()
      modifies outputInitial, outputDetails
      ensures outputInitial.Valid() && outputDetails.Valid()
      ensures mode == "initial" ==>
                InitialBatchRan(outputInitial, config, df, initialEnvs, killAfter, r) && unchanged(outputDetails)
      ensures mode == "details" ==>
                DetailsBatchRan(outputDetails, config, df, detailsEnvs, killAfter, r) && unchanged(outputInitial)
      ensures ParseMode(mode).Failure? ==> r == Failure(InvalidMode) && unchanged(outputInitial, outputDetails)
      ensures r.Failure? ==> r.error == MissingIdColumn || (r.error == InvalidMode && ParseMode(mode).Failure?)
    {
      match ParseMode(mode)
      case Success(InitialMode) =>
        r := SearchBatchInitial(df, initialEnvs, killAfter);
      case Success(DetailsMode) =>
        r := SearchBatchDetails(df, detailsEnvs, killAfter);
      case Failure(e) =>
        r := Failure(e);
    }
  }

  /**
   * main, after the command line is parsed (`mode` is one of argparse's two
   * choices): read the input with the encoding fallback, reject it when a
   * required column is missing, fill the organisation column in initial
   * mode, and run the batch of that mode. Every exception is caught and
   * reported, and none of them leaves a changed output file behind.
   */
  method Run(searcher: GoogleScholarSearcher, mode: string, attempt: Encoding -> ReadAttempt,
             initialEnvs: nat -> TaskEnv<string, SearchPage>,
             detailsEnvs: nat -> TaskEnv<Value, ProfilePage>,
             killAfter: Option<nat>) returns (r: Result<Drained, Error>)
    requires mode == "initial" || mode == "details"
    requires forall e :: attempt(e).Parsed? ==> WellFormed(attempt(e).table) && TextOnly(attempt(e).table)
    requires searcher.outputInitial != searcher.outputDetails
    requires searcher.outputInitial.Valid() && searcher.outputDetails.Valid()
    modifies searcher.outputInitial, searcher.outputDetails
    ensures r.Failure? ==> r.error != InvalidMode
    ensures r.Failure? ==> unchanged(searcher.outputInitial, searcher.outputDetails)
    ensures ReadFrom(attempt, 0).Failure? ==> r == Failure(ReadFrom(attempt, 0).error)
    ensures ReadFrom(attempt, 0).Success? ==>
      var df := ReadFrom(attempt, 0).value;
      var missing := MissingColumns(RequiredColumns(mode == "initial", searcher.config), df.columns);
      && (missing != [] ==> r == Failure(MissingRequiredColumns(missing)))
      && (missing == [] && mode == "initial" ==>
            InitialBatchRan(searcher.outputInitial, searcher.config, FillOrganization(df, searcher.config.orgCol),
                            initialEnvs, killAfter, r)
            && unchanged(searcher.outputDetails))
      && (missing == [] && mode == "details" ==>
            DetailsBatchRan(searcher.outputDetails, searcher.config, df, detailsEnvs, killAfter, r)
            && unchanged(searcher.outputInitial))
  {
    var read := ReadCsvWithEncoding(attempt);
    if read.Failure? {
      return Failure(read.error);
    }
    var df := read.value;
    var required := RequiredColumns(mode == "initial", searcher.config);
    var checked := CheckColumns(required, df);
    if checked.Failure? {
      return Failure(checked.error);
    }
    assert forall c :: c in required ==> c in df.columns;
    if mode == "initial" {
      df := FillOrganization(df, searcher.config.orgCol);
    }
    r := searcher.SearchBatch(df, mode, initialEnvs, detailsEnvs, killAfter);
  }

  /**
   * The rows of an initial run hold exactly the initial header's columns, so
   * a file that starts fresh (no rows), or as a well-formed table under that
   * header, is still one afterwards, whatever was processed before a kill.
   */
  lemma InitialRunWellFormed(cfg: Config, seed: seq<Row>, work: seq<Row>,
                             envs: nat -> TaskEnv<string, SearchPage>, order: seq<nat>)
    requires IdColumnIsOwn(cfg)
    requires forall r | r in work :: TextCells(r)
    requires WellFormed(Table(InitialColumns(cfg), seed))
    ensures WellFormed(Table(InitialColumns(cfg), seed + Appended(order, SubmitInitial(cfg, work, envs))))
  {
    var futures := SubmitInitial(cfg, work, envs);
    forall k | 0 <= k < |futures| && futures[k].Returned?
      ensures futures[k].value.Keys == ColumnSet(InitialColumns(cfg))
    {
      assert work[k] in work;
      var c := InitialTask(Cell(work[k], cfg.idCol), Cell(work[k], cfg.nameCol), OrgArgument(cfg, work[k]), envs(k));
      assert futures[k] == InitialFuture(cfg, work[k], envs(k));
      InitialRowShape(cfg, c.value);
    }
    AppendedKeepsShape(order, futures, InitialColumns(cfg));
  }

  /** The same for the details header. */
  lemma DetailsRunWellFormed(cfg: Config, seed: seq<Row>, work: seq<Row>,
                             envs: nat -> TaskEnv<Value, ProfilePage>, order: seq<nat>)
    requires IdColumnIsOwn(cfg)
    requires WellFormed(Table(DetailsColumns(cfg), seed))
    ensures WellFormed(Table(DetailsColumns(cfg), seed + Appended(order, SubmitDetails(cfg, work, envs))))
  {
    var futures := SubmitDetails(cfg, work, envs);
    forall k | 0 <= k < |futures| && futures[k].Returned?
      ensures futures[k].value.Keys == ColumnSet(DetailsColumns(cfg))
    {
      var c := DetailsTask(Cell(work[k], cfg.idCol), Cell(work[k], LinkColumn), envs(k));
      assert futures[k] == DetailsFuture(cfg, work[k], envs(k));
      DetailsRowShape(cfg, c.value);
    }
    AppendedKeepsShape(order, futures, DetailsColumns(cfg));
  }

  /**
   * Resuming the initial phase is idempotent: after a run in which no future
   * raised, the ids in the output file cover the whole input, so a second
   * run dispatches nothing.
   */
  lemma InitialResumeIsIdempotent(cfg: Config, input: seq<Row>, seed: seq<Row>,
                                  envs: nat -> TaskEnv<string, SearchPage>, order: seq<nat>)
    requires IdColumnIsOwn(cfg)
    requires forall r | r in input :: TextCells(r)
    requires forall k: nat :: envs(k).driverStarts && envs(k).quitSucceeds
    requires IsCompletionOrder(order, |Pending(input, CheckpointIds(seed, cfg.idCol), cfg.idCol)|)
    ensures
      var futures := SubmitInitial(cfg, Pending(input, CheckpointIds(seed, cfg.idCol), cfg.idCol), envs);
      Pending(input, CheckpointIds(seed + Appended(order, futures), cfg.idCol), cfg.idCol) == []
  {
    var work := Pending(input, CheckpointIds(seed, cfg.idCol), cfg.idCol);
    InitialFuturesKeepIds(cfg, work, envs);
    CleanRunLeavesNothingPending(input, seed, SubmitInitial(cfg, work, envs), order, cfg.idCol);
  }

  /** The same for the details phase. */
  lemma DetailsResumeIsIdempotent(cfg: Config, input: seq<Row>, seed: seq<Row>,
                                  envs: nat -> TaskEnv<Value, ProfilePage>, order: seq<nat>)
    requires IdColumnIsOwn(cfg)
    requires forall k: nat :: envs(k).driverStarts && envs(k).quitSucceeds
    requires IsCompletionOrder(order, |Pending(input, CheckpointIds(seed, cfg.idCol), cfg.idCol)|)
    ensures
      var futures := SubmitDetails(cfg, Pending(input, CheckpointIds(seed, cfg.idCol), cfg.idCol), envs);
      Pending(input, CheckpointIds(seed + Appended(order, futures), cfg.idCol), cfg.idCol) == []
  {
    var work := Pending(input, CheckpointIds(seed, cfg.idCol), cfg.idCol);
    DetailsFuturesKeepIds(cfg, work, envs);
    CleanRunLeavesNothingPending(input, seed, SubmitDetails(cfg, work, envs), order, cfg.idCol);
  }
}
