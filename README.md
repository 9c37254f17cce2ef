# Sqoop map-side execution, modelled in Dafny

This project models two Apache Sqoop map tasks.

- **The Sqoop 2 extraction driver** (`org.apache.sqoop.job.mr.SqoopMapper`). One `run` does the following:
  - binds the connector schema on the intermediate data format;
  - picks the executor configuration by job type: connector space for IMPORT, framework space for EXPORT, error `MAPRED_EXEC_0023` for any other value, and a bare `NullPointerException` when the job type is null;
  - schedules the progress service, with delay 0 and a 2-minute period;
  - makes one blocking call to the extractor. The extractor hands rows to the inner `MapDataWriter`, which encodes each row through the format and writes it to the task context. A writer failure becomes `MAPRED_EXEC_0013`;
  - credits `ROWS_READ` when the call returns;
  - wraps any exception as `MAPRED_EXEC_0017`;
  - once the progress service is scheduled, always shuts it down, with a 5-second grace wait and `shutdownNow` on timeout.
- **The mainframe dataset import mapper** (`AbstractMainframeDatasetImportMapper`). `setup` remembers the input split and opens a multi-output writer. `map` counts each record and writes the record's key to the named output called after the split's current dataset. `cleanup` closes the writer and adds the count to `MAP_OUTPUT_RECORDS`.

Files:

- `wrappers.dfy` holds `Option`, which stands for a Java nullable reference.
- `sqoop_mapper.dfy` (module `JobMr`) has two parts:
  - Pure functions state what a run does. The main one is `RunMapper`: what the run throws, the `ROWS_READ` counter, the records written, and an ordered trace of observable events.
  - The class `SqoopMapper` performs the run step by step: the writer entry points, a loop over the extractor's writer calls, and the `finally` block. Its methods are proved to agree with those functions.
- `sqoop_mapper_properties.dfy` (module `JobMrProperties`) holds:
  - the lemmas about `RunMapper` and `Extract`: ordering, exactly-once shutdown, when the counter is credited, and how errors nest;
  - two scenarios that drive a `SqoopMapper` through complete runs.
- `mainframe_mapper.dfy` (module `Mainframe`) holds:
  - the mapper as a class;
  - functions that group its writes by named output;
  - lemmas tying those groups to the record count.

Environment inputs are parameters:

- The extractor is a script. It lists the rows it hands to the writer, in order, then says whether `extract` returns (with `getRowsRead()`) or throws.
- The format's `getTextData()` is an arbitrary deterministic encoder function.
- `context.write` is a reply per row: accepted, or throws a given exception.
- `awaitTermination` is a reply: terminated, timed out, or interrupted.
- A mainframe write or close is a boolean saying whether it returned normally.

Points where the code's behaviour is easy to misread:

- `catch (Exception e)` does not catch a `java.lang.Error`. Such an error passes through both wrappers (0013 and 0017) unwrapped.
- Error 0023 is thrown before the `try` block. An unsupported job type therefore never starts or stops the progress service. No failure of the job-type switch can happen once the progress service is scheduled.
- In `writeRecord`, `obj.toString()` runs outside `writeContent`'s `try`. A null object throws a bare `NullPointerException`, not 0013, which `run` then wraps as 0017.
- A `switch` on a null job type throws `NullPointerException` before any case is reached. Like 0023, it is thrown before the `try` block, so `run` throws it unwrapped.
- An interrupted `awaitTermination` in the `finally` block throws `InterruptedException`. It replaces whatever the `try` block was throwing.

## Model

| member | source | states |
|---|---|---|
| JobMr.Wrap | execution/mapreduce/src/main/java/org/apache/sqoop/job/mr/SqoopMapper.java:109-110 | An exception is wrapped in the given error code with itself as the cause. A Java Error is returned unchanged. The result is an exception exactly when the input is. |
| JobMr.ResolveExecutorConfig | execution/mapreduce/src/main/java/org/apache/sqoop/job/mr/SqoopMapper.java:81-95 | Fails exactly for a job type other than IMPORT and EXPORT: with 0023 for an unrecognized value, and with a NullPointerException for null. The prefix is the connector-context prefix exactly for IMPORT. IMPORT takes the connector connection and job configs; EXPORT takes the framework ones. |
| JobMr.FormatDataOf | execution/mapreduce/src/main/java/org/apache/sqoop/job/mr/SqoopMapper.java:128-144 | Each writer entry point hands the format its row as object data, text data or `toString()` data. It throws a NullPointerException exactly when `writeRecord` gets null. |
| JobMr.ContentResult | execution/mapreduce/src/main/java/org/apache/sqoop/job/mr/SqoopMapper.java:146-153 | The write succeeds exactly when the encoding succeeds and the channel accepts it, and it writes the encoding. An encoder failure or a refusal gives 0013 wrapping that throwable. |
| JobMr.WriteResult | execution/mapreduce/src/main/java/org/apache/sqoop/job/mr/SqoopMapper.java:128-153 | A row is written exactly when it converts, encodes and is accepted by the channel, and the text written is its encoding. A null object fails with an NPE. An encoder failure, or a channel refusal, fails with 0013 carrying that exact throwable; a Java Error passes through as itself. |
| JobMr.Extract | execution/mapreduce/src/main/java/org/apache/sqoop/job/mr/SqoopMapper.java:105 | Never more records than writer calls. With no failure, one record per call. |
| JobMr.ExtractorFailure | execution/mapreduce/src/main/java/org/apache/sqoop/job/mr/SqoopMapper.java:105 | `extract` throws nothing exactly when every writer call succeeded and the extractor returned. A writer failure takes precedence; otherwise the extractor's own exception is thrown. |
| JobMr.SqoopMapper.WriteContent | execution/mapreduce/src/main/java/org/apache/sqoop/job/mr/SqoopMapper.java:146-153 | Stages the encoding in `dataOut` and writes it. It throws 0013 carrying the encoder's or the channel's exception. Only an accepted write appends to the output and trace, and the schema, counter and progress service stay as they were. |
| JobMr.SqoopMapper.WriteArrayRecord | execution/mapreduce/src/main/java/org/apache/sqoop/job/mr/SqoopMapper.java:128-132 | Sets object data on the format, then has the state change `WriteResult` gives for an array row. |
| JobMr.SqoopMapper.WriteStringRecord | execution/mapreduce/src/main/java/org/apache/sqoop/job/mr/SqoopMapper.java:134-138 | Sets text data on the format, then has the state change `WriteResult` gives for a string row. |
| JobMr.SqoopMapper.WriteRecord | execution/mapreduce/src/main/java/org/apache/sqoop/job/mr/SqoopMapper.java:140-144 | For a null object, leaves the format untouched and throws an NPE. Otherwise it sets `toString()` data, with the state change `WriteResult` gives. |
| JobMr.SqoopMapper.Hand | execution/mapreduce/src/main/java/org/apache/sqoop/job/mr/SqoopMapper.java:128-144 | A row goes to the writer entry point for its shape. The state change is the one `WriteResult` gives for that row. |
| JobMr.ExtractStep | execution/mapreduce/src/main/java/org/apache/sqoop/job/mr/SqoopMapper.java:128-153 | After error-free calls, one more writer call appends its record, or ends the extraction with its error. |
| JobMr.ExtractStopsAtFailure | execution/mapreduce/src/main/java/org/apache/sqoop/job/mr/SqoopMapper.java:105 | Once a writer call has thrown, the later rows change nothing: the extraction is the failed prefix's. |
| JobMr.SqoopMapper.HandRows | execution/mapreduce/src/main/java/org/apache/sqoop/job/mr/SqoopMapper.java:105 | The extractor's writer calls, in order, up to the first that throws. Output, trace and failure match `Extract` on the rows. |
| JobMr.SqoopMapper.ExtractAndCredit | execution/mapreduce/src/main/java/org/apache/sqoop/job/mr/SqoopMapper.java:105-108 | The extract call writes `Extract`'s records and reports `ExtractorFailure`. `ROWS_READ` rises by `getRowsRead()` and the credit is traced, exactly when nothing was thrown. |
| JobMr.SqoopMapper.StopProgressService | execution/mapreduce/src/main/java/org/apache/sqoop/job/mr/SqoopMapper.java:111-117 | One shutdown and one 5-second `awaitTermination`, with `shutdownNow` exactly on timeout. An interrupted wait throws `InterruptedException`. |
| JobMr.SqoopMapper.Run | execution/mapreduce/src/main/java/org/apache/sqoop/job/mr/SqoopMapper.java:60-119 | The thrown value, `ROWS_READ` counter, written records and event trace equal `RunMapper`'s. The schema is bound. The progress service is scheduled and shut down once exactly when the job type is IMPORT or EXPORT, and forced exactly on timeout. |
| JobMrProperties.ExtractWritesInOrder | execution/mapreduce/src/main/java/org/apache/sqoop/job/mr/SqoopMapper.java:105 | Record i is the encoding of row i. A failure is exactly the error of the row right after the last record written. |
| JobMrProperties.ExtractWritesEveryRow | execution/mapreduce/src/main/java/org/apache/sqoop/job/mr/SqoopMapper.java:128-153 | When every row can be written, there is no failure and one record per row, each the row's encoding. |
| JobMrProperties.WriteEventsAreWrites | execution/mapreduce/src/main/java/org/apache/sqoop/job/mr/SqoopMapper.java:149 | The trace of written records has one RecordWritten event per record, in order. |
| JobMrProperties.WritesAppend | execution/mapreduce/src/main/java/org/apache/sqoop/job/mr/SqoopMapper.java:149 | The records read back from a concatenated trace are the concatenation of those from each part. |
| JobMrProperties.WritesOfWriteEvents | execution/mapreduce/src/main/java/org/apache/sqoop/job/mr/SqoopMapper.java:149 | Reading the records back from their events gives the records. |
| JobMrProperties.NoWritesOutside | execution/mapreduce/src/main/java/org/apache/sqoop/job/mr/SqoopMapper.java:149 | A trace without RecordWritten events reads back as no records. |
| JobMrProperties.OutputIsTracedInOrder | execution/mapreduce/src/main/java/org/apache/sqoop/job/mr/SqoopMapper.java:146-153 | The records the channel received are exactly the ones the run's trace shows written, in the same order. |
| JobMrProperties.UnsupportedJobTypeFailsBeforeHeartbeat | execution/mapreduce/src/main/java/org/apache/sqoop/job/mr/SqoopMapper.java:82-94 | A job type other than IMPORT and EXPORT throws after binding the schema: 0023, or a bare NPE for null. There is no progress service, no extractor call, no record and no counter change. |
| JobMrProperties.FinallyBlockEvents | execution/mapreduce/src/main/java/org/apache/sqoop/job/mr/SqoopMapper.java:111-117 | `StopEvents`, the `finally` block: shutdown, then a 5-second `awaitTermination`, then `shutdownNow` only after a timeout. |
| JobMrProperties.RunOutcome | execution/mapreduce/src/main/java/org/apache/sqoop/job/mr/SqoopMapper.java:60-119 | `RunMapper`, the effect of `run`, throws nothing exactly when the job type is supported, `extract` returns and the wait is not interrupted. An unsupported job type writes nothing and leaves `ROWS_READ` unchanged. |
| JobMrProperties.RunStartsInOrder | execution/mapreduce/src/main/java/org/apache/sqoop/job/mr/SqoopMapper.java:69-105 | An IMPORT or EXPORT run starts with schema binding, scheduling (delay 0, every 2 minutes) and one extractor call with the job type's configuration. None of these recurs. |
| JobMrProperties.TraceShape | execution/mapreduce/src/main/java/org/apache/sqoop/job/mr/SqoopMapper.java:60-119 | An IMPORT or EXPORT run's trace is its start, its records, the optional counter credit, then the `finally` block. |
| JobMrProperties.RowsReadCreditedOnlyOnReturn | execution/mapreduce/src/main/java/org/apache/sqoop/job/mr/SqoopMapper.java:105-108 | `ROWS_READ` rises by `getRowsRead()` exactly when `extract` returns. After a throw, the counter keeps its value even if rows were written. |
| JobMrProperties.RowsReadCreditedOnce | execution/mapreduce/src/main/java/org/apache/sqoop/job/mr/SqoopMapper.java:107-108 | The counter is credited at one trace position, just before shutdown, if and only if `extract` returned. |
| JobMrProperties.ProgressServiceStoppedOnce | execution/mapreduce/src/main/java/org/apache/sqoop/job/mr/SqoopMapper.java:102-117 | Scheduling happens only at step 2. Shutdown and the 5-second wait each happen once, at the end, however `extract` ended. `shutdownNow` happens if and only if the wait timed out. |
| JobMrProperties.CreditBeforeStop | execution/mapreduce/src/main/java/org/apache/sqoop/job/mr/SqoopMapper.java:107-113 | In a trace of start, records and end, the only counter credit is the end's, right before the shutdown. |
| JobMrProperties.StopEventsCloseTrace | execution/mapreduce/src/main/java/org/apache/sqoop/job/mr/SqoopMapper.java:102-117 | In a trace of start, records and end, scheduling is step 2 only. Shutdown, the wait and the forced stop each occur only at their place at the end. |
| JobMrProperties.ExtractionFailureSurfacesAs0017 | execution/mapreduce/src/main/java/org/apache/sqoop/job/mr/SqoopMapper.java:109-117 | An exception from `extract` surfaces as 0017 carrying it, and a Java Error passes unwrapped. A returning run throws nothing. An interrupted wait throws `InterruptedException` in every case. |
| JobMrProperties.WriterFailureNestsIn0017 | execution/mapreduce/src/main/java/org/apache/sqoop/job/mr/SqoopMapper.java:109-110 | A row the format cannot encode, or the channel refuses, ends the run with 0017 wrapping 0013 wrapping the cause. The earlier rows stay written and the counter is unchanged. |
| JobMrProperties.TextRowsScenario | execution/mapreduce/src/main/java/org/apache/sqoop/job/mr/SqoopMapper.java:60-119 | Three accepted text rows, with 3 rows read: nothing is thrown, the three encodings are written in order, `ROWS_READ` is 3, and one shutdown happens. |
| JobMrProperties.FailureAfterOneRowScenario | execution/mapreduce/src/main/java/org/apache/sqoop/job/mr/SqoopMapper.java:105-117 | An extractor that throws after one row: 0017 carrying the exception, one row written, `ROWS_READ` still 0, one shutdown. |
| Mainframe.Outputs | src/java/org/apache/sqoop/mapreduce/mainframe/AbstractMainframeDatasetImportMapper.java:39-41 | The named outputs holding keys are exactly the datasets written to. |
| Mainframe.KeysWrittenToAppend | src/java/org/apache/sqoop/mapreduce/mainframe/AbstractMainframeDatasetImportMapper.java:41 | Selecting one output's keys from a sequence of writes distributes over concatenation. The selection therefore keeps write order. |
| Mainframe.OutputHoldsKeysWrittenTo | src/java/org/apache/sqoop/mapreduce/mainframe/AbstractMainframeDatasetImportMapper.java:39-41 | Each named output holds exactly the keys written to it, in write order. An output never written to does not exist. |
| Mainframe.DatasetsListOutputs | src/java/org/apache/sqoop/mapreduce/mainframe/AbstractMainframeDatasetImportMapper.java:39-41 | The datasets in first-write order list each named output once and no other. |
| Mainframe.TotalKeysAgree | src/java/org/apache/sqoop/mapreduce/mainframe/AbstractMainframeDatasetImportMapper.java:41 | Output maps that agree in size on the listed datasets give the same key total. |
| Mainframe.TotalKeysBump | src/java/org/apache/sqoop/mapreduce/mainframe/AbstractMainframeDatasetImportMapper.java:41 | One more key in a listed output raises the total by one. |
| Mainframe.OutputsSumToWrites | src/java/org/apache/sqoop/mapreduce/mainframe/AbstractMainframeDatasetImportMapper.java:39-41 | The per-output key counts add up to the number of writes. |
| Mainframe.RecordCountMatchesOutputs | src/java/org/apache/sqoop/mapreduce/mainframe/AbstractMainframeDatasetImportMapper.java:35-50 | When no write threw, `numberOfRecords` equals the total of the keys across all named outputs. |
| Mainframe.MainframeDatasetImportMapper.Setup | src/java/org/apache/sqoop/mapreduce/mainframe/AbstractMainframeDatasetImportMapper.java:44-51 | The mapper keeps the split, opens a fresh writer with no writes, and resets the count to 0. The task counter is untouched. |
| Mainframe.MainframeDatasetImportMapper.Map | src/java/org/apache/sqoop/mapreduce/mainframe/AbstractMainframeDatasetImportMapper.java:37-42 | The count rises by one even when the write throws. A write that goes through appends the record's key under the split's current dataset. |
| Mainframe.MainframeDatasetImportMapper.Cleanup | src/java/org/apache/sqoop/mapreduce/mainframe/AbstractMainframeDatasetImportMapper.java:53-62 | Closes the writer. `MAP_OUTPUT_RECORDS` rises by the record count exactly when the close returns. |
| Mainframe.FanOutExample | src/java/org/apache/sqoop/mapreduce/mainframe/AbstractMainframeDatasetImportMapper.java:39-41 | Writes to A, A, B give A two keys in order and B one, with A listed first. |
| Mainframe.FanOutScenario | src/java/org/apache/sqoop/mapreduce/mainframe/AbstractMainframeDatasetImportMapper.java:37-62 | A mapper reading A, A, then B fans the keys out to outputs A and B. `MAP_OUTPUT_RECORDS` ends at 3. |

## Left out

- The progress service runs on its own thread at fixed times. The model records only that it is scheduled, shut down, waited on and possibly forced. Threads and timing are not modelled.
- `ProgressRunnable`, the per-tick progress report, is not part of this model.
- `ClassUtils.instantiate` creates the extractor and the format by reflection, and its failures are not modelled. The model assumes both objects exist.
- `ConfigurationUtils.configureLogging` and all logging are left out, because they have no effect on the results.
- The format's `setSchema` and `set*Data` calls are assumed not to throw. The encoding itself is an arbitrary deterministic function; the intermediate data format's text encoding is not modelled.
- The extractor is assumed to let a writer exception end its `extract` call. An extractor that catches writer failures and keeps going is not modelled.
- The split's partition and the contents of `ExtractorContext` are opaque, because no modelled operation reads them.
- The value of `JobConstants.PREFIX_CONNECTOR_CONTEXT` is left abstract; `JobConstants` is not part of this model.
- `MySqlJdbcConnector` is context only and is not modelled.
- JobMr.SqoopMapper.Run: `ROWS_READ` is an unbounded integer, so 64-bit `long` overflow is not modelled.
- Mainframe.MainframeDatasetImportMapper.Map: `numberOfRecords` is an unbounded integer, so 64-bit `long` overflow is not modelled.
- JobMr.SqoopMapper.Run: the contracts of `Hand`, `HandRows`, `ExtractAndCredit` and `Run` do not state the final values of `formatData` and `dataOut`. These are the format's and the `SqoopWritable`'s staging buffers, overwritten by each writer call and never read after it; only the per-call entry points state them.
- Mainframe.MainframeDatasetImportMapper.Map: the `LongWritable` key parameter is ignored by the source and is omitted.
- Mainframe.MainframeDatasetImportMapper.Map: `createOutKey` is an arbitrary function supplied by the concrete subclass, and it is assumed not to throw.
- `super.setup` and `super.cleanup` (`AutoProgressMapper`'s own heartbeat thread) are not part of this model.
- A `null` input split or writer, which the source would dereference, is excluded by preconditions on `Map` and `Cleanup`; the Hadoop framework always calls `setup` first.
