/**
 * The extraction driver of a Sqoop 2 map task (org.apache.sqoop.job.mr.SqoopMapper).
 *
 * One run binds the connector schema on the intermediate data format, picks the
 * executor configuration by job type, starts the progress service, makes one
 * blocking call to the extractor (which hands rows to the MapDataWriter), credits
 * the ROWS_READ counter, and always stops the progress service.
 *
 * The pure functions below say what a run does; the class SqoopMapper does it step
 * by step and is proved to agree with them.
 */
module JobMr {
  import opened Wrappers

  /**
   * The job type ConfigurationUtils.getJobType reports: IMPORT, EXPORT, any other
   * value (Unrecognized), or null (Absent), on which a Java switch throws.
   */
  datatype JobType = Import | Export | Unrecognized(name: string) | Absent
  {
    predicate IsSupported() { Import? || Export? }
  }

  /** The MapreduceExecutionError codes this mapper raises. */
  datatype ErrorCode = MapredExec0013 | MapredExec0017 | MapredExec0023

  /**
   * What can be thrown through the mapper. OtherException stands for any
   * java.lang.Exception raised by code outside the model (the extractor, the
   * format, Hadoop); JavaError for any java.lang.Error, which `catch (Exception e)`
   * does not catch.
   */
  datatype Throwable =
    | SqoopException(code: ErrorCode, cause: Option<Throwable>)
    | NullPointerException
    | InterruptedException
    | OtherException(id: nat)
    | JavaError(id: nat)
  {
    predicate IsException() { !JavaError? }
  }

  /** `try { … } catch (Exception e) { throw new SqoopException(code, e); }` applied to what the block threw. */
  function Wrap(code: ErrorCode, t: Throwable): (r: Throwable)
    ensures t.IsException() ==> r.SqoopException? && r.code == code && r.cause == Some(t)
    ensures !t.IsException() ==> r == t
    ensures r.IsException() <==> t.IsException()
  {
    if t.IsException() then SqoopException(code, Some(t)) else t
  }

  datatype Result<T> = Ok(value: T) | Err(error: Throwable)

  /** Opaque handles for what the job configuration holds. */
  datatype Schema = Schema(id: nat)
  datatype ConfigObject = ConfigObject(id: nat)

  /** The part of the Hadoop Configuration that a run reads. */
  datatype Configuration = Configuration(
    jobType: JobType,
    connectorSchema: Schema,
    connectorConnection: ConfigObject,
    connectorJob: ConfigObject,
    frameworkConnection: ConfigObject,
    frameworkJob: ConfigObject)

  /** The key prefix of the PrefixContext handed to the extractor: JobConstants.PREFIX_CONNECTOR_CONTEXT or "". */
  datatype Prefix = ConnectorContextPrefix | EmptyPrefix

  /** What the extractor is given besides the writer and the partition. */
  datatype ExecutorConfig = ExecutorConfig(prefix: Prefix, connection: ConfigObject, job: ConfigObject)

  /**
   * The switch on the job type: connector space for IMPORT, framework space for
   * EXPORT, error 0023 for any other value, and a NullPointerException for null.
   */
  function ResolveExecutorConfig(conf: Configuration): (r: Result<ExecutorConfig>)
    ensures r.Err? <==> !conf.jobType.IsSupported()
    ensures conf.jobType.Unrecognized? ==> r == Err(SqoopException(MapredExec0023, None))
    ensures conf.jobType.Absent? ==> r == Err(NullPointerException)
    ensures r.Ok? ==> (r.value.prefix == ConnectorContextPrefix <==> conf.jobType == Import)
    ensures r.Ok? && conf.jobType == Import ==>
      r.value.connection == conf.connectorConnection && r.value.job == conf.connectorJob
    ensures r.Ok? && conf.jobType == Export ==>
      r.value.connection == conf.frameworkConnection && r.value.job == conf.frameworkJob
  {
    match conf.jobType
    case Import => Ok(ExecutorConfig(ConnectorContextPrefix, conf.connectorConnection, conf.connectorJob))
    case Export => Ok(ExecutorConfig(EmptyPrefix, conf.frameworkConnection, conf.frameworkJob))
    case Unrecognized(_) => Err(SqoopException(MapredExec0023, None))
    case Absent => Err(NullPointerException)
  }

  /** A Java object handed to the writer: null, or an instance whose toString() is `text`. */
  datatype JavaObject = Null | Instance(text: string)

  /** A row in one of the three shapes the extractor may hand to the writer. */
  datatype Row =
    | ArrayRecord(values: seq<JavaObject>)   // writeArrayRecord
    | StringRecord(text: string)             // writeStringRecord
    | ObjectRecord(obj: JavaObject)          // writeRecord

  /** The row as last given to the format: by setObjectData, setTextData or setData. */
  datatype FormatData = ObjectData(values: seq<JavaObject>) | TextData(text: string) | Data(text: string)

  /**
   * The format's getTextData() under a bound schema: the canonical text of the row,
   * or what it throws. Being a function, it is deterministic.
   */
  type Encoder = (Schema, FormatData) -> Result<string>

  /** How context.write answers: it returns, or it throws `cause`. */
  datatype ChannelReply = Accepted | Refused(cause: Throwable)

  /** One call the extractor makes on its writer, with the channel's answer to that call's write. */
  datatype Emission = Emission(row: Row, reply: ChannelReply)

  /** How the extractor's extract call ends once it has handed over all its rows. */
  datatype Ending = Returns(rowsRead: int) | Throws(cause: Throwable)

  /**
   * The extractor's behaviour on this partition: the rows it hands to the writer in
   * order, then how it ends. A writer call that throws ends the extract call with
   * that throwable.
   */
  datatype ExtractorScript = ExtractorScript(emissions: seq<Emission>, ending: Ending)

  /** The call a writer entry point makes on the format; obj.toString() on null throws before any. */
  function FormatDataOf(row: Row): (r: Result<FormatData>)
    ensures r.Err? <==> row == ObjectRecord(Null)
    ensures r.Err? ==> r.error == NullPointerException
    ensures row.ArrayRecord? ==> r == Ok(ObjectData(row.values))
    ensures row.StringRecord? ==> r == Ok(TextData(row.text))
    ensures row.ObjectRecord? && row.obj.Instance? ==> r == Ok(Data(row.obj.text))
  {
    match row
    case ArrayRecord(values) => Ok(ObjectData(values))
    case StringRecord(text) => Ok(TextData(text))
    case ObjectRecord(obj) => if obj.Null? then Err(NullPointerException) else Ok(Data(obj.text))
  }

  /** writeContent: encode the format's current row and write it; failures become error 0013. */
  function ContentResult(encode: Encoder, schema: Schema, data: FormatData, reply: ChannelReply): (r: Result<string>)
    ensures r.Ok? <==> encode(schema, data).Ok? && reply.Accepted?
    ensures r.Ok? ==> r.value == encode(schema, data).value
    ensures encode(schema, data).Err? ==> r == Err(Wrap(MapredExec0013, encode(schema, data).error))
    ensures encode(schema, data).Ok? && reply.Refused? ==> r == Err(Wrap(MapredExec0013, reply.cause))
  {
    match encode(schema, data)
    case Err(x) => Err(Wrap(MapredExec0013, x))
    case Ok(text) => if reply.Refused? then Err(Wrap(MapredExec0013, reply.cause)) else Ok(text)
  }

  /**
   * What one writer call yields: the text written to the channel, or what the call
   * throws. A row is written exactly when it can be converted, encoded and accepted.
   */
  function WriteResult(encode: Encoder, schema: Schema, e: Emission): (r: Result<string>)
    ensures r.Ok? <==>
      && FormatDataOf(e.row).Ok?
      && encode(schema, FormatDataOf(e.row).value).Ok?
      && e.reply.Accepted?
    ensures r.Ok? ==> r.value == encode(schema, FormatDataOf(e.row).value).value
    ensures r.Err? && e.row == ObjectRecord(Null) ==> r.error == NullPointerException
    ensures e.row != ObjectRecord(Null) && encode(schema, FormatDataOf(e.row).value).Err? ==>
      r == Err(Wrap(MapredExec0013, encode(schema, FormatDataOf(e.row).value).error))
    ensures e.row != ObjectRecord(Null) && encode(schema, FormatDataOf(e.row).value).Ok? && e.reply.Refused? ==>
      r == Err(Wrap(MapredExec0013, e.reply.cause))
  {
    match FormatDataOf(e.row)
    case Err(x) => Err(x)
    case Ok(data) => ContentResult(encode, schema, data, e.reply)
  }

  /** The text setString stores in the reused SqoopWritable for this call, if encoding got that far. */
  function StagedText(encode: Encoder, schema: Schema, row: Row): Option<string>
  {
    match FormatDataOf(row)
    case Err(_) => None
    case Ok(data) => if encode(schema, data).Ok? then Some(encode(schema, data).value) else None
  }

  /** The records written during an extract call, and the writer failure that ended it, if any. */
  datatype Extraction = Extraction(written: seq<string>, failure: Option<Throwable>)

  /**
   * The writer calls of an extract call, in order, up to the first one that throws.
   * Record i of the output is the encoding of row i; a failure is the first row's that
   * could not be written, and nothing after it is.
   */
  function Extract(encode: Encoder, schema: Schema, emissions: seq<Emission>): (r: Extraction)
    ensures |r.written| <= |emissions|
    ensures r.failure.None? ==> |r.written| == |emissions|
    decreases |emissions|
  {
    if emissions == [] then Extraction([], None)
    else
      var previous := Extract(encode, schema, emissions[..|emissions| - 1]);
      if previous.failure.Some? then previous
      else
        match WriteResult(encode, schema, emissions[|emissions| - 1])
        case Ok(text) => Extraction(previous.written + [text], None)
        case Err(x) => Extraction(previous.written, Some(x))
  }

  /** What the extract call throws, if anything: a writer failure, or the extractor's own. */
  function ExtractorFailure(encode: Encoder, schema: Schema, script: ExtractorScript): (r: Option<Throwable>)
    ensures r.None? <==> Extract(encode, schema, script.emissions).failure.None? && script.ending.Returns?
    ensures Extract(encode, schema, script.emissions).failure.Some? ==> r == Extract(encode, schema, script.emissions).failure
    ensures Extract(encode, schema, script.emissions).failure.None? && script.ending.Throws? ==> r == Some(script.ending.cause)
  {
    var extraction := Extract(encode, schema, script.emissions);
    if extraction.failure.Some? then extraction.failure
    else if script.ending.Throws? then Some(script.ending.cause)
    else None
  }

  /** The progress service is scheduled with delay 0 and this period, in minutes. */
  const ProgressPeriodMinutes: nat := 2

  /** How long, in seconds, the finally block waits for the progress service to terminate. */
  const ShutdownGraceSeconds: nat := 5

  /** How progressService.awaitTermination answers. */
  datatype AwaitReply = Terminated | TimedOut | Interrupted

  /** The observable steps of a run, in the order they happen. */
  datatype Event =
    | SchemaSet(schema: Schema)
    | ProgressScheduled(initialDelayMinutes: nat, periodMinutes: nat)
    | ExtractorInvoked(config: ExecutorConfig)
    | RecordWritten(text: string)
    | RowsReadCredited(delta: int)
    | ShutdownRequested
    | TerminationAwaited(timeoutSeconds: nat)
    | ShutdownForced

  /** One RecordWritten event per record, in order. */
  function WriteEvents(texts: seq<string>): seq<Event>
  {
    if texts == [] then []
    else WriteEvents(texts[..|texts| - 1]) + [RecordWritten(texts[|texts| - 1])]
  }

  /** The texts of the RecordWritten events of a trace, in order. */
  function Writes(trace: seq<Event>): seq<string>
  {
    if trace == [] then []
    else
      var last := trace[|trace| - 1];
      Writes(trace[..|trace| - 1]) + (if last.RecordWritten? then [last.text] else [])
  }

  /** The finally block: shutdown, awaitTermination(5 s), and shutdownNow if that timed out. */
  function StopEvents(await: AwaitReply): (r: seq<Event>)
  {
    [ShutdownRequested, TerminationAwaited(ShutdownGraceSeconds)] + (if await == TimedOut then [ShutdownForced] else [])
  }

  /** What a run leaves behind: what it throws, the ROWS_READ counter, the records written, and its trace. */
  datatype RunEffect = RunEffect(thrown: Option<Throwable>, rowsRead: int, output: seq<string>, trace: seq<Event>)

  /** The effect of SqoopMapper.run, starting from a ROWS_READ counter of `rowsRead0`. */
  function RunMapper(encode: Encoder, conf: Configuration, script: ExtractorScript, await: AwaitReply, rowsRead0: int): RunEffect
  {
    var bind := [SchemaSet(conf.connectorSchema)];
    match ResolveExecutorConfig(conf)
    case Err(x) => RunEffect(Some(x), rowsRead0, [], bind)
    case Ok(config) =>
      var written := Extract(encode, conf.connectorSchema, script.emissions).written;
      var failure := ExtractorFailure(encode, conf.connectorSchema, script);
      var credit := if failure.None? then [RowsReadCredited(script.ending.rowsRead)] else [];
      var rowsRead := if failure.None? then rowsRead0 + script.ending.rowsRead else rowsRead0;
      var thrown :=
        if await == Interrupted then Some(InterruptedException)
        else if failure.Some? then Some(Wrap(MapredExec0017, failure.value))
        else None;
      RunEffect(thrown, rowsRead, written,
        bind + [ProgressScheduled(0, ProgressPeriodMinutes), ExtractorInvoked(config)]
        + WriteEvents(written) + credit + StopEvents(await))
  }

  /** The mapper object, with the parts of its Hadoop context it touches. */
  class SqoopMapper {
    /** getTextData() of the IntermediateDataFormat class named in the configuration. */
    const encode: Encoder
    /** The schema set on `data`. */
    var boundSchema: Option<Schema>
    /** The row `data` currently holds. */
    var formatData: Option<FormatData>
    /** The text held by the reused SqoopWritable `dataOut`. */
    var dataOut: Option<string>
    /** The records given to context.write, in call order. */
    var output: seq<string>
    /** The ROWS_READ counter. */
    var rowsRead: int
    /** progressService: scheduled, how often shut down, whether forced with shutdownNow. */
    var scheduled: bool
    var shutdownCalls: nat
    var forcedShutdown: bool
    /** The steps taken so far. */
    ghost var trace: seq<Event>

    /** A mapper that has not run yet. */
    ghost predicate Idle()
      reads this
    {
      && boundSchema.None? && formatData.None? && output == []
      && !scheduled && shutdownCalls == 0 && !forcedShutdown && trace == []
    }

    constructor (encode: Encoder, rowsRead0: int)
      ensures this.encode == encode && rowsRead == rowsRead0 && dataOut.None? && Idle()
    {
      this.encode := encode;
      boundSchema, formatData, dataOut := None, None, None;
      output, rowsRead := [], rowsRead0;
      scheduled, shutdownCalls, forcedShutdown := false, 0, false;
      trace := [];
    }

    /**
     * The state change of one writer call with result `r` whose encoding step
     * staged `staged`: the record is written and traced exactly when `r` is Ok.
     */
    twostate predicate Emitted(new r: Result<string>, new staged: Option<string>, new thrown: Option<Throwable>)
      reads this
    {
      && thrown == (if r.Ok? then None else Some(r.error))
      && output == old(output) + (if r.Ok? then [r.value] else [])
      && trace == old(trace) + (if r.Ok? then [RecordWritten(r.value)] else [])
      && dataOut == (if staged.Some? then staged else old(dataOut))
      && boundSchema == old(boundSchema) && rowsRead == old(rowsRead)
      && scheduled == old(scheduled) && shutdownCalls == old(shutdownCalls) && forcedShutdown == old(forcedShutdown)
    }

    /** MapDataWriter.writeContent. */
    method WriteContent(reply: ChannelReply) returns (thrown: Option<Throwable>)
      requires boundSchema.Some? && formatData.Some?
      modifies this
      ensures boundSchema == old(boundSchema)
      ensures formatData == old(formatData)
      ensures
        var staged := if encode(boundSchema.value, formatData.value).Ok?
                      then Some(encode(boundSchema.value, formatData.value).value) else None;
        Emitted(ContentResult(encode, boundSchema.value, formatData.value, reply), staged, thrown)
    {
      var text := encode(boundSchema.value, formatData.value);
      if text.Err? {
        thrown := Some(Wrap(MapredExec0013, text.error));
        return;
      }
      dataOut := Some(text.value);
      if reply.Refused? {
        thrown := Some(Wrap(MapredExec0013, reply.cause));
        return;
      }
      output := output + [text.value];
      trace := trace + [RecordWritten(text.value)];
      thrown := None;
    }

    /** MapDataWriter.writeArrayRecord. */
    method WriteArrayRecord(values: seq<JavaObject>, reply: ChannelReply) returns (thrown: Option<Throwable>)
      requires boundSchema.Some?
      modifies this
      ensures boundSchema == old(boundSchema)
      ensures formatData == Some(ObjectData(values))
      ensures
        var e := Emission(ArrayRecord(values), reply);
        Emitted(WriteResult(encode, boundSchema.value, e), StagedText(encode, boundSchema.value, e.row), thrown)
    {
      formatData := Some(ObjectData(values));
      thrown := WriteContent(reply);
    }

    /** MapDataWriter.writeStringRecord. */
    method WriteStringRecord(text: string, reply: ChannelReply) returns (thrown: Option<Throwable>)
      requires boundSchema.Some?
      modifies this
      ensures boundSchema == old(boundSchema)
      ensures formatData == Some(TextData(text))
      ensures
        var e := Emission(StringRecord(text), reply);
        Emitted(WriteResult(encode, boundSchema.value, e), StagedText(encode, boundSchema.value, e.row), thrown)
    {
      formatData := Some(TextData(text));
      thrown := WriteContent(reply);
    }

    /** MapDataWriter.writeRecord: obj.toString() throws on null before the format is touched. */
    method WriteRecord(obj: JavaObject, reply: ChannelReply) returns (thrown: Option<Throwable>)
      requires boundSchema.Some?
      modifies this
      ensures boundSchema == old(boundSchema)
      ensures formatData == (if obj.Null? then old(formatData) else Some(Data(obj.text)))
      ensures
        var e := Emission(ObjectRecord(obj), reply);
        Emitted(WriteResult(encode, boundSchema.value, e), StagedText(encode, boundSchema.value, e.row), thrown)
    {
      if obj.Null? {
        thrown := Some(NullPointerException);
        return;
      }
      formatData := Some(Data(obj.text));
      thrown := WriteContent(reply);
    }

    /** The extractor handing one row to the writer entry point that matches its shape. */
    method Hand(e: Emission) returns (thrown: Option<Throwable>)
      requires boundSchema.Some?
      modifies this
      ensures boundSchema == old(boundSchema)
      ensures Emitted(WriteResult(encode, boundSchema.value, e), StagedText(encode, boundSchema.value, e.row), thrown)
    {
      match e.row {
        case ArrayRecord(values) => thrown := WriteArrayRecord(values, e.reply);
        case StringRecord(text) => thrown := WriteStringRecord(text, e.reply);
        case ObjectRecord(obj) => thrown := WriteRecord(obj, e.reply);
      }
    }

    /**
     * The writer calls the extractor makes during its extract call: each row goes to
     * the entry point matching its shape, in order, until one throws.
     */
    method HandRows(emissions: seq<Emission>) returns (failure: Option<Throwable>)
      requires boundSchema.Some?
      modifies this
      ensures
        var extraction := Extract(encode, old(boundSchema).value, emissions);
        && failure == extraction.failure
        && output == old(output) + extraction.written
        && trace == old(trace) + WriteEvents(extraction.written)
      ensures boundSchema == old(boundSchema) && rowsRead == old(rowsRead)
      ensures scheduled == old(scheduled) && shutdownCalls == old(shutdownCalls) && forcedShutdown == old(forcedShutdown)
    {
      ghost var schema := boundSchema.value;
      failure := None;
      var i := 0;
      while i < |emissions| && failure.None?
        invariant 0 <= i <= |emissions|
        invariant boundSchema == Some(schema) && rowsRead == old(rowsRead)
        invariant scheduled == old(scheduled) && shutdownCalls == old(shutdownCalls) && forcedShutdown == old(forcedShutdown)
        invariant failure == Extract(encode, schema, emissions[..i]).failure
        invariant output == old(output) + Extract(encode, schema, emissions[..i]).written
        invariant trace == old(trace) + WriteEvents(Extract(encode, schema, emissions[..i]).written)
      {
        ExtractStep(encode, schema, emissions, i);
        failure := Hand(emissions[i]);
        i := i + 1;
      }
      ExtractStopsAtFailure(encode, schema, emissions, i);
    }

    /**
     * The finally block of run: shutdown, then awaitTermination for five seconds, then
     * shutdownNow if that timed out. An interrupted wait throws InterruptedException.
     */
    method StopProgressService(await: AwaitReply) returns (thrown: Option<Throwable>)
      modifies this
      ensures thrown == if await == Interrupted then Some(InterruptedException) else None
      ensures shutdownCalls == old(shutdownCalls) + 1
      ensures forcedShutdown == (old(forcedShutdown) || await == TimedOut)
      ensures trace == old(trace) + StopEvents(await)
      ensures boundSchema == old(boundSchema) && rowsRead == old(rowsRead) && output == old(output)
      ensures scheduled == old(scheduled)
    {
      shutdownCalls := shutdownCalls + 1;
      trace := trace + [ShutdownRequested, TerminationAwaited(ShutdownGraceSeconds)];
      thrown := None;
      match await {
        case Terminated =>
        case TimedOut =>
          forcedShutdown := true;
          trace := trace + [ShutdownForced];
        case Interrupted =>
          thrown := Some(InterruptedException);
      }
    }

    /**
     * The body of run's try block after scheduling: the extract call, then the ROWS_READ
     * credit if that call returned. `failure` is what the call threw, if anything.
     */
    method ExtractAndCredit(script: ExtractorScript) returns (failure: Option<Throwable>)
      requires boundSchema.Some?
      modifies this
      ensures
        var schema := old(boundSchema).value;
        var written := Extract(encode, schema, script.emissions).written;
        && failure == ExtractorFailure(encode, schema, script)
        && output == old(output) + written
        && rowsRead == old(rowsRead) + (if failure.None? then script.ending.rowsRead else 0)
        && trace == old(trace) + WriteEvents(written) + (if failure.None? then [RowsReadCredited(script.ending.rowsRead)] else [])
      ensures boundSchema == old(boundSchema)
      ensures scheduled == old(scheduled) && shutdownCalls == old(shutdownCalls) && forcedShutdown == old(forcedShutdown)
    {
      failure := HandRows(script.emissions);
      if failure.None? && script.ending.Throws? {
        failure := Some(script.ending.cause);
      }
      if failure.None? {
        rowsRead := rowsRead + script.ending.rowsRead;
        trace := trace + [RowsReadCredited(script.ending.rowsRead)];
      }
    }

    /**
     * SqoopMapper.run on a mapper that has not run yet. The extractor's extract call
     * is the loop: it hands the script's rows to the writer entry point matching
     * their shape, in order, and ends at the first call that throws.
     */
    method Run(conf: Configuration, script: ExtractorScript, await: AwaitReply) returns (thrown: Option<Throwable>)
      requires Idle()
      modifies this
      ensures
        var effect := RunMapper(encode, conf, script, await, old(rowsRead));
        thrown == effect.thrown && rowsRead == effect.rowsRead && output == effect.output && trace == effect.trace
      ensures boundSchema == Some(conf.connectorSchema)
      ensures scheduled <==> conf.jobType.IsSupported()
      ensures shutdownCalls == if conf.jobType.IsSupported() then 1 else 0
      ensures forcedShutdown <==> conf.jobType.IsSupported() && await == TimedOut
    {
      ghost var rowsRead0 := rowsRead;
      boundSchema := Some(conf.connectorSchema);
      trace := trace + [SchemaSet(conf.connectorSchema)];
      dataOut := None;
      var resolved := ResolveExecutorConfig(conf);
      if resolved.Err? {
        thrown := Some(resolved.error);
        return;
      }
      var config := resolved.value;

      scheduled := true;
      trace := trace + [ProgressScheduled(0, ProgressPeriodMinutes), ExtractorInvoked(config)];
      ghost var started := trace;
      var failure := ExtractAndCredit(script);
      thrown := if failure.None? then None else Some(Wrap(MapredExec0017, failure.value));
      ghost var extracted := trace;

      var interrupted := StopProgressService(await);
      if interrupted.Some? {
        thrown := interrupted;
      }
      ghost var effect := RunMapper(encode, conf, script, await, rowsRead0);
      assert effect.thrown == thrown;
      assert started == [SchemaSet(conf.connectorSchema)] + [ProgressScheduled(0, ProgressPeriodMinutes), ExtractorInvoked(config)];
      assert effect.trace == trace;
    }
  }

  /** Once a prefix of the writer calls has failed, the later calls are never made. */
  lemma {:induction false} ExtractStopsAtFailure(encode: Encoder, schema: Schema, emissions: seq<Emission>, i: nat)
    requires i <= |emissions|
    requires i < |emissions| ==> Extract(encode, schema, emissions[..i]).failure.Some?
    ensures Extract(encode, schema, emissions) == Extract(encode, schema, emissions[..i])
    decreases |emissions| - i
  {
    if i == |emissions| {
      assert emissions[..i] == emissions;
    } else {
      var front := emissions[..|emissions| - 1];
      assert front[..i] == emissions[..i];
      ExtractStopsAtFailure(encode, schema, front, i);
    }
  }

  /** One more writer call: it runs only if no earlier one failed, and its record, if any, is appended. */
  lemma ExtractStep(encode: Encoder, schema: Schema, emissions: seq<Emission>, i: nat)
    requires i < |emissions|
    requires Extract(encode, schema, emissions[..i]).failure.None?
    ensures
      var before := Extract(encode, schema, emissions[..i]).written;
      var r := WriteResult(encode, schema, emissions[i]);
      && Extract(encode, schema, emissions[..i + 1])
         == (if r.Ok? then Extraction(before + [r.value], None) else Extraction(before, Some(r.error)))
      && WriteEvents(Extract(encode, schema, emissions[..i + 1]).written)
         == WriteEvents(before) + (if r.Ok? then [RecordWritten(r.value)] else [])
  {
    assert emissions[..i + 1][..i] == emissions[..i];
    var before := Extract(encode, schema, emissions[..i]).written;
    var r := WriteResult(encode, schema, emissions[i]);
    if r.Ok? {
      assert (before + [r.value])[..|before|] == before;
    }
  }
}
