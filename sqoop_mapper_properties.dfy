/**
 * What a run of SqoopMapper guarantees, stated about the specification function
 * JobMr.RunMapper (which SqoopMapper.Run is proved to follow), and two complete
 * runs of the class itself.
 */
module JobMrProperties {
  import opened Wrappers
  import opened JobMr

  /** The records of an extract call are the encodings of its first rows, in order; the failure is the next row's. */
  lemma {:induction false} ExtractWritesInOrder(encode: Encoder, schema: Schema, emissions: seq<Emission>)
    ensures
      var r := Extract(encode, schema, emissions);
      && (forall i :: 0 <= i < |r.written| ==> WriteResult(encode, schema, emissions[i]) == Ok(r.written[i]))
      && (r.failure.Some? ==>
            |r.written| < |emissions| && WriteResult(encode, schema, emissions[|r.written|]) == Err(r.failure.value))
    decreases |emissions|
  {
    if emissions != [] {
      var front := emissions[..|emissions| - 1];
      ExtractWritesInOrder(encode, schema, front);
      assert forall i :: 0 <= i < |front| ==> front[i] == emissions[i];
    }
  }

  /** An extract call whose rows are all written writes one record per row, each the row's encoding. */
  lemma ExtractWritesEveryRow(encode: Encoder, schema: Schema, emissions: seq<Emission>)
    requires forall i :: 0 <= i < |emissions| ==> WriteResult(encode, schema, emissions[i]).Ok?
    ensures Extract(encode, schema, emissions).failure.None?
    ensures |Extract(encode, schema, emissions).written| == |emissions|
    ensures forall i :: 0 <= i < |emissions| ==>
      Extract(encode, schema, emissions).written[i] == WriteResult(encode, schema, emissions[i]).value
  {
    ExtractWritesInOrder(encode, schema, emissions);
  }

  /** The trace of the written records holds nothing but RecordWritten events. */
  lemma {:induction false} WriteEventsAreWrites(texts: seq<string>)
    ensures |WriteEvents(texts)| == |texts|
    ensures forall i :: 0 <= i < |texts| ==> WriteEvents(texts)[i] == RecordWritten(texts[i])
    decreases |texts|
  {
    if texts != [] {
      WriteEventsAreWrites(texts[..|texts| - 1]);
    }
  }

  /** Reading the records back out of a concatenated trace. */
  lemma {:induction false} WritesAppend(a: seq<Event>, b: seq<Event>)
    ensures Writes(a + b) == Writes(a) + Writes(b)
    decreases |b|
  {
    if b != [] {
      assert (a + b)[..|a + b| - 1] == a + b[..|b| - 1];
      WritesAppend(a, b[..|b| - 1]);
    } else {
      assert a + b == a;
    }
  }

  /** Reading the records back out of the events they produced gives the records. */
  lemma {:induction false} WritesOfWriteEvents(texts: seq<string>)
    ensures Writes(WriteEvents(texts)) == texts
    decreases |texts|
  {
    if texts != [] {
      var front := texts[..|texts| - 1];
      WritesOfWriteEvents(front);
      WritesAppend(WriteEvents(front), [RecordWritten(texts[|texts| - 1])]);
      assert Writes([RecordWritten(texts[|texts| - 1])]) == [texts[|texts| - 1]];
      assert front + [texts[|texts| - 1]] == texts;
    }
  }

  /** What the channel received is exactly what the trace records as written, in the same order. */
  lemma OutputIsTracedInOrder(encode: Encoder, conf: Configuration, script: ExtractorScript, await: AwaitReply, rowsRead0: int)
    ensures
      var effect := RunMapper(encode, conf, script, await, rowsRead0);
      Writes(effect.trace) == effect.output
  {
    var effect := RunMapper(encode, conf, script, await, rowsRead0);
    var bind := [SchemaSet(conf.connectorSchema)];
    assert Writes(bind) == [] by {
      assert bind[..0] == [];
    }
    match ResolveExecutorConfig(conf)
    case Err(_) =>
    case Ok(config) =>
      var head := bind + [ProgressScheduled(0, ProgressPeriodMinutes), ExtractorInvoked(config)];
      var written := effect.output;
      var failure := ExtractorFailure(encode, conf.connectorSchema, script);
      var credit := if failure.None? then [RowsReadCredited(script.ending.rowsRead)] else [];
      var tail := credit + StopEvents(await);
      assert effect.trace == head + WriteEvents(written) + tail;
      NoWritesOutside(head);
      NoWritesOutside(tail);
      WritesOfWriteEvents(written);
      WritesAppend(head, WriteEvents(written));
      WritesAppend(head + WriteEvents(written), tail);
  }

  /** A trace holding no RecordWritten event reads back as no records. */
  lemma {:induction false} NoWritesOutside(trace: seq<Event>)
    requires forall i :: 0 <= i < |trace| ==> !trace[i].RecordWritten?
    ensures Writes(trace) == []
    decreases |trace|
  {
    if trace != [] {
      NoWritesOutside(trace[..|trace| - 1]);
    }
  }

  /**
   * The finally block shuts the progress service down, then waits five seconds for
   * it, then forces it down only if that wait timed out.
   */
  lemma FinallyBlockEvents(await: AwaitReply)
    ensures |StopEvents(await)| == (if await == TimedOut then 3 else 2)
    ensures StopEvents(await)[0] == ShutdownRequested && StopEvents(await)[1] == TerminationAwaited(5)
    ensures await == TimedOut ==> StopEvents(await)[2] == ShutdownForced
  {
  }

  /**
   * A run throws nothing exactly when the job type is supported, the extract call
   * returns and the wait for the progress service is not interrupted; a run whose
   * job type is not supported writes nothing and leaves ROWS_READ alone.
   */
  lemma RunOutcome(encode: Encoder, conf: Configuration, script: ExtractorScript, await: AwaitReply, rowsRead0: int)
    ensures
      var effect := RunMapper(encode, conf, script, await, rowsRead0);
      && (effect.thrown.None? <==>
            conf.jobType.IsSupported() && await != Interrupted && ExtractorFailure(encode, conf.connectorSchema, script).None?)
      && (!conf.jobType.IsSupported() ==> effect.output == [] && effect.rowsRead == rowsRead0)
  {
  }

  /**
   * A job type other than IMPORT and EXPORT fails right after the schema is bound,
   * with error 0023, or with a bare NullPointerException when the type is null:
   * the progress service is never scheduled or stopped, the extractor never runs,
   * nothing is written and the ROWS_READ counter is untouched.
   */
  lemma UnsupportedJobTypeFailsBeforeHeartbeat(encode: Encoder, conf: Configuration, script: ExtractorScript, await: AwaitReply, rowsRead0: int)
    requires !conf.jobType.IsSupported()
    ensures
      var effect := RunMapper(encode, conf, script, await, rowsRead0);
      && effect.thrown == Some(if conf.jobType.Absent? then NullPointerException else SqoopException(MapredExec0023, None))
      && effect.rowsRead == rowsRead0
      && effect.output == []
      && effect.trace == [SchemaSet(conf.connectorSchema)]
  {
  }

  /**
   * For IMPORT and EXPORT, a run starts by binding the schema, scheduling the
   * progress service (delay 0, every 2 minutes) and invoking the extractor once,
   * with the connector configuration for IMPORT and the framework configuration
   * for EXPORT; none of these steps happens again later in the run.
   */
  lemma RunStartsInOrder(encode: Encoder, conf: Configuration, script: ExtractorScript, await: AwaitReply, rowsRead0: int)
    requires conf.jobType.IsSupported()
    ensures
      var effect := RunMapper(encode, conf, script, await, rowsRead0);
      var config :=
        if conf.jobType == Import then ExecutorConfig(ConnectorContextPrefix, conf.connectorConnection, conf.connectorJob)
        else ExecutorConfig(EmptyPrefix, conf.frameworkConnection, conf.frameworkJob);
      && |effect.trace| >= 3
      && effect.trace[..3] == [SchemaSet(conf.connectorSchema), ProgressScheduled(0, 2), ExtractorInvoked(config)]
      && (forall i :: 3 <= i < |effect.trace| ==>
            !effect.trace[i].SchemaSet? && !effect.trace[i].ProgressScheduled? && !effect.trace[i].ExtractorInvoked?)
  {
    var effect := RunMapper(encode, conf, script, await, rowsRead0);
    var written := effect.output;
    WriteEventsAreWrites(written);
  }

  /** The events of a supported run before its first record: schema, schedule, extractor. */
  function StartEvents(conf: Configuration, config: ExecutorConfig): seq<Event>
  {
    [SchemaSet(conf.connectorSchema), ProgressScheduled(0, ProgressPeriodMinutes), ExtractorInvoked(config)]
  }

  /** What a supported run credits to ROWS_READ: getRowsRead() if the extract call returned, nothing otherwise. */
  function Credit(encode: Encoder, conf: Configuration, script: ExtractorScript): Option<int>
  {
    if ExtractorFailure(encode, conf.connectorSchema, script).None? then Some(script.ending.rowsRead) else None
  }

  /** The events of a supported run after its last record: the credit, if any, and the finally block. */
  function EndEvents(credit: Option<int>, await: AwaitReply): seq<Event>
  {
    (if credit.Some? then [RowsReadCredited(credit.value)] else []) + StopEvents(await)
  }

  /** A supported run's trace: its start, its records, its end. */
  lemma TraceShape(encode: Encoder, conf: Configuration, script: ExtractorScript, await: AwaitReply, rowsRead0: int)
    requires conf.jobType.IsSupported()
    ensures
      var effect := RunMapper(encode, conf, script, await, rowsRead0);
      effect.trace
        == StartEvents(conf, ResolveExecutorConfig(conf).value) + WriteEvents(effect.output)
           + EndEvents(Credit(encode, conf, script), await)
  {
  }

  /**
   * The ROWS_READ counter rises by the extractor's getRowsRead() exactly when the
   * extract call returns normally; when the call throws, the counter keeps its
   * value even if records were already written.
   */
  lemma RowsReadCreditedOnlyOnReturn(encode: Encoder, conf: Configuration, script: ExtractorScript, await: AwaitReply, rowsRead0: int)
    requires conf.jobType.IsSupported()
    ensures
      var effect := RunMapper(encode, conf, script, await, rowsRead0);
      var returned := ExtractorFailure(encode, conf.connectorSchema, script).None?;
      && (returned ==> script.ending.Returns? && effect.rowsRead == rowsRead0 + script.ending.rowsRead)
      && (!returned ==> effect.rowsRead == rowsRead0)
  {
  }

  /**
   * The trace shows the counter credited once, just before the progress service is
   * stopped, when the extract call returns, and never when it throws.
   */
  lemma RowsReadCreditedOnce(encode: Encoder, conf: Configuration, script: ExtractorScript, await: AwaitReply, rowsRead0: int)
    requires conf.jobType.IsSupported()
    ensures
      var effect := RunMapper(encode, conf, script, await, rowsRead0);
      var returned := ExtractorFailure(encode, conf.connectorSchema, script).None?;
      var k := |effect.trace| - |StopEvents(await)|;
      && (returned ==> k >= 1 && effect.trace[k - 1] == RowsReadCredited(script.ending.rowsRead))
      && (forall j :: 0 <= j < |effect.trace| ==> (effect.trace[j].RowsReadCredited? <==> returned && j == k - 1))
  {
    var effect := RunMapper(encode, conf, script, await, rowsRead0);
    TraceShape(encode, conf, script, await, rowsRead0);
    WriteEventsAreWrites(effect.output);
    CreditBeforeStop(StartEvents(conf, ResolveExecutorConfig(conf).value), WriteEvents(effect.output),
      Credit(encode, conf, script), await);
  }

  /** In a trace made of a run's start, some records and an end, the only credit is the end's, just before the stop. */
  lemma CreditBeforeStop(start: seq<Event>, writes: seq<Event>, credit: Option<int>, await: AwaitReply)
    requires |start| == 3 && start[0].SchemaSet? && start[1].ProgressScheduled? && start[2].ExtractorInvoked?
    requires forall i :: 0 <= i < |writes| ==> writes[i].RecordWritten?
    ensures
      var trace := start + writes + EndEvents(credit, await);
      var k := |trace| - |StopEvents(await)|;
      && (credit.Some? ==> k >= 1 && trace[k - 1] == RowsReadCredited(credit.value))
      && (forall j :: 0 <= j < |trace| ==> (trace[j].RowsReadCredited? <==> credit.Some? && j == k - 1))
  {
    var end := EndEvents(credit, await);
    var trace := start + writes + end;
    forall j | 0 <= j < |trace|
      ensures trace[j].RowsReadCredited? <==> credit.Some? && j == |trace| - |StopEvents(await)| - 1
    {
      if j < 3 {
        assert trace[j] == start[j];
      } else if j < 3 + |writes| {
        assert trace[j] == writes[j - 3];
      } else {
        assert trace[j] == end[j - 3 - |writes|];
      }
    }
  }

  /**
   * Once the progress service is scheduled (once, second step of the run), it is
   * shut down exactly once, at the very end, whether the extract call returned or
   * threw; shutdownNow follows if and only if awaitTermination timed out.
   */
  lemma ProgressServiceStoppedOnce(encode: Encoder, conf: Configuration, script: ExtractorScript, await: AwaitReply, rowsRead0: int)
    requires conf.jobType.IsSupported()
    ensures
      var effect := RunMapper(encode, conf, script, await, rowsRead0);
      var k := |effect.trace| - |StopEvents(await)|;
      && 3 <= k && effect.trace[k..] == StopEvents(await)
      && (forall j :: 0 <= j < |effect.trace| ==> (effect.trace[j].ProgressScheduled? <==> j == 1))
      && (forall j :: 0 <= j < |effect.trace| ==> (effect.trace[j] == ShutdownRequested <==> j == k))
      && (forall j :: 0 <= j < |effect.trace| ==> (effect.trace[j].TerminationAwaited? <==> j == k + 1))
      && (forall j :: 0 <= j < |effect.trace| ==> (effect.trace[j] == ShutdownForced <==> await == TimedOut && j == k + 2))
      && effect.trace[k + 1] == TerminationAwaited(5)
  {
    var effect := RunMapper(encode, conf, script, await, rowsRead0);
    TraceShape(encode, conf, script, await, rowsRead0);
    WriteEventsAreWrites(effect.output);
    StopEventsCloseTrace(StartEvents(conf, ResolveExecutorConfig(conf).value), WriteEvents(effect.output),
      Credit(encode, conf, script), await);
  }

  /**
   * In a trace made of a run's start, some records and an end, scheduling happens
   * only at step 2 and each event of the finally block only at its place at the end.
   */
  lemma StopEventsCloseTrace(start: seq<Event>, writes: seq<Event>, credit: Option<int>, await: AwaitReply)
    requires |start| == 3 && start[0].SchemaSet? && start[1].ProgressScheduled? && start[2].ExtractorInvoked?
    requires forall i :: 0 <= i < |writes| ==> writes[i].RecordWritten?
    ensures
      var trace := start + writes + EndEvents(credit, await);
      var k := |trace| - |StopEvents(await)|;
      && 3 <= k && trace[k..] == StopEvents(await)
      && (forall j :: 0 <= j < |trace| ==> (trace[j].ProgressScheduled? <==> j == 1))
      && (forall j :: 0 <= j < |trace| ==> (trace[j] == ShutdownRequested <==> j == k))
      && (forall j :: 0 <= j < |trace| ==> (trace[j].TerminationAwaited? <==> j == k + 1))
      && (forall j :: 0 <= j < |trace| ==> (trace[j] == ShutdownForced <==> await == TimedOut && j == k + 2))
      && trace[k + 1] == TerminationAwaited(5)
  {
    var end := EndEvents(credit, await);
    var trace := start + writes + end;
    var c := if credit.Some? then 1 else 0;
    var k := |trace| - |StopEvents(await)|;
    assert k == 3 + |writes| + c;
    forall j | 0 <= j < |trace|
      ensures trace[j].ProgressScheduled? <==> j == 1
      ensures trace[j] == ShutdownRequested <==> j == k
      ensures trace[j].TerminationAwaited? <==> j == k + 1
      ensures trace[j] == ShutdownForced <==> await == TimedOut && j == k + 2
    {
      if j < 3 {
        assert trace[j] == start[j];
      } else if j < 3 + |writes| {
        assert trace[j] == writes[j - 3];
      } else {
        assert trace[j] == end[j - 3 - |writes|];
      }
    }
    assert trace[k..] == end[c..];
  }

  /**
   * Whatever exception the extract call throws, a writer's or the extractor's own,
   * the run throws error 0017 carrying it as the cause, unless the wait for the
   * progress service is interrupted; a java.lang.Error passes through unwrapped.
   * A run whose extract call returns throws nothing unless that wait is interrupted.
   */
  lemma ExtractionFailureSurfacesAs0017(encode: Encoder, conf: Configuration, script: ExtractorScript, await: AwaitReply, rowsRead0: int)
    requires conf.jobType.IsSupported()
    ensures
      var effect := RunMapper(encode, conf, script, await, rowsRead0);
      var failure := ExtractorFailure(encode, conf.connectorSchema, script);
      && (await == Interrupted ==> effect.thrown == Some(InterruptedException))
      && (await != Interrupted && failure.None? ==> effect.thrown.None?)
      && (await != Interrupted && failure.Some? && failure.value.IsException() ==>
            effect.thrown == Some(SqoopException(MapredExec0017, failure)))
      && (await != Interrupted && failure.Some? && !failure.value.IsException() ==>
            effect.thrown == failure)
  {
  }

  /**
   * A row the format cannot encode, or the channel refuses, ends the run with error
   * 0017 wrapping error 0013 wrapping the original exception; the rows before it
   * stay written.
   */
  lemma WriterFailureNestsIn0017(encode: Encoder, conf: Configuration, script: ExtractorScript, await: AwaitReply, rowsRead0: int, k: nat, cause: Throwable)
    requires conf.jobType.IsSupported() && await != Interrupted
    requires k < |script.emissions| && cause.IsException()
    requires forall i :: 0 <= i < k ==> WriteResult(encode, conf.connectorSchema, script.emissions[i]).Ok?
    requires
      || (script.emissions[k].row != ObjectRecord(Null)
          && encode(conf.connectorSchema, FormatDataOf(script.emissions[k].row).value) == Err(cause))
      || (script.emissions[k].row != ObjectRecord(Null)
          && encode(conf.connectorSchema, FormatDataOf(script.emissions[k].row).value).Ok?
          && script.emissions[k].reply == Refused(cause))
    ensures
      var effect := RunMapper(encode, conf, script, await, rowsRead0);
      && effect.thrown == Some(SqoopException(MapredExec0017, Some(SqoopException(MapredExec0013, Some(cause)))))
      && |effect.output| == k
      && effect.rowsRead == rowsRead0
  {
    var schema := conf.connectorSchema;
    var emissions := script.emissions;
    assert WriteResult(encode, schema, emissions[k]) == Err(SqoopException(MapredExec0013, Some(cause)));
    assert emissions[..k + 1][..k] == emissions[..k];
    ExtractWritesEveryRow(encode, schema, emissions[..k]);
    ExtractStopsAtFailure(encode, schema, emissions, k + 1);
  }

  /**
   * A complete run: three text rows "a,1", "a,2", "a,3" that the format encodes and
   * the channel accepts, and an extractor reporting 3 rows read. Three records are
   * written in emission order, the counter rises from 0 to 3, and the progress
   * service is shut down once.
   */
  method TextRowsScenario(encode: Encoder, conf: Configuration)
    returns (thrown: Option<Throwable>, rowsRead: int, output: seq<string>, shutdownCalls: nat)
    requires conf.jobType.IsSupported()
    requires encode(conf.connectorSchema, TextData("a,1")).Ok?
    requires encode(conf.connectorSchema, TextData("a,2")).Ok?
    requires encode(conf.connectorSchema, TextData("a,3")).Ok?
    ensures thrown == None && rowsRead == 3 && shutdownCalls == 1
    ensures output == [
      encode(conf.connectorSchema, TextData("a,1")).value,
      encode(conf.connectorSchema, TextData("a,2")).value,
      encode(conf.connectorSchema, TextData("a,3")).value]
  {
    var mapper := new SqoopMapper(encode, 0);
    var rows := [
      Emission(StringRecord("a,1"), Accepted),
      Emission(StringRecord("a,2"), Accepted),
      Emission(StringRecord("a,3"), Accepted)];
    ExtractWritesEveryRow(encode, conf.connectorSchema, rows);
    var script := ExtractorScript(rows, Returns(3));
    assert ExtractorFailure(encode, conf.connectorSchema, script).None?;
    RunOutcome(encode, conf, script, Terminated, 0);
    RowsReadCreditedOnlyOnReturn(encode, conf, script, Terminated, 0);
    thrown := mapper.Run(conf, script, Terminated);
    rowsRead, output, shutdownCalls := mapper.rowsRead, mapper.output, mapper.shutdownCalls;
  }

  /**
   * A failing run: the extractor writes one row and then throws. The run throws
   * error 0017 carrying that exception, the written row stays written, the counter
   * stays at 0, and the progress service is shut down once.
   */
  method FailureAfterOneRowScenario(encode: Encoder, conf: Configuration, cause: Throwable)
    returns (thrown: Option<Throwable>, rowsRead: int, written: nat, shutdownCalls: nat)
    requires conf.jobType.IsSupported() && cause.IsException()
    requires encode(conf.connectorSchema, TextData("a,1")).Ok?
    ensures thrown == Some(SqoopException(MapredExec0017, Some(cause)))
    ensures rowsRead == 0 && written == 1 && shutdownCalls == 1
  {
    var mapper := new SqoopMapper(encode, 0);
    var rows := [Emission(StringRecord("a,1"), Accepted)];
    ExtractWritesEveryRow(encode, conf.connectorSchema, rows);
    thrown := mapper.Run(conf, ExtractorScript(rows, Throws(cause)), Terminated);
    rowsRead, written, shutdownCalls := mapper.rowsRead, |mapper.output|, mapper.shutdownCalls;
  }
}
