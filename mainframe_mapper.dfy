/**
 * The mainframe dataset import mapper
 * (org.apache.sqoop.mapreduce.mainframe.AbstractMainframeDatasetImportMapper).
 *
 * Every record goes, under the key its subclass derives from it, to the named
 * output called after the dataset the input split is currently reading; a running
 * record count is reported once, to the MAP_OUTPUT_RECORDS task counter, when the
 * mapper is cleaned up.
 */
module Mainframe {

  /** A record read from a mainframe dataset; its contents do not matter here. */
  datatype SqoopRecord = SqoopRecord(fields: seq<string>)

  /** One multiFileWriter.write call: the key, a null value, and the named output. */
  datatype NamedWrite<Key> = NamedWrite(key: Key, namedOutput: string)

  /** The keys each named output has received, in write order. */
  function Outputs<Key>(writes: seq<NamedWrite<Key>>): (m: map<string, seq<Key>>)
    ensures m.Keys == set w | w in writes :: w.namedOutput
    decreases |writes|
  {
    if writes == [] then map[]
    else
      var before := Outputs(writes[..|writes| - 1]);
      var w := writes[|writes| - 1];
      assert writes == writes[..|writes| - 1] + [w];
      before[w.namedOutput := (if w.namedOutput in before then before[w.namedOutput] else []) + [w.key]]
  }

  /** The keys written to the named output `d`, in write order: the reference for what `d` holds. */
  function KeysWrittenTo<Key>(writes: seq<NamedWrite<Key>>, d: string): seq<Key>
    decreases |writes|
  {
    if writes == [] then []
    else
      var w := writes[|writes| - 1];
      KeysWrittenTo(writes[..|writes| - 1], d) + (if w.namedOutput == d then [w.key] else [])
  }

  /** Selecting the keys of one output distributes over a split of the writes. */
  lemma {:induction false} KeysWrittenToAppend<Key>(a: seq<NamedWrite<Key>>, b: seq<NamedWrite<Key>>, d: string)
    ensures KeysWrittenTo(a + b, d) == KeysWrittenTo(a, d) + KeysWrittenTo(b, d)
    decreases |b|
  {
    if b == [] {
      assert a + b == a;
    } else {
      var front := b[..|b| - 1];
      KeysWrittenToAppend(a, front, d);
      assert (a + b)[..|a + b| - 1] == a + front;
      assert (a + b)[|a + b| - 1] == b[|b| - 1];
    }
  }

  /**
   * Each named output holds exactly the keys written to it, in write order, and an
   * output never written to does not exist.
   */
  lemma {:induction false} OutputHoldsKeysWrittenTo<Key>(writes: seq<NamedWrite<Key>>, d: string)
    ensures d in Outputs(writes) ==> Outputs(writes)[d] == KeysWrittenTo(writes, d)
    ensures d !in Outputs(writes) ==> KeysWrittenTo(writes, d) == []
    decreases |writes|
  {
    if writes != [] {
      var front := writes[..|writes| - 1];
      OutputHoldsKeysWrittenTo(front, d);
    }
  }

  /** The named outputs written to, each once, in the order they were first written. */
  function Datasets<Key>(writes: seq<NamedWrite<Key>>): seq<string>
    decreases |writes|
  {
    if writes == [] then []
    else
      var before := Datasets(writes[..|writes| - 1]);
      var d := writes[|writes| - 1].namedOutput;
      if d in before then before else before + [d]
  }

  /** The number of keys the outputs `datasets` hold in `outputs`. */
  function TotalKeys<Key>(outputs: map<string, seq<Key>>, datasets: seq<string>): nat
    decreases |datasets|
  {
    if datasets == [] then 0
    else
      var d := datasets[|datasets| - 1];
      TotalKeys(outputs, datasets[..|datasets| - 1]) + (if d in outputs then |outputs[d]| else 0)
  }

  ghost predicate Distinct(s: seq<string>)
  {
    forall i, j :: 0 <= i < j < |s| ==> s[i] != s[j]
  }

  /** Each named output written to is listed once, and no other is. */
  lemma {:induction false} DatasetsListOutputs<Key>(writes: seq<NamedWrite<Key>>)
    ensures Distinct(Datasets(writes))
    ensures forall d :: d in Datasets(writes) <==> d in Outputs(writes)
    decreases |writes|
  {
    if writes != [] {
      var front := writes[..|writes| - 1];
      DatasetsListOutputs(front);
      assert writes == front + [writes[|writes| - 1]];
    }
  }

  /** Outputs that agree on the listed datasets hold the same number of keys there. */
  lemma {:induction false} TotalKeysAgree<Key>(m: map<string, seq<Key>>, m': map<string, seq<Key>>, datasets: seq<string>)
    requires forall d :: d in datasets ==> (d in m <==> d in m') && (d in m ==> |m[d]| == |m'[d]|)
    ensures TotalKeys(m, datasets) == TotalKeys(m', datasets)
    decreases |datasets|
  {
    if datasets != [] {
      TotalKeysAgree(m, m', datasets[..|datasets| - 1]);
    }
  }

  /** One more key in a dataset listed once adds one to the total. */
  lemma {:induction false} TotalKeysBump<Key>(m: map<string, seq<Key>>, d: string, k: Key, datasets: seq<string>)
    requires d in m && Distinct(datasets)
    ensures TotalKeys(m[d := m[d] + [k]], datasets) == TotalKeys(m, datasets) + (if d in datasets then 1 else 0)
    decreases |datasets|
  {
    if datasets != [] {
      var front := datasets[..|datasets| - 1];
      assert Distinct(front);
      TotalKeysBump(m, d, k, front);
      assert d in datasets <==> d in front || d == datasets[|datasets| - 1];
      assert d in front ==> d != datasets[|datasets| - 1];
    }
  }

  /** The per-dataset write counts add up to the number of writes. */
  lemma {:induction false} OutputsSumToWrites<Key>(writes: seq<NamedWrite<Key>>)
    ensures TotalKeys(Outputs(writes), Datasets(writes)) == |writes|
    decreases |writes|
  {
    if writes != [] {
      var front := writes[..|writes| - 1];
      var w := writes[|writes| - 1];
      var m := Outputs(front);
      var ds := Datasets(front);
      OutputsSumToWrites(front);
      DatasetsListOutputs(front);
      if w.namedOutput in m {
        TotalKeysBump(m, w.namedOutput, w.key, ds);
      } else {
        TotalKeysAgree(m, Outputs(writes), ds);
      }
    }
  }

  /** The input split: the record reader moves its current dataset forward as it reads. */
  class MainframeDatasetInputSplit {
    var currentDataset: string

    constructor (dataset: string)
      ensures currentDataset == dataset
    {
      currentDataset := dataset;
    }
  }

  /** The mapper, with createOutKey standing for the subclass's key derivation. */
  class MainframeDatasetImportMapper<Key> {
    const createOutKey: SqoopRecord -> Key
    var inputSplit: MainframeDatasetInputSplit?
    /** multiFileWriter: whether it has been created, the writes it received, and whether it was closed. */
    var writerCreated: bool
    var writes: seq<NamedWrite<Key>>
    var writerClosed: bool
    var numberOfRecords: int
    /** The MAP_OUTPUT_RECORDS task counter. */
    var mapOutputRecords: int
    /** Records counted whose write threw. */
    ghost var failedWrites: nat

    /** Every counted record was written, unless its write threw. */
    ghost predicate Valid()
      reads this
    {
      numberOfRecords == |writes| + failedWrites
    }

    constructor (createOutKey: SqoopRecord -> Key, mapOutputRecords0: int)
      ensures this.createOutKey == createOutKey && mapOutputRecords == mapOutputRecords0
      ensures inputSplit == null && !writerCreated && !writerClosed && writes == [] && numberOfRecords == 0
      ensures Valid()
    {
      this.createOutKey := createOutKey;
      inputSplit := null;
      writerCreated, writes, writerClosed := false, [], false;
      numberOfRecords, mapOutputRecords := 0, mapOutputRecords0;
      failedWrites := 0;
    }

    /** setup: remember the split, open a fresh multi-output writer, reset the record count. */
    method Setup(split: MainframeDatasetInputSplit)
      modifies this
      ensures inputSplit == split && writerCreated && !writerClosed && writes == []
      ensures numberOfRecords == 0 && failedWrites == 0 && Valid()
      ensures mapOutputRecords == old(mapOutputRecords)
    {
      inputSplit := split;
      writerCreated, writes, writerClosed := true, [], false;
      numberOfRecords := 0;
      failedWrites := 0;
    }

    /**
     * map: count the record, then write createOutKey(val) to the output named by the
     * split's current dataset. When that write throws (`delivered` false), the record
     * is still counted and the exception propagates.
     */
    method Map(val: SqoopRecord, delivered: bool) returns (thrown: bool)
      requires Valid() && inputSplit != null && writerCreated && !writerClosed
      modifies this
      ensures Valid() && inputSplit == old(inputSplit)
      ensures numberOfRecords == old(numberOfRecords) + 1
      ensures thrown == !delivered
      ensures writes == old(writes) + (if delivered then [NamedWrite(createOutKey(val), inputSplit.currentDataset)] else [])
      ensures failedWrites == old(failedWrites) + (if delivered then 0 else 1)
      ensures writerCreated && writerClosed == old(writerClosed)
      ensures mapOutputRecords == old(mapOutputRecords)
    {
      var dataset := inputSplit.currentDataset;
      numberOfRecords := numberOfRecords + 1;
      if !delivered {
        failedWrites := failedWrites + 1;
        return true;
      }
      writes := writes + [NamedWrite(createOutKey(val), dataset)];
      thrown := false;
    }

    /**
     * cleanup: close the writer, then add the record count to MAP_OUTPUT_RECORDS.
     * When close throws (`closed` false), the counter is not updated.
     */
    method Cleanup(closed: bool) returns (thrown: bool)
      requires writerCreated
      modifies this
      ensures thrown == !closed
      ensures writerClosed
      ensures mapOutputRecords == old(mapOutputRecords) + (if closed then numberOfRecords else 0)
      ensures numberOfRecords == old(numberOfRecords) && writes == old(writes) && failedWrites == old(failedWrites)
      ensures inputSplit == old(inputSplit) && writerCreated == old(writerCreated)
    {
      writerClosed := true;
      if !closed {
        return true;
      }
      mapOutputRecords := mapOutputRecords + numberOfRecords;
      thrown := false;
    }
  }

  /** When no write has thrown, the per-dataset write counts add up to the record count. */
  lemma RecordCountMatchesOutputs<Key>(mapper: MainframeDatasetImportMapper<Key>)
    requires mapper.Valid() && mapper.failedWrites == 0
    ensures TotalKeys(Outputs(mapper.writes), Datasets(mapper.writes)) == mapper.numberOfRecords
  {
    OutputsSumToWrites(mapper.writes);
  }

  /** Writes to A, A, B leave two keys in output A and one in output B, A listed first. */
  lemma FanOutExample<Key>(k1: Key, k2: Key, k3: Key)
    ensures
      var writes := [NamedWrite(k1, "A"), NamedWrite(k2, "A"), NamedWrite(k3, "B")];
      && Outputs(writes) == map["A" := [k1, k2], "B" := [k3]]
      && Datasets(writes) == ["A", "B"]
  {
    var s1 := [NamedWrite(k1, "A")];
    assert s1[..0] == [];
    assert [] + [k1] == [k1];
    assert Outputs(s1) == map["A" := [k1]];
    assert Datasets(s1) == ["A"];
    var s2 := s1 + [NamedWrite(k2, "A")];
    assert s2[..1] == s1;
    assert [k1] + [k2] == [k1, k2];
    assert Outputs(s2) == map["A" := [k1, k2]];
    assert Datasets(s2) == ["A"];
    var s3 := s2 + [NamedWrite(k3, "B")];
    assert s3[..2] == s2;
    assert [] + [k3] == [k3];
    assert s3 == [NamedWrite(k1, "A"), NamedWrite(k2, "A"), NamedWrite(k3, "B")];
  }

  /**
   * Records from datasets A, A, B: output A receives the first two keys, output B
   * the third, and MAP_OUTPUT_RECORDS rises from 0 to 3 at cleanup.
   */
  method FanOutScenario<Key>(createOutKey: SqoopRecord -> Key, r1: SqoopRecord, r2: SqoopRecord, r3: SqoopRecord)
    returns (outputs: map<string, seq<Key>>, datasets: seq<string>, mapOutputRecords: int)
    ensures outputs == map["A" := [createOutKey(r1), createOutKey(r2)], "B" := [createOutKey(r3)]]
    ensures datasets == ["A", "B"]
    ensures mapOutputRecords == 3
  {
    var split := new MainframeDatasetInputSplit("A");
    var mapper := new MainframeDatasetImportMapper(createOutKey, 0);
    mapper.Setup(split);
    var thrown := mapper.Map(r1, true);
    assert mapper.writes == [NamedWrite(createOutKey(r1), "A")];
    thrown := mapper.Map(r2, true);
    assert mapper.writes == [NamedWrite(createOutKey(r1), "A"), NamedWrite(createOutKey(r2), "A")];
    split.currentDataset := "B";
    thrown := mapper.Map(r3, true);
    assert mapper.writes == [NamedWrite(createOutKey(r1), "A"), NamedWrite(createOutKey(r2), "A"), NamedWrite(createOutKey(r3), "B")];
    thrown := mapper.Cleanup(true);
    FanOutExample(createOutKey(r1), createOutKey(r2), createOutKey(r3));
    outputs, datasets, mapOutputRecords := Outputs(mapper.writes), Datasets(mapper.writes), mapper.mapOutputRecords;
  }
}
