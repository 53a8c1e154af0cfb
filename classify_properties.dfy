/** What `parse_node_exporter` promises about its result, proved of the
    reference `Classified` that `ParseNodeExporter` is shown to compute. */
module ClassifyProperties {
  import opened Text
  import opened Results
  import opened Fingerprints
  import opened Samples
  import opened Selection
  import opened CpuBuckets
  import opened Classify

  /** The records appended after the parsed ones when nothing panics. */
  function Appended(parsed: seq<NodeExporterValues>): seq<NodeExporterValues> {
    FamilySummaries(parsed, |SUMMED_FAMILIES|) +
    if Present(parsed, NameIs(CPU_SECONDS)) && BucketsPresent(parsed, |CPU_BUCKETS|)
    then CpuSummaries(parsed, |CPU_BUCKETS|) else []
  }

  lemma ClassifiedSplit(samples: seq<Sample>)
    requires Classified(samples).Ok?
    ensures Classified(samples).value ==
      Recategorise(ConvertAll(samples), |SUMMARISED_NAMES|) + Appended(ConvertAll(samples))
  {
    var parsed := ConvertAll(samples);
    var recategorised := Recategorise(parsed, |SUMMARISED_NAMES|);
    var summaries := FamilySummaries(parsed, |SUMMED_FAMILIES|);
    if Present(parsed, NameIs(CPU_SECONDS)) {
      var cpu := CpuSummaries(parsed, |CPU_BUCKETS|);
      assert (recategorised + summaries) + cpu == recategorised + (summaries + cpu);
    } else {
      assert summaries + [] == summaries;
    }
  }

  lemma CountSingle(r: NodeExporterValues, sel: Selector)
    ensures Count([r], sel) == if Selects(sel, r) then 1 else 0
  {
    assert [r][..0] == [];
  }

  /** A name-only filter for one family counts its summary once, when the
      family has records and is among the first `m`. */
  lemma {:induction false} FamilySummariesCount(parsed: seq<NodeExporterValues>, m: nat, k: nat)
    requires m <= |SUMMED_FAMILIES| && k < |SUMMED_FAMILIES|
    ensures Count(FamilySummaries(parsed, m), NameIs(SUMMED_FAMILIES[k])) ==
      if k < m && Present(parsed, NameIs(SUMMED_FAMILIES[k])) then 1 else 0
  {
    if m > 0 {
      var family := SUMMED_FAMILIES[m - 1];
      var sel := NameIs(SUMMED_FAMILIES[k]);
      FamilySummariesCount(parsed, m - 1, k);
      SummarisedNamesDistinct();
      assert SUMMARISED_NAMES[k] == SUMMED_FAMILIES[k] && SUMMARISED_NAMES[m - 1] == family;
      if Present(parsed, NameIs(family)) {
        CountAppend(FamilySummaries(parsed, m - 1), [FamilySummary(parsed, family)], sel);
        CountSingle(FamilySummary(parsed, family), sel);
      } else {
        assert FamilySummaries(parsed, m) == FamilySummaries(parsed, m - 1) + [];
        assert FamilySummaries(parsed, m) == FamilySummaries(parsed, m - 1);
      }
    }
  }

  /** The CPU family's filter counts each of the first `n` bucket summaries. */
  lemma {:induction false} CpuSummariesCount(parsed: seq<NodeExporterValues>, n: nat)
    requires n <= |CPU_BUCKETS| && BucketsPresent(parsed, n)
    ensures Count(CpuSummaries(parsed, n), NameIs(CPU_SECONDS)) == n
  {
    if n > 0 {
      CpuSummariesCount(parsed, n - 1);
      CpuSummariesExtend(parsed, n - 1);
      CountAppend(CpuSummaries(parsed, n - 1), [BucketSummary(parsed, CPU_BUCKETS[n - 1])], NameIs(CPU_SECONDS));
      CountSingle(BucketSummary(parsed, CPU_BUCKETS[n - 1]), NameIs(CPU_SECONDS));
    }
  }

  /** Nothing is removed or reordered: the parsed records come first, in
      their order, with every field but the category as converted; the
      category is "detail" for demoted and summarised families and stays
      "all" otherwise (src/lib.rs lines 138-319). */
  lemma ParsedRecordsKept(samples: seq<Sample>)
    requires Classified(samples).Ok?
    ensures var out, parsed := Classified(samples).value, ConvertAll(samples);
      && |parsed| <= |out|
      && (forall i :: 0 <= i < |parsed| ==> SameReading(out[i], parsed[i]))
      && (forall i :: 0 <= i < |parsed| ==>
            out[i].category == if ShouldDemote(parsed[i]) || parsed[i].name in SUMMARISED_NAMES then DETAIL else ALL)
  {
    var out, parsed := Classified(samples).value, ConvertAll(samples);
    ClassifiedSplit(samples);
    ConvertAllCategory(samples);
    assert SUMMARISED_NAMES[..|SUMMARISED_NAMES|] == SUMMARISED_NAMES;
    forall i | 0 <= i < |parsed|
      ensures out[i] == Recategorise(parsed, |SUMMARISED_NAMES|)[i]
      ensures parsed[i].category == ALL
    {
      assert parsed[i] in parsed;
    }
  }

  /** Every appended record is a "summary" counter of a summarised family. */
  lemma AppendedShape(parsed: seq<NodeExporterValues>)
    ensures forall j :: 0 <= j < |Appended(parsed)| ==>
      var r := Appended(parsed)[j];
      r.category == SUMMARY && r.kind == COUNTER && r.name in SUMMARISED_NAMES
  {
    var summaries := FamilySummaries(parsed, |SUMMED_FAMILIES|);
    var appended := Appended(parsed);
    FamilySummariesNamed(parsed, |SUMMED_FAMILIES|);
    AppendedCpuPart(parsed);
    assert SUMMED_FAMILIES[..|SUMMED_FAMILIES|] == SUMMED_FAMILIES;
    forall j | 0 <= j < |appended|
      ensures appended[j].category == SUMMARY && appended[j].kind == COUNTER && appended[j].name in SUMMARISED_NAMES
    {
      if j < |summaries| {
        assert appended[..|summaries|][j] == appended[j];
        var family := summaries[j].name;
        assert family in SUMMED_FAMILIES;
        assert appended[j] == FamilySummary(parsed, family);
        assert SUMMARISED_NAMES == SUMMED_FAMILIES + [CPU_SECONDS];
      } else {
        var cpu := CpuSummaries(parsed, |CPU_BUCKETS|);
        assert appended == summaries + cpu;
        assert appended[j] == cpu[j - |summaries|];
        assert SUMMARISED_NAMES[|SUMMED_FAMILIES|] == CPU_SECONDS;
      }
    }
  }

  /** Everything after the parsed records is a "summary" counter of one of
      the seven summarised families. */
  lemma AppendedAreSummaries(samples: seq<Sample>)
    requires Classified(samples).Ok?
    ensures var out, parsed := Classified(samples).value, ConvertAll(samples);
      forall j :: |parsed| <= j < |out| ==>
        out[j].category == SUMMARY && out[j].kind == COUNTER && out[j].name in SUMMARISED_NAMES
  {
    var out, parsed := Classified(samples).value, ConvertAll(samples);
    var appended := Appended(parsed);
    ClassifiedSplit(samples);
    assert out[|parsed|..] == appended;
    AppendedShape(parsed);
    forall j | |parsed| <= j < |out|
      ensures out[j].category == SUMMARY && out[j].kind == COUNTER && out[j].name in SUMMARISED_NAMES
    {
      assert out[j] == appended[j - |parsed|];
    }
  }

  /** The appended records are the family summaries followed by records
      named after the CPU family only. */
  lemma AppendedCpuPart(parsed: seq<NodeExporterValues>)
    ensures var summaries := FamilySummaries(parsed, |SUMMED_FAMILIES|);
      |summaries| <= |Appended(parsed)| &&
      Appended(parsed)[..|summaries|] == summaries &&
      forall i :: |summaries| <= i < |Appended(parsed)| ==> Appended(parsed)[i].name == CPU_SECONDS
  {
  }

  /** Within the appended records, family `k` is counted once when it has
      records and never otherwise. */
  lemma AppendedFamilyCount(parsed: seq<NodeExporterValues>, k: nat)
    requires k < |SUMMED_FAMILIES|
    ensures Count(Appended(parsed), NameIs(SUMMED_FAMILIES[k])) ==
      if Present(parsed, NameIs(SUMMED_FAMILIES[k])) then 1 else 0
  {
    var family := SUMMED_FAMILIES[k];
    var sel := NameIs(family);
    var summaries := FamilySummaries(parsed, |SUMMED_FAMILIES|);
    var appended := Appended(parsed);
    var cpu := appended[|summaries|..];
    AppendedCpuPart(parsed);
    assert appended == summaries + cpu;
    SummarisedNamesDistinct();
    assert SUMMARISED_NAMES[k] == family && SUMMARISED_NAMES[|SUMMED_FAMILIES|] == CPU_SECONDS;
    assert NoneSelected(cpu, sel);
    CountPositive(cpu, sel);
    CountAppend(summaries, cpu, sel);
    FamilySummariesCount(parsed, |SUMMED_FAMILIES|, k);
  }

  /** Every appended record named after family `k` is that family's summary. */
  lemma AppendedFamilyRecord(parsed: seq<NodeExporterValues>, k: nat)
    requires k < |SUMMED_FAMILIES|
    ensures forall j :: 0 <= j < |Appended(parsed)| && Appended(parsed)[j].name == SUMMED_FAMILIES[k] ==>
      Present(parsed, NameIs(SUMMED_FAMILIES[k])) &&
      Appended(parsed)[j] == FamilySummary(parsed, SUMMED_FAMILIES[k])
  {
    var summaries := FamilySummaries(parsed, |SUMMED_FAMILIES|);
    AppendedCpuPart(parsed);
    SummarisedNamesDistinct();
    assert SUMMARISED_NAMES[k] == SUMMED_FAMILIES[k] && SUMMARISED_NAMES[|SUMMED_FAMILIES|] == CPU_SECONDS;
    FamilySummariesNamed(parsed, |SUMMED_FAMILIES|);
    forall j | 0 <= j < |Appended(parsed)| && Appended(parsed)[j].name == SUMMED_FAMILIES[k]
      ensures j < |summaries| && Appended(parsed)[j] == summaries[j]
    {
      assert Appended(parsed)[..|summaries|][j] == Appended(parsed)[j];
    }
  }

  /** Each of the six families gets exactly one summary when it has
      records and none otherwise; the summary is an unlabelled counter
      holding the sum of the family's values and its earliest timestamp
      (src/lib.rs lines 159-246). */
  lemma FamilySummarised(samples: seq<Sample>, k: nat)
    requires Classified(samples).Ok? && k < |SUMMED_FAMILIES|
    ensures var out, parsed := Classified(samples).value, ConvertAll(samples);
      |parsed| <= |out| &&
      Count(out[|parsed|..], NameIs(SUMMED_FAMILIES[k])) ==
        if Present(parsed, NameIs(SUMMED_FAMILIES[k])) then 1 else 0
    ensures var out, parsed, family := Classified(samples).value, ConvertAll(samples), SUMMED_FAMILIES[k];
      Present(parsed, NameIs(family)) ==>
        forall j :: |parsed| <= j < |out| && out[j].name == family ==>
          out[j] == NodeExporterValues(family, COUNTER, "", SUMMARY,
            SumOf(parsed, NameIs(family)), MinOf(parsed, NameIs(family)).value)
  {
    var out, parsed := Classified(samples).value, ConvertAll(samples);
    ClassifiedSplit(samples);
    assert out[|parsed|..] == Appended(parsed);
    AppendedFamilyCount(parsed, k);
    AppendedFamilyRecord(parsed, k);
    var appended := Appended(parsed);
    var family := SUMMED_FAMILIES[k];
    forall j | |parsed| <= j < |out| && out[j].name == family
      ensures out[j] == FamilySummary(parsed, family)
    {
      assert out[j] == appended[j - |parsed|];
    }
  }

  /** Within the appended records, the CPU family is counted once per
      bucket when it has records and nothing panics, and never when it has
      none. */
  lemma AppendedCpuCount(parsed: seq<NodeExporterValues>)
    requires !Present(parsed, NameIs(CPU_SECONDS)) || BucketsPresent(parsed, |CPU_BUCKETS|)
    ensures Count(Appended(parsed), NameIs(CPU_SECONDS)) ==
      if Present(parsed, NameIs(CPU_SECONDS)) then |CPU_BUCKETS| else 0
  {
    var summaries := FamilySummaries(parsed, |SUMMED_FAMILIES|);
    FamilySummariesNamed(parsed, |SUMMED_FAMILIES|);
    SummarisedNamesDistinct();
    assert SUMMED_FAMILIES[..|SUMMED_FAMILIES|] == SUMMED_FAMILIES;
    assert forall i :: 0 <= i < |SUMMED_FAMILIES| ==> SUMMED_FAMILIES[i] == SUMMARISED_NAMES[i];
    assert CPU_SECONDS == SUMMARISED_NAMES[|SUMMED_FAMILIES|];
    assert NoneSelected(summaries, NameIs(CPU_SECONDS));
    CountPositive(summaries, NameIs(CPU_SECONDS));
    if Present(parsed, NameIs(CPU_SECONDS)) {
      CountAppend(summaries, CpuSummaries(parsed, |CPU_BUCKETS|), NameIs(CPU_SECONDS));
      CpuSummariesCount(parsed, |CPU_BUCKETS|);
    } else {
      assert Appended(parsed) == summaries;
    }
  }

  /** When the CPU family has records and nothing panics, exactly eight
      CPU summaries close the vector, in bucket order, each summing the
      family's records whose fingerprint holds the bucket's substring and
      stamped with their earliest timestamp (src/lib.rs lines 247-317). */
  lemma CpuSummarised(samples: seq<Sample>)
    requires Classified(samples).Ok?
    ensures var out, parsed := Classified(samples).value, ConvertAll(samples);
      |parsed| <= |out| &&
      Count(out[|parsed|..], NameIs(CPU_SECONDS)) ==
        if Present(parsed, NameIs(CPU_SECONDS)) then |CPU_BUCKETS| else 0
    ensures var out, parsed := Classified(samples).value, ConvertAll(samples);
      Present(parsed, NameIs(CPU_SECONDS)) ==>
        |parsed| + |CPU_BUCKETS| <= |out| &&
        forall j :: 0 <= j < |CPU_BUCKETS| ==>
          var bucket := CPU_BUCKETS[j];
          Present(parsed, BucketSelector(bucket)) &&
          out[|out| - |CPU_BUCKETS| + j] == NodeExporterValues(CPU_SECONDS, COUNTER, bucket.labels, SUMMARY,
            SumOf(parsed, BucketSelector(bucket)), MinOf(parsed, BucketSelector(bucket)).value)
  {
    var out, parsed := Classified(samples).value, ConvertAll(samples);
    ClassifiedSplit(samples);
    assert out[|parsed|..] == Appended(parsed);
    AppendedCpuCount(parsed);
    if Present(parsed, NameIs(CPU_SECONDS)) {
      var cpu := CpuSummaries(parsed, |CPU_BUCKETS|);
      assert out == (Recategorise(parsed, |SUMMARISED_NAMES|) + FamilySummaries(parsed, |SUMMED_FAMILIES|)) + cpu;
      forall j | 0 <= j < |CPU_BUCKETS|
        ensures out[|out| - |CPU_BUCKETS| + j] == cpu[j]
      {
      }
    }
  }

  /** The classifier panics exactly when the CPU family has records but
      some bucket's filter selects none of them, and the panic is
      `Option::unwrap` on `None` (src/lib.rs line 258 and its seven
      siblings). */
  lemma ClassifiedPanics(samples: seq<Sample>)
    ensures var parsed := ConvertAll(samples);
      Classified(samples).Panicked? <==>
        Present(parsed, NameIs(CPU_SECONDS)) &&
        exists j :: 0 <= j < |CPU_BUCKETS| && !Present(parsed, BucketSelector(CPU_BUCKETS[j]))
    ensures Classified(samples).Panicked? ==> Classified(samples).message == UNWRAP_ON_NONE
  {
  }

  /** A sample with a label value containing "dm-" is demoted: the value is
      part of the fingerprint the demotion filter searches (src/lib.rs
      lines 82-89 and 155-158). */
  lemma DeviceMapperLabelDemoted(sample: Sample, k: nat)
    requires Convert(sample).Some? && k < |sample.labels| && Contains(sample.labels[k].value, "dm-")
    ensures ShouldDemote(Convert(sample).value)
  {
    var values := LabelValues(sample.labels);
    FingerprintContainsValues(values);
    assert values[k] in values;
    ContainsTransitive(Fingerprint(values), values[k], "dm-");
  }

  /** One CPU sample, for CPU 0 in mode "idle". */
  const IDLE_SAMPLE := Sample(CPU_SECONDS, [Label("cpu", "0"), Label("mode", "idle")], Counter(5.0), 0)

  lemma IdleFingerprint()
    ensures Fingerprint(["0", "idle"]) == "_0_idle"
  {
    var values := ["0", "idle"];
    assert LessOrEqual("0", "idle");
    assert Sorted(values);
    FingerprintOfSorted(values);
    assert values[1..] == ["idle"];
    assert Join(values, "_") == "0" + "_" + "idle";
  }

  lemma IdleSampleConverted()
    ensures ConvertAll([IDLE_SAMPLE]) == [NodeExporterValues(CPU_SECONDS, COUNTER, "_0_idle", ALL, 5.0, 0)]
  {
    assert LabelValues(IDLE_SAMPLE.labels) == ["0", "idle"];
    IdleFingerprint();
    assert [IDLE_SAMPLE][..0] == [];
    assert ConvertAll([IDLE_SAMPLE]) == ConvertAll([]) + Kept(Convert(IDLE_SAMPLE));
  }

  /** A CPU bucket with no record makes the classifier panic. */
  lemma MissingBucketPanics(samples: seq<Sample>, j: nat)
    requires j < |CPU_BUCKETS| && Present(ConvertAll(samples), NameIs(CPU_SECONDS))
    requires !Present(ConvertAll(samples), BucketSelector(CPU_BUCKETS[j]))
    ensures Classified(samples) == Panicked(UNWRAP_ON_NONE)
  {
  }

  /** A scrape whose CPU family reports only the "idle" mode makes the
      `_irq` push unwrap `None`: one idle sample is enough to panic. */
  lemma IdleOnlyScrapePanics(samples: seq<Sample>)
    requires samples == [IDLE_SAMPLE]
    ensures Classified(samples) == Panicked(UNWRAP_ON_NONE)
  {
    var parsed := ConvertAll(samples);
    var idle := NodeExporterValues(CPU_SECONDS, COUNTER, "_0_idle", ALL, 5.0, 0);
    IdleSampleConverted();
    assert parsed == [idle];
    assert parsed[0] == idle && Selects(NameIs(CPU_SECONDS), idle);
    NotContainedBecause("_0_idle", "_irq", 'r');
    assert !Selects(BucketSelector(CPU_BUCKETS[1]), idle);
    assert NoneSelected(parsed, BucketSelector(CPU_BUCKETS[1]));
    MissingBucketPanics(samples, 1);
  }
}
