/** The post-processing half of `parse_node_exporter` (src/lib.rs lines
    138-319): demotion of self-observability and device-mapper records,
    and synthesis of "summary" records for the softnet, schedstat and CPU
    families. `ParseNodeExporter` runs the steps in the source's order over
    one record vector; `Classified` states declaratively what it returns. */
module Classify {
  import opened Text
  import opened Results
  import opened Samples
  import opened Selection
  import opened CpuBuckets

  /** The six families summed into one unlabelled summary, in source order
      (src/lib.rs lines 159-246). */
  const SUMMED_FAMILIES: seq<string> := [
    "node_softnet_processed_total",
    "node_softnet_dropped_total",
    "node_softnet_times_squeezed_total",
    "node_schedstat_waiting_seconds_total",
    "node_schedstat_timeslices_total",
    "node_schedstat_running_seconds_total"
  ]

  const CPU_SECONDS := "node_cpu_seconds_total"

  /** Every family whose records become "detail" once summarised. */
  const SUMMARISED_NAMES: seq<string> := SUMMED_FAMILIES + [CPU_SECONDS]

  /** Records about node_exporter itself: its process, HTTP server, Go
      runtime and scraper (src/lib.rs lines 140-154). */
  predicate IsSelfObservability(name: string) {
    StartsWith(name, "process_") || StartsWith(name, "promhttp_") ||
    StartsWith(name, "go_") || StartsWith(name, "node_scrape_collector_")
  }

  /** Self-observability records and device-mapper records (src/lib.rs
      lines 155-158) are demoted to "detail". */
  predicate ShouldDemote(r: NodeExporterValues) {
    IsSelfObservability(r.name) || Contains(r.labels, "dm-")
  }

  function BucketSelector(bucket: CpuBucket): Selector {
    NameIsAndLabelsContain(CPU_SECONDS, bucket.fragment)
  }

  /** The summary pushed for one of the six families. */
  function FamilySummary(values: seq<NodeExporterValues>, family: string): NodeExporterValues
    requires Present(values, NameIs(family))
  {
    var sel := NameIs(family);
    NodeExporterValues(family, COUNTER, "", SUMMARY, SumOf(values, sel), MinOf(values, sel).value)
  }

  /** The summary pushed for one CPU bucket. */
  function BucketSummary(values: seq<NodeExporterValues>, bucket: CpuBucket): NodeExporterValues
    requires Present(values, BucketSelector(bucket))
  {
    var sel := BucketSelector(bucket);
    NodeExporterValues(CPU_SECONDS, COUNTER, bucket.labels, SUMMARY, SumOf(values, sel), MinOf(values, sel).value)
  }

  predicate BucketsPresent(values: seq<NodeExporterValues>, n: int)
    requires n <= |CPU_BUCKETS|
  {
    forall j :: 0 <= j < n ==> Present(values, BucketSelector(CPU_BUCKETS[j]))
  }

  /** The first `n` CPU summaries, each over `values`. */
  function CpuSummaries(values: seq<NodeExporterValues>, n: nat): seq<NodeExporterValues>
    requires n <= |CPU_BUCKETS| && BucketsPresent(values, n)
  {
    seq(n, j requires 0 <= j < n => BucketSummary(values, CPU_BUCKETS[j]))
  }

  // ---------------------------------------------------------------------
  // The reference: what the classifier returns, stated without steps.
  // ---------------------------------------------------------------------

  /** The parsed records, each set to "detail" when it is demoted or
      belongs to one of the first `k` summarised families. */
  function Recategorise(parsed: seq<NodeExporterValues>, k: nat): seq<NodeExporterValues>
    requires k <= |SUMMARISED_NAMES|
  {
    seq(|parsed|, i requires 0 <= i < |parsed| =>
      if ShouldDemote(parsed[i]) || parsed[i].name in SUMMARISED_NAMES[..k]
      then parsed[i].(category := DETAIL) else parsed[i])
  }

  /** The summaries of the first `k` of the six families, one for each that
      has a record. */
  function FamilySummaries(parsed: seq<NodeExporterValues>, k: nat): seq<NodeExporterValues>
    requires k <= |SUMMED_FAMILIES|
  {
    if k == 0 then []
    else
      FamilySummaries(parsed, k - 1) +
      if Present(parsed, NameIs(SUMMED_FAMILIES[k - 1])) then [FamilySummary(parsed, SUMMED_FAMILIES[k - 1])] else []
  }

  /** What `parse_node_exporter` returns for the samples the parser
      produced, or the panic it raises. */
  function Classified(samples: seq<Sample>): Result<seq<NodeExporterValues>> {
    var parsed := ConvertAll(samples);
    var kept := Recategorise(parsed, |SUMMARISED_NAMES|) + FamilySummaries(parsed, |SUMMED_FAMILIES|);
    if !Present(parsed, NameIs(CPU_SECONDS)) then Ok(kept)
    else if !BucketsPresent(parsed, |CPU_BUCKETS|) then Panicked(UNWRAP_ON_NONE)
    else Ok(kept + CpuSummaries(parsed, |CPU_BUCKETS|))
  }

  // ---------------------------------------------------------------------
  // The steps, as the source runs them.
  // ---------------------------------------------------------------------

  /** One family block (e.g. src/lib.rs lines 159-174): when the family has
      records, relabel them "detail" and push their summary. */
  method SynthesizeFamily(values: seq<NodeExporterValues>, family: string) returns (result: seq<NodeExporterValues>)
    ensures !Present(values, NameIs(family)) ==> result == values
    ensures Present(values, NameIs(family)) ==>
      result == MarkDetail(values, NameIs(family)) + [FamilySummary(values, family)]
  {
    var sel := NameIs(family);
    CountPositive(values, sel);
    result := values;
    if Count(values, sel) > 0 {
      result := DemoteWhere(values, sel);
      MarkDetailAgrees(values, sel);
      AgreeSelection(result, values, sel);
      result := result + [NodeExporterValues(family, COUNTER, "", SUMMARY, SumOf(result, sel), MinOf(result, sel).value)];
    }
  }

  /** One CPU bucket push (e.g. src/lib.rs lines 253-260); `min().unwrap()`
      panics when the bucket's filter selects nothing. */
  method PushCpuBucket(values: seq<NodeExporterValues>, bucket: CpuBucket) returns (outcome: Result<seq<NodeExporterValues>>)
    ensures !Present(values, BucketSelector(bucket)) ==> outcome == Panicked(UNWRAP_ON_NONE)
    ensures Present(values, BucketSelector(bucket)) ==> outcome == Ok(values + [BucketSummary(values, bucket)])
  {
    var sel := BucketSelector(bucket);
    var earliest := MinOf(values, sel);
    if earliest.None? {
      return Panicked(UNWRAP_ON_NONE);
    }
    outcome := Ok(values + [NodeExporterValues(CPU_SECONDS, COUNTER, bucket.labels, SUMMARY, SumOf(values, sel), earliest.value)]);
  }

  lemma CpuSummariesExtend(values: seq<NodeExporterValues>, j: nat)
    requires j < |CPU_BUCKETS| && BucketsPresent(values, j + 1)
    ensures CpuSummaries(values, j + 1) == CpuSummaries(values, j) + [BucketSummary(values, CPU_BUCKETS[j])]
  {
    var longer, shorter := CpuSummaries(values, j + 1), CpuSummaries(values, j);
    forall i | 0 <= i < j
      ensures longer[i] == shorter[i]
    {
    }
  }

  /** No summary pushed for an earlier bucket is selected by bucket `j`. */
  lemma EarlierBucketsIgnored(values: seq<NodeExporterValues>, j: nat)
    requires j < |CPU_BUCKETS| && BucketsPresent(values, j)
    ensures NoneSelected(CpuSummaries(values, j), BucketSelector(CPU_BUCKETS[j]))
  {
    var earlier := CpuSummaries(values, j);
    forall i | 0 <= i < |earlier|
      ensures !Selects(BucketSelector(CPU_BUCKETS[j]), earlier[i])
    {
      FragmentAbsent(i, j);
      assert earlier[i].labels == CPU_BUCKETS[i].labels;
    }
  }

  /** After the CPU records are marked and the first `j` buckets pushed, the
      vector is the marked records followed by those `j` summaries, and
      bucket `j` sees exactly what it would see in the unmarked input. */
  lemma CpuStep(values: seq<NodeExporterValues>, current: seq<NodeExporterValues>, j: nat)
    requires j < |CPU_BUCKETS| && BucketsPresent(values, j)
    requires current == MarkDetail(values, NameIs(CPU_SECONDS)) + CpuSummaries(values, j)
    ensures Present(current, BucketSelector(CPU_BUCKETS[j])) == Present(values, BucketSelector(CPU_BUCKETS[j]))
    ensures Present(values, BucketSelector(CPU_BUCKETS[j])) ==>
      BucketsPresent(values, j + 1) &&
      current + [BucketSummary(current, CPU_BUCKETS[j])] ==
        MarkDetail(values, NameIs(CPU_SECONDS)) + CpuSummaries(values, j + 1)
  {
    var sel := BucketSelector(CPU_BUCKETS[j]);
    var marked := MarkDetail(values, NameIs(CPU_SECONDS));
    var earlier := CpuSummaries(values, j);
    EarlierBucketsIgnored(values, j);
    MarkDetailAgrees(values, NameIs(CPU_SECONDS));
    SelectionUnaffected(values, marked, earlier, sel);
    if Present(values, sel) {
      assert BucketsPresent(values, j + 1);
      var summary := BucketSummary(values, CPU_BUCKETS[j]);
      assert BucketSummary(current, CPU_BUCKETS[j]) == summary;
      CpuSummariesExtend(values, j);
      assert current + [summary] == marked + (earlier + [summary]);
    }
  }

  /** One CPU bucket push as it happens inside the CPU block: the vector
      so far is the marked input followed by the earlier buckets' summaries. */
  method PushNextBucket(ghost values: seq<NodeExporterValues>, current: seq<NodeExporterValues>, j: nat)
    returns (outcome: Result<seq<NodeExporterValues>>)
    requires j < |CPU_BUCKETS| && BucketsPresent(values, j)
    requires current == MarkDetail(values, NameIs(CPU_SECONDS)) + CpuSummaries(values, j)
    ensures !Present(values, BucketSelector(CPU_BUCKETS[j])) ==> outcome == Panicked(UNWRAP_ON_NONE)
    ensures Present(values, BucketSelector(CPU_BUCKETS[j])) ==>
      BucketsPresent(values, j + 1) &&
      outcome == Ok(MarkDetail(values, NameIs(CPU_SECONDS)) + CpuSummaries(values, j + 1))
  {
    CpuStep(values, current, j);
    outcome := PushCpuBucket(current, CPU_BUCKETS[j]);
  }

  /** The CPU block (src/lib.rs lines 247-317). */
  method SynthesizeCpu(values: seq<NodeExporterValues>) returns (outcome: Result<seq<NodeExporterValues>>)
    ensures !Present(values, NameIs(CPU_SECONDS)) ==> outcome == Ok(values)
    ensures Present(values, NameIs(CPU_SECONDS)) && !BucketsPresent(values, |CPU_BUCKETS|) ==>
      outcome == Panicked(UNWRAP_ON_NONE)
    ensures Present(values, NameIs(CPU_SECONDS)) && BucketsPresent(values, |CPU_BUCKETS|) ==>
      outcome == Ok(MarkDetail(values, NameIs(CPU_SECONDS)) + CpuSummaries(values, |CPU_BUCKETS|))
  {
    CountPositive(values, NameIs(CPU_SECONDS));
    if Count(values, NameIs(CPU_SECONDS)) == 0 {
      return Ok(values);
    }
    var current := DemoteWhere(values, NameIs(CPU_SECONDS));
    assert current == MarkDetail(values, NameIs(CPU_SECONDS)) + CpuSummaries(values, 0);
    current :- PushNextBucket(values, current, 0);
    current :- PushNextBucket(values, current, 1);
    current :- PushNextBucket(values, current, 2);
    current :- PushNextBucket(values, current, 3);
    current :- PushNextBucket(values, current, 4);
    current :- PushNextBucket(values, current, 5);
    current :- PushNextBucket(values, current, 6);
    current :- PushNextBucket(values, current, 7);
    outcome := Ok(current);
  }

  // ---------------------------------------------------------------------
  // Each step takes the reference one stage further.
  // ---------------------------------------------------------------------

  /** The vector after the demotions and the first `k` family blocks. */
  function Stage(parsed: seq<NodeExporterValues>, k: nat): seq<NodeExporterValues>
    requires k <= |SUMMED_FAMILIES|
  {
    Recategorise(parsed, k) + FamilySummaries(parsed, k)
  }

  /** The seven summarised names are pairwise different. */
  lemma SummarisedNamesDistinct()
    ensures forall i, j :: 0 <= i < j < |SUMMARISED_NAMES| ==> SUMMARISED_NAMES[i] != SUMMARISED_NAMES[j]
  {
    assert SUMMARISED_NAMES[3][15] != SUMMARISED_NAMES[5][15];
  }

  lemma RecategoriseAgrees(parsed: seq<NodeExporterValues>, k: nat)
    requires k <= |SUMMARISED_NAMES|
    ensures Agree(Recategorise(parsed, k), parsed)
  {
  }

  /** Marking the next summarised family is the same as recategorising
      with one more family. */
  lemma RecategoriseStep(parsed: seq<NodeExporterValues>, k: nat)
    requires k < |SUMMARISED_NAMES|
    ensures MarkDetail(Recategorise(parsed, k), NameIs(SUMMARISED_NAMES[k])) == Recategorise(parsed, k + 1)
  {
    assert SUMMARISED_NAMES[..k + 1] == SUMMARISED_NAMES[..k] + [SUMMARISED_NAMES[k]];
  }

  /** A family absent from the input leaves the recategorisation as it was. */
  lemma RecategoriseSkip(parsed: seq<NodeExporterValues>, k: nat)
    requires k < |SUMMARISED_NAMES| && !Present(parsed, NameIs(SUMMARISED_NAMES[k]))
    ensures Recategorise(parsed, k + 1) == Recategorise(parsed, k)
  {
    RecategoriseStep(parsed, k);
    RecategoriseAgrees(parsed, k);
    AgreeSelection(Recategorise(parsed, k), parsed, NameIs(SUMMARISED_NAMES[k]));
    MarkDetailAbsent(Recategorise(parsed, k), NameIs(SUMMARISED_NAMES[k]));
  }

  /** Every family summary is the summary of one of the first `k` families,
      and that family has records. */
  lemma {:induction false} FamilySummariesNamed(parsed: seq<NodeExporterValues>, k: nat)
    requires k <= |SUMMED_FAMILIES|
    ensures forall i :: 0 <= i < |FamilySummaries(parsed, k)| ==>
      var r := FamilySummaries(parsed, k)[i];
      r.name in SUMMED_FAMILIES[..k] && Present(parsed, NameIs(r.name)) && r == FamilySummary(parsed, r.name)
  {
    if k > 0 {
      FamilySummariesNamed(parsed, k - 1);
      assert SUMMED_FAMILIES[..k] == SUMMED_FAMILIES[..k - 1] + [SUMMED_FAMILIES[k - 1]];
    }
  }

  /** No family summary is selected by a filter on a later summarised name. */
  lemma FamilySummariesIgnored(parsed: seq<NodeExporterValues>, k: nat, sel: Selector)
    requires k <= |SUMMED_FAMILIES| && k < |SUMMARISED_NAMES|
    requires sel == NameIs(SUMMARISED_NAMES[k]) ||
      exists j :: 0 <= j < |CPU_BUCKETS| && sel == BucketSelector(CPU_BUCKETS[j])
    ensures NoneSelected(FamilySummaries(parsed, k), sel)
  {
    FamilySummariesNamed(parsed, k);
    SummarisedNamesDistinct();
  }

  /** The family block for family `k`, run on stage `k`, yields stage `k + 1`. */
  lemma FamilyStep(parsed: seq<NodeExporterValues>, k: nat)
    requires k < |SUMMED_FAMILIES|
    ensures Present(Stage(parsed, k), NameIs(SUMMED_FAMILIES[k])) == Present(parsed, NameIs(SUMMED_FAMILIES[k]))
    ensures !Present(parsed, NameIs(SUMMED_FAMILIES[k])) ==> Stage(parsed, k + 1) == Stage(parsed, k)
    ensures Present(parsed, NameIs(SUMMED_FAMILIES[k])) ==>
      MarkDetail(Stage(parsed, k), NameIs(SUMMED_FAMILIES[k])) + [FamilySummary(Stage(parsed, k), SUMMED_FAMILIES[k])] ==
        Stage(parsed, k + 1)
  {
    var family := SUMMED_FAMILIES[k];
    var sel := NameIs(family);
    var recategorised, summaries := Recategorise(parsed, k), FamilySummaries(parsed, k);
    assert family == SUMMARISED_NAMES[k];
    FamilySummariesIgnored(parsed, k, sel);
    RecategoriseAgrees(parsed, k);
    SelectionUnaffected(parsed, recategorised, summaries, sel);
    if Present(parsed, sel) {
      MarkDetailAppend(recategorised, summaries, sel);
      RecategoriseStep(parsed, k);
      var summary := FamilySummary(parsed, family);
      assert FamilySummary(Stage(parsed, k), family) == summary;
      assert FamilySummaries(parsed, k + 1) == summaries + [summary];
      assert (Recategorise(parsed, k + 1) + summaries) + [summary] == Recategorise(parsed, k + 1) + (summaries + [summary]);
    } else {
      RecategoriseSkip(parsed, k);
    }
  }

  /** What the CPU block sees in the last stage is what the parsed records hold. */
  lemma CpuStage(parsed: seq<NodeExporterValues>)
    ensures Present(Stage(parsed, |SUMMED_FAMILIES|), NameIs(CPU_SECONDS)) == Present(parsed, NameIs(CPU_SECONDS))
    ensures !Present(parsed, NameIs(CPU_SECONDS)) ==>
      Stage(parsed, |SUMMED_FAMILIES|) == Recategorise(parsed, |SUMMARISED_NAMES|) + FamilySummaries(parsed, |SUMMED_FAMILIES|)
    ensures Present(parsed, NameIs(CPU_SECONDS)) ==>
      MarkDetail(Stage(parsed, |SUMMED_FAMILIES|), NameIs(CPU_SECONDS)) ==
        Recategorise(parsed, |SUMMARISED_NAMES|) + FamilySummaries(parsed, |SUMMED_FAMILIES|)
    ensures BucketsPresent(Stage(parsed, |SUMMED_FAMILIES|), |CPU_BUCKETS|) == BucketsPresent(parsed, |CPU_BUCKETS|)
    ensures BucketsPresent(parsed, |CPU_BUCKETS|) ==>
      CpuSummaries(Stage(parsed, |SUMMED_FAMILIES|), |CPU_BUCKETS|) == CpuSummaries(parsed, |CPU_BUCKETS|)
  {
    var k := |SUMMED_FAMILIES|;
    var recategorised, summaries := Recategorise(parsed, k), FamilySummaries(parsed, k);
    var stage := Stage(parsed, k);
    assert SUMMARISED_NAMES[k] == CPU_SECONDS;
    RecategoriseAgrees(parsed, k);
    FamilySummariesIgnored(parsed, k, NameIs(CPU_SECONDS));
    SelectionUnaffected(parsed, recategorised, summaries, NameIs(CPU_SECONDS));
    if Present(parsed, NameIs(CPU_SECONDS)) {
      MarkDetailAppend(recategorised, summaries, NameIs(CPU_SECONDS));
      RecategoriseStep(parsed, k);
    } else {
      RecategoriseSkip(parsed, k);
    }
    forall j | 0 <= j < |CPU_BUCKETS|
      ensures Present(stage, BucketSelector(CPU_BUCKETS[j])) == Present(parsed, BucketSelector(CPU_BUCKETS[j]))
      ensures Present(parsed, BucketSelector(CPU_BUCKETS[j])) ==>
        BucketSummary(stage, CPU_BUCKETS[j]) == BucketSummary(parsed, CPU_BUCKETS[j])
    {
      FamilySummariesIgnored(parsed, k, BucketSelector(CPU_BUCKETS[j]));
      SelectionUnaffected(parsed, recategorised, summaries, BucketSelector(CPU_BUCKETS[j]));
    }
  }

  lemma {:induction false} FamilySummariesOfNothing(k: nat)
    requires k <= |SUMMED_FAMILIES|
    ensures FamilySummaries([], k) == []
  {
    if k > 0 {
      FamilySummariesOfNothing(k - 1);
    }
  }

  /** An empty scrape yields an empty vector and no panic. */
  lemma EmptyScrape()
    ensures Classified([]) == Ok([])
  {
    FamilySummariesOfNothing(|SUMMED_FAMILIES|);
    assert ConvertAll([]) == [];
    assert Recategorise([], |SUMMARISED_NAMES|) == [];
  }

  /** The five demotion loops (src/lib.rs lines 140-158). */
  method DemoteInternals(parsed: seq<NodeExporterValues>) returns (values: seq<NodeExporterValues>)
    ensures values == Recategorise(parsed, 0)
  {
    values := DemoteWhere(parsed, NameStartsWith("process_"));
    values := DemoteWhere(values, NameStartsWith("promhttp_"));
    values := DemoteWhere(values, NameStartsWith("go_"));
    values := DemoteWhere(values, NameStartsWith("node_scrape_collector_"));
    values := DemoteWhere(values, LabelsContain("dm-"));
  }

  /** Family block `k` as it runs inside `parse_node_exporter`. */
  method SynthesizeNextFamily(ghost parsed: seq<NodeExporterValues>, values: seq<NodeExporterValues>, k: nat)
    returns (next: seq<NodeExporterValues>)
    requires k < |SUMMED_FAMILIES| && values == Stage(parsed, k)
    ensures next == Stage(parsed, k + 1)
  {
    FamilyStep(parsed, k);
    next := SynthesizeFamily(values, SUMMED_FAMILIES[k]);
  }

  /** `parse_node_exporter` (src/lib.rs lines 75-319) from the parsed samples
      on: convert, demote, then the six family blocks and the CPU block. */
  method ParseNodeExporter(samples: seq<Sample>) returns (outcome: Result<seq<NodeExporterValues>>)
    ensures outcome == Classified(samples)
  {
    if |samples| == 0 {
      EmptyScrape();
      return Ok([]);
    }
    var values := ConvertSamples(samples);
    ghost var parsed := values;
    values := DemoteInternals(values);
    values := SynthesizeNextFamily(parsed, values, 0);
    values := SynthesizeNextFamily(parsed, values, 1);
    values := SynthesizeNextFamily(parsed, values, 2);
    values := SynthesizeNextFamily(parsed, values, 3);
    values := SynthesizeNextFamily(parsed, values, 4);
    values := SynthesizeNextFamily(parsed, values, 5);
    CpuStage(parsed);
    outcome := SynthesizeCpu(values);
  }
}
