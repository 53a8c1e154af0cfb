/** The first half of `parse_node_exporter` (src/lib.rs lines 75-137): each
    sample that `prometheus_parse` produced becomes at most one
    `NodeExporterValues` record. */
module Samples {
  import opened Text
  import opened Results
  import opened Fingerprints

  /** `prometheus_parse::Value`; the histogram and summary payloads are never
      read, so they are not carried. */
  datatype Value =
    | Counter(v: real)
    | Gauge(v: real)
    | Untyped(v: real)
    | Histogram
    | Summary

  datatype Label = Label(name: string, value: string)

  /** One parsed sample. `labels` lists the label map's entries in the order
      the map happens to yield them; `timestamp` is the sample's UTC instant. */
  datatype Sample = Sample(metric: string, labels: seq<Label>, value: Value, timestamp: int)

  /** `NodeExporterValues` (src/lib.rs lines 11-19); `kind` is the Rust field
      `node_exporter_type`. */
  datatype NodeExporterValues = NodeExporterValues(
    name: string,
    kind: string,
    labels: string,
    category: string,
    value: real,
    timestamp: int)

  const COUNTER := "counter"
  const GAUGE := "gauge"
  const ALL := "all"
  const DETAIL := "detail"
  const SUMMARY := "summary"

  /** `sample.labels.values()`, in the map's order. */
  function LabelValues(labels: seq<Label>): seq<string> {
    seq(|labels|, i requires 0 <= i < |labels| => labels[i].value)
  }

  /** The untyped `_sum` and `_count` series of a summary metric. */
  predicate IsSummaryPart(metric: string) {
    EndsWith(metric, "_sum") || EndsWith(metric, "_count")
  }

  /** The wire-type mapping of one sample (src/lib.rs lines 91-136). */
  function Convert(sample: Sample): (r: Option<NodeExporterValues>)
    ensures r.Some? <==>
      sample.value.Counter? || sample.value.Gauge? ||
      (sample.value.Untyped? && !IsSummaryPart(sample.metric))
    ensures r.Some? ==> r.value.kind == if sample.value.Gauge? then GAUGE else COUNTER
    ensures r.Some? ==>
      && r.value.name == sample.metric
      && r.value.labels == Fingerprint(LabelValues(sample.labels))
      && r.value.category == ALL
      && r.value.value == sample.value.v
      && r.value.timestamp == sample.timestamp
  {
    var fingerprint := Fingerprint(LabelValues(sample.labels));
    match sample.value
    case Counter(v) => Some(NodeExporterValues(sample.metric, COUNTER, fingerprint, ALL, v, sample.timestamp))
    case Gauge(v) => Some(NodeExporterValues(sample.metric, GAUGE, fingerprint, ALL, v, sample.timestamp))
    case Untyped(v) =>
      if IsSummaryPart(sample.metric) then None
      else Some(NodeExporterValues(sample.metric, COUNTER, fingerprint, ALL, v, sample.timestamp))
    case Histogram => None
    case Summary => None
  }

  function Kept(r: Option<NodeExporterValues>): seq<NodeExporterValues> {
    match r
    case Some(x) => [x]
    case None => []
  }

  /** The records the conversion loop pushes, in sample order. */
  function ConvertAll(samples: seq<Sample>): (r: seq<NodeExporterValues>)
    ensures |r| <= |samples|
  {
    if samples == [] then []
    else ConvertAll(samples[..|samples| - 1]) + Kept(Convert(samples[|samples| - 1]))
  }

  /** The conversion loop of `parse_node_exporter` (src/lib.rs lines 81-137). */
  method ConvertSamples(samples: seq<Sample>) returns (values: seq<NodeExporterValues>)
    ensures values == ConvertAll(samples)
  {
    values := [];
    for i := 0 to |samples|
      invariant values == ConvertAll(samples[..i])
    {
      assert samples[..i + 1][..i] == samples[..i];
      var sample := samples[i];
      var fingerprint := Fingerprint(LabelValues(sample.labels));
      match sample.value {
        case Counter(v) =>
          values := values + [NodeExporterValues(sample.metric, COUNTER, fingerprint, ALL, v, sample.timestamp)];
        case Gauge(v) =>
          values := values + [NodeExporterValues(sample.metric, GAUGE, fingerprint, ALL, v, sample.timestamp)];
        case Untyped(v) =>
          if EndsWith(sample.metric, "_sum") || EndsWith(sample.metric, "_count") {
            continue;
          }
          values := values + [NodeExporterValues(sample.metric, COUNTER, fingerprint, ALL, v, sample.timestamp)];
        case Histogram =>
        case Summary =>
      }
    }
    assert samples[..|samples|] == samples;
  }

  /** Conversion works sample by sample: converting a concatenation
      concatenates the conversions, so no record is reordered. */
  lemma {:induction false} ConvertAllAppend(a: seq<Sample>, b: seq<Sample>)
    ensures ConvertAll(a + b) == ConvertAll(a) + ConvertAll(b)
  {
    if b == [] {
      assert a + b == a;
    } else {
      var n := |b| - 1;
      assert (a + b)[..|a + b| - 1] == a + b[..n];
      ConvertAllAppend(a, b[..n]);
    }
  }

  /** Every emitted record comes from a sample. */
  lemma {:induction false} ConvertedFrom(samples: seq<Sample>, r: NodeExporterValues)
    requires r in ConvertAll(samples)
    ensures exists i :: 0 <= i < |samples| && Convert(samples[i]) == Some(r)
  {
    var n := |samples| - 1;
    if r in ConvertAll(samples[..n]) {
      ConvertedFrom(samples[..n], r);
      var i :| 0 <= i < n && Convert(samples[..n][i]) == Some(r);
      assert samples[..n][i] == samples[i];
    } else {
      assert Convert(samples[n]) == Some(r);
    }
  }

  /** Every sample that converts contributes its record. */
  lemma {:induction false} ConvertedTo(samples: seq<Sample>, i: int, r: NodeExporterValues)
    requires 0 <= i < |samples| && Convert(samples[i]) == Some(r)
    ensures r in ConvertAll(samples)
  {
    var prefix := samples[..|samples| - 1];
    if i == |samples| - 1 {
      var kept := Kept(Convert(samples[i]));
      assert kept == [r];
      assert ConvertAll(samples) == ConvertAll(prefix) + kept;
    } else {
      assert prefix[i] == samples[i];
      ConvertedTo(prefix, i, r);
      assert ConvertAll(samples) == ConvertAll(prefix) + Kept(Convert(samples[|samples| - 1]));
    }
  }

  /** A record is emitted exactly when some sample converts to it. */
  lemma ConvertAllRecords(samples: seq<Sample>)
    ensures forall r :: r in ConvertAll(samples) <==>
      exists i :: 0 <= i < |samples| && Convert(samples[i]) == Some(r)
  {
    forall r | r in ConvertAll(samples) {
      ConvertedFrom(samples, r);
    }
    forall i | 0 <= i < |samples| && Convert(samples[i]).Some? {
      ConvertedTo(samples, i, Convert(samples[i]).value);
    }
  }

  /** Every converted record starts in category "all". */
  lemma ConvertAllCategory(samples: seq<Sample>)
    ensures forall r :: r in ConvertAll(samples) ==> r.category == ALL
  {
    ConvertAllRecords(samples);
  }
}
