# nodetop: classifying and storing node_exporter samples

nodetop scrapes Prometheus `node_exporter` endpoints and shows per-host
CPU, disk and scheduler figures. This project models the part of
`src/lib.rs` that turns one scrape into records and stores them. It
proves what that code does.

- `parse_node_exporter` starts from the samples that the
  `prometheus_parse` crate produces. Each sample has a metric name, a
  label map, a value variant and a timestamp. The function turns every
  sample it keeps into a `NodeExporterValues` record:
  - the labels become a canonical fingerprint (the sorted label values,
    joined with `_`, with a leading `_` when the join is not empty);
  - the wire type becomes `"counter"` or `"gauge"`;
  - every record starts in category `"all"`.

  It then rewrites the record vector step by step:
  - it demotes the node_exporter's own process, HTTP, Go-runtime and
    scraper families, and every device-mapper record (fingerprint contains
    `dm-`), to `"detail"`;
  - for six softnet/schedstat families it sets the family's records to
    `"detail"` and appends one `"summary"` record holding their sum and
    earliest timestamp;
  - for `node_cpu_seconds_total` it does the same with eight mode buckets
    (idle, irq, softirq, system, user, iowait, nice, steal). Each bucket is
    matched by substring containment on the fingerprint. A bucket with no
    record makes `min().unwrap()` panic.
- `add_to_node_exporter_vectors` appends to a caller-owned vector the
  records whose value is positive. It tags each one with the host:port
  it came from.

Layout, one module per file:

| file | module | what it holds |
|---|---|---|
| `results.dfy` | `Results` | `Option`, and `Result` with a `Panicked` case for Rust panics |
| `text.dfy` | `Text` | `starts_with`, `ends_with`, `contains`, and Rust's `String` order |
| `fingerprint.dfy` | `Fingerprints` | sort, join and the label fingerprint |
| `samples.dfy` | `Samples` | parsed samples, `NodeExporterValues`, and the conversion loop |
| `selection.dfy` | `Selection` | the `filter` closures, `count`, `sum`, `min`, and the `iter_mut` relabelling loop |
| `cpu_buckets.dfy` | `CpuBuckets` | the eight CPU buckets, and why an earlier bucket's summary never matches a later bucket |
| `classify.dfy` | `Classify` | the steps of `parse_node_exporter` as methods, and the declarative reference `Classified` they are proved to compute |
| `classify_properties.dfy` | `ClassifyProperties` | what the classifier promises, proved of `Classified` |
| `storage.dfy` | `Storage` | `StoredNodeExporterValues` and `add_to_node_exporter_vectors` |

`Classify.ParseNodeExporter` runs the source's steps in the source's
order: the conversion loop, five demotion loops, six family blocks and
eight CPU pushes. Its postcondition says that it returns exactly
`Classified(samples)`. `Classified` is stated without steps: the parsed
records, recategorised, followed by the family summaries and the CPU
summaries, or the panic. The lemmas in `ClassifyProperties` then prove
the promised properties of `Classified`.

A CPU family that lacks any of the eight modes makes `min().unwrap()`
panic (`src/lib.rs:258` and its seven siblings). The classifier neither
skips nor zero-fills the missing bucket. `ClassifyProperties.ClassifiedPanics`
states when the panic happens, and `ClassifyProperties.IdleOnlyScrapePanics`
gives a one-sample scrape that panics.

## Model

| member | source | states |
|---|---|---|
| Text.LessOrEqualReflexive | src/lib.rs:83 | Rust's `String` order is reflexive. |
| Text.LessOrEqualTotal | src/lib.rs:83 | Any two strings are ordered one way or the other. |
| Text.LessOrEqualAntisymmetric | src/lib.rs:83 | Two strings ordered both ways are equal, so sorting is well defined. |
| Text.LessOrEqualTransitive | src/lib.rs:83 | The string order is transitive. |
| Text.ContainsTransitive | src/lib.rs:156 | A substring of a substring is a substring. |
| Fingerprints.Insert | src/lib.rs:83 | Inserting into a sorted list gives a sorted list with the same elements plus the new one. |
| Fingerprints.Sort | src/lib.rs:83 | `label_temp.sort()` returns a sorted permutation of the label values. |
| Fingerprints.SortedUnique | src/lib.rs:83 | Two sorted permutations of the same values are equal, so any correct sort gives this result. |
| Fingerprints.Join | src/lib.rs:84 | `[String]::join`: no contract of its own; `JoinContainsParts` and `FingerprintOfAnyOrder` carry its properties. |
| Fingerprints.JoinContainsParts | src/lib.rs:84 | Every joined value occurs inside the `_`-join. |
| Fingerprints.Fingerprint | src/lib.rs:82-89 | No label values give `""`. A non-empty fingerprint starts with `_`. |
| Fingerprints.FingerprintIgnoresOrder | src/lib.rs:82-89 | Two orders of the same label values give the same fingerprint. |
| Fingerprints.FingerprintOfSorted | src/lib.rs:82-89 | For values already in order, the fingerprint is `""` if their `_`-join is empty, otherwise `_` followed by the join. |
| Fingerprints.FingerprintOfAnyOrder | src/lib.rs:82-89 | For label values in any order and any sorted arrangement of them, the fingerprint is `""` if the arrangement's `_`-join is empty, otherwise `_` followed by that join. |
| Fingerprints.FingerprintContainsValues | src/lib.rs:82-89 | Every label value is a substring of the fingerprint. |
| Samples.Convert | src/lib.rs:91-136 | A record is emitted iff the sample is a counter, a gauge, or an untyped sample whose name ends in neither `_sum` nor `_count`. Gauges become `"gauge"` and everything else `"counter"`. Name, value and timestamp are copied, the labels become the fingerprint, and the category is `"all"`. |
| Samples.ConvertSamples | src/lib.rs:81-137 | The conversion loop pushes, in sample order, the record of every sample that converts. |
| Samples.ConvertAll | src/lib.rs:81-137 | The records the conversion loop pushes, in sample order: at most one per sample. `ConvertSamples` is proved to return it; `ConvertAllAppend`, `ConvertedFrom`, `ConvertedTo`, `ConvertAllRecords` and `ConvertAllCategory` carry its properties. |
| Samples.ConvertAllAppend | src/lib.rs:81-137 | Converting a concatenation concatenates the conversions, so no record is reordered. |
| Samples.ConvertedFrom | src/lib.rs:81-137 | Every emitted record comes from some sample. |
| Samples.ConvertedTo | src/lib.rs:81-137 | Every sample that converts contributes its record. |
| Samples.ConvertAllRecords | src/lib.rs:81-137 | A record is emitted iff some sample converts to it. |
| Samples.ConvertAllCategory | src/lib.rs:91-136 | Every emitted record starts in category `"all"`. |
| Selection.MinOf | src/lib.rs:258 | `min()` is `None` iff the filter selects nothing. Otherwise it is the timestamp of a selected record, and no selected record is earlier. |
| Selection.Count | src/lib.rs:160 | `filter(..).count()` never exceeds the number of records. `CountPositive`, `CountAppend`, `AgreeSelection` and `IgnoredTail` carry its other properties. |
| Selection.SumOf | src/lib.rs:172 | `map(..).sum()` over the selected values, folded from the left: no contract of its own; `SumAppend`, `AgreeSelection` and `IgnoredTail` carry its properties. |
| Selection.CountPositive | src/lib.rs:160 | `count() > 0` holds iff the filter selects some record. |
| Selection.CountAppend | src/lib.rs:160 | Counting over a concatenation adds the two counts. |
| Selection.SumAppend | src/lib.rs:172 | Summing over a concatenation adds the two sums. |
| Selection.AgreeCountSum | src/lib.rs:160-173 | `count()` and `sum()` over records that differ only in category are equal. |
| Selection.AgreeMin | src/lib.rs:171 | `min()` of the timestamps over records that differ only in category is equal. |
| Selection.AgreeSelection | src/lib.rs:160-173 | Filters, counts, sums and minima ignore the category, so relabelling changes none of them. |
| Selection.IgnoredTail | src/lib.rs:160-173 | Appended records that the filter does not select change no count, sum or minimum. |
| Selection.SelectionUnaffected | src/lib.rs:160-173 | A relabelled prefix plus unselected appended records gives the same count, sum and minimum as the original records. |
| Selection.MarkDetail | src/lib.rs:162-164 | The records after the `iter_mut` relabelling: no contract of its own; `DemoteWhere` is proved to compute it, and `MarkDetailAgrees`, `MarkDetailAppend` and `MarkDetailAbsent` carry its properties. |
| Selection.MarkDetailAgrees | src/lib.rs:162-164 | Relabelling changes only categories, so every reading and every filter result is kept. |
| Selection.MarkDetailAppend | src/lib.rs:162-164 | Relabelling leaves appended records that the filter does not select untouched. |
| Selection.MarkDetailAbsent | src/lib.rs:162-164 | Relabelling with a filter that selects nothing changes nothing. |
| Selection.DemoteWhere | src/lib.rs:140-142 | The `iter_mut` loop sets exactly the selected records to `"detail"`, keeps their other fields, and leaves every other record as it was. |
| CpuBuckets.FragmentAbsent | src/lib.rs:252-316 | The label of an earlier CPU bucket's summary never contains a later bucket's substring. |
| Classify.Classified | src/lib.rs:75-320 | The declarative result of the classifier: the recategorised parsed records, the family summaries and the CPU summaries, or the `unwrap` panic. No contract of its own; `ParseNodeExporter` is proved to return it, and the lemmas of `ClassifyProperties` carry its properties. |
| Classify.SynthesizeFamily | src/lib.rs:159-174 | With no record of the family, the vector is unchanged. Otherwise the family's records become `"detail"` and one summary is appended: an unlabelled counter with their sum and earliest timestamp. |
| Classify.PushCpuBucket | src/lib.rs:253-260 | The push panics with the `unwrap` message iff the bucket selects nothing. Otherwise it appends the bucket's summary. |
| Classify.EarlierBucketsIgnored | src/lib.rs:252-316 | No summary pushed for an earlier bucket is selected by a later bucket. |
| Classify.CpuStep | src/lib.rs:252-316 | After the marking and `j` pushes, bucket `j` sees what it would see in the unmarked input. Its push extends the vector to `j + 1` summaries. |
| Classify.PushNextBucket | src/lib.rs:252-316 | Inside the CPU block, push `j` panics iff bucket `j` is empty in the input. Otherwise it yields the marked input followed by `j + 1` summaries. |
| Classify.SynthesizeCpu | src/lib.rs:247-317 | With no CPU record, the vector is unchanged. If some bucket is empty, the block panics. Otherwise the CPU records become `"detail"` and the eight bucket summaries follow, in order. |
| Classify.SummarisedNamesDistinct | src/lib.rs:159-248 | The seven summarised family names are pairwise different. |
| Classify.RecategoriseAgrees | src/lib.rs:138-317 | Recategorising changes only categories. |
| Classify.RecategoriseStep | src/lib.rs:159-174 | Marking the next family's records gives the recategorisation with one more family. |
| Classify.RecategoriseSkip | src/lib.rs:160 | A family with no records leaves the recategorisation unchanged. |
| Classify.FamilySummariesNamed | src/lib.rs:166-173 | Every family summary belongs to a family that has records, and equals that family's summary. |
| Classify.FamilySummariesIgnored | src/lib.rs:159-259 | No family summary is selected by a later family's filter or by a CPU bucket's filter. |
| Classify.FamilyStep | src/lib.rs:159-246 | Run on the vector after `k` family blocks, family block `k` sees what the parsed records hold. It yields the vector after `k + 1` blocks. |
| Classify.CpuStage | src/lib.rs:247-317 | The CPU block sees in the vector after the six family blocks the same CPU records, bucket contents and summaries as in the parsed records. |
| Classify.FamilySummariesOfNothing | src/lib.rs:80 | No records give no family summaries. |
| Classify.EmptyScrape | src/lib.rs:80-319 | An empty scrape yields an empty vector and no panic. |
| Classify.DemoteInternals | src/lib.rs:140-158 | After the five demotion loops, exactly the self-observability and device-mapper records are `"detail"`, and nothing else changed. |
| Classify.SynthesizeNextFamily | src/lib.rs:159-246 | Family block `k` takes the vector after `k` blocks to the vector after `k + 1` blocks. |
| Classify.ParseNodeExporter | src/lib.rs:75-320 | The whole function, from the parsed samples on, returns `Classified(samples)`: the declarative result, or the panic. |
| ClassifyProperties.ClassifiedSplit | src/lib.rs:138-319 | A result that does not panic is the recategorised parsed records followed by the appended summaries. |
| ClassifyProperties.FamilySummariesCount | src/lib.rs:159-246 | Among the family summaries, each family is counted once if it has records and never otherwise. |
| ClassifyProperties.CpuSummariesCount | src/lib.rs:252-316 | Each of the `n` CPU summaries carries the CPU family's name. |
| ClassifyProperties.ParsedRecordsKept | src/lib.rs:138-319 | No parsed record is removed or reordered. Every field but the category is kept. The category is `"detail"` iff the record is demoted or belongs to a summarised family, and `"all"` otherwise. |
| ClassifyProperties.AppendedShape | src/lib.rs:159-316 | Every appended record is a `"summary"` counter of one of the seven summarised families. |
| ClassifyProperties.AppendedAreSummaries | src/lib.rs:159-316 | Every record after the parsed ones is a `"summary"` counter of a summarised family. |
| ClassifyProperties.AppendedCpuPart | src/lib.rs:247-317 | The appended records are the family summaries followed only by CPU-named records. |
| ClassifyProperties.AppendedFamilyCount | src/lib.rs:159-246 | Among the appended records, a family is counted once if it has records and never otherwise. |
| ClassifyProperties.AppendedFamilyRecord | src/lib.rs:159-246 | Every appended record named after a family is that family's summary. |
| ClassifyProperties.FamilySummarised | src/lib.rs:159-246 | Each of the six families gets exactly one summary iff it has records, and none otherwise. That summary is an unlabelled `"summary"` counter with the sum of the family's values and their earliest timestamp. |
| ClassifyProperties.AppendedCpuCount | src/lib.rs:247-317 | Among the appended records, the CPU family is counted eight times if it has records and never otherwise. |
| ClassifyProperties.CpuSummarised | src/lib.rs:247-317 | Exactly eight CPU summaries are appended iff the family has records, and none otherwise. They close the vector in bucket order, with labels `_idle` … `_steal`. Each holds the sum of the family's records whose fingerprint contains the bucket's substring, and their earliest timestamp. |
| ClassifyProperties.ClassifiedPanics | src/lib.rs:258 | The classifier panics iff the CPU family has records but some bucket selects none of them. The panic is `unwrap` on `None`. |
| ClassifyProperties.MissingBucketPanics | src/lib.rs:258 | A CPU family with an empty bucket makes the classifier panic. |
| ClassifyProperties.DeviceMapperLabelDemoted | src/lib.rs:155-158 | A sample with any label value containing `dm-` yields a record that is demoted. |
| ClassifyProperties.IdleFingerprint | src/lib.rs:82-89 | The label values `0` and `idle` give the fingerprint `_0_idle`. |
| ClassifyProperties.IdleSampleConverted | src/lib.rs:81-137 | A single idle CPU counter sample converts to one `"all"` counter record with fingerprint `_0_idle`. |
| ClassifyProperties.IdleOnlyScrapePanics | src/lib.rs:261-268 | A scrape whose CPU family has only an idle sample panics at the `_irq` push. |
| Storage.StoreRow | src/lib.rs:329-337 | The host-tagged entry pushed for one row: no contract of its own; `StoredEntries` and `StoredPositive` carry its properties. |
| Storage.Stored | src/lib.rs:327-339 | The entries one call appends, in row order: at most one per row. `AddToNodeExporterVectors` is proved to append it; `StoredAppend`, `StoredEntries`, `StoredPositive` and `StoredCount` carry its properties. |
| Storage.StoredAppend | src/lib.rs:327-341 | Storing a concatenation stores each part in turn, in row order. |
| Storage.StoredEntries | src/lib.rs:327-341 | An entry is stored iff it is the entry of a row with a positive value, tagged with the host. |
| Storage.StoredPositive | src/lib.rs:328-331 | Every stored entry carries the host and a value greater than 0.0. |
| Storage.StoredCount | src/lib.rs:327-341 | One entry is stored per row with a positive value. |
| Storage.StoredNodeExporterVector.AddToNodeExporterVectors | src/lib.rs:322-341 | Entries already in the caller's vector stay as they are. The positive rows' entries follow in input order. |

## Left out

- `read_node_exporter_into_vectors` (`src/lib.rs:32-56`) is not modelled. It fans scrapes out over a rayon thread pool and collects them from a channel in nondeterministic order. Only its call of `add_to_node_exporter_vectors` is modelled.
- `read_node_exporter` (`src/lib.rs:58-73`) is not modelled. It is a TCP reachability probe, a blocking HTTP GET and `process::exit`.
- The parsing of the exposition text by `prometheus_parse::Scrape::parse` (`src/lib.rs:76-77`) is foreign code, and so is its `unwrap` panic on malformed text. The model takes the parsed samples as its input.
- A label map is given as a sequence of (name, value) pairs in whatever order the map yields them. `Fingerprints.FingerprintIgnoresOrder` shows that this order does not matter.
- `Vec::sort` is modelled by an insertion sort. `Fingerprints.SortedUnique` shows that every correct sort gives the same result.
- Values are `real`. The model does not capture `f64` rounding, NaN or infinities. With reals the order of summation does not matter.
- Timestamps are integers. The conversion from `DateTime<Utc>` to `DateTime<Local>` (`src/lib.rs:332`) keeps the instant, so it is the identity here. `Local::now()` (`src/lib.rs:44`) is never used for a stored value.
- The payloads of histogram and summary samples are never read, so the model does not carry them.
- The record vector of `parse_node_exporter` is a local `Vec` that no other code can see. It is modelled as a sequence value that each step replaces, so there is no aliasing to model. The caller-owned vector of `add_to_node_exporter_vectors` is a class field that the method updates.
- `src/main.rs` is not modelled. It is command-line handling and a terminal display loop, and it imports functions that `src/lib.rs` does not define.
