/** `add_to_node_exporter_vectors` (src/lib.rs lines 322-342): the rows of
    one scrape with a positive value are appended, tagged with the scraped
    host, to a vector the caller owns. */
module Storage {
  import opened Samples

  /** `StoredNodeExporterValues` (src/lib.rs lines 21-30). `timestamp` is the
      record's instant; converting it from UTC to local time does not
      change the instant. */
  datatype StoredNodeExporterValues = StoredNodeExporterValues(
    hostnamePort: string,
    timestamp: int,
    name: string,
    kind: string,
    labels: string,
    category: string,
    value: real)

  /** The entry pushed for one row. */
  function StoreRow(row: NodeExporterValues, hostname: string): StoredNodeExporterValues {
    StoredNodeExporterValues(hostname, row.timestamp, row.name, row.kind, row.labels, row.category, row.value)
  }

  /** The entries one call appends, in row order. */
  function Stored(values: seq<NodeExporterValues>, hostname: string): (r: seq<StoredNodeExporterValues>)
    ensures |r| <= |values|
  {
    if values == [] then []
    else
      var row := values[|values| - 1];
      Stored(values[..|values| - 1], hostname) + if row.value > 0.0 then [StoreRow(row, hostname)] else []
  }

  /** Storing a concatenation stores each part in turn. */
  lemma {:induction false} StoredAppend(a: seq<NodeExporterValues>, b: seq<NodeExporterValues>, hostname: string)
    ensures Stored(a + b, hostname) == Stored(a, hostname) + Stored(b, hostname)
  {
    if b == [] {
      assert a + b == a;
    } else {
      var n := |b| - 1;
      assert (a + b)[..|a + b| - 1] == a + b[..n];
      StoredAppend(a, b[..n], hostname);
    }
  }

  /** An entry is stored exactly when it is the entry of a row with a
      positive value. */
  lemma {:induction false} StoredEntries(values: seq<NodeExporterValues>, hostname: string)
    ensures forall e :: e in Stored(values, hostname) <==>
      exists i :: 0 <= i < |values| && values[i].value > 0.0 && e == StoreRow(values[i], hostname)
  {
    if values != [] {
      var n := |values| - 1;
      StoredEntries(values[..n], hostname);
      assert forall i :: 0 <= i < n ==> values[..n][i] == values[i];
    }
  }

  /** Every stored entry carries the host and a positive value. */
  lemma StoredPositive(values: seq<NodeExporterValues>, hostname: string)
    ensures forall e :: e in Stored(values, hostname) ==> e.hostnamePort == hostname && e.value > 0.0
  {
    StoredEntries(values, hostname);
  }

  /** Exactly the rows with a positive value are stored, one entry each. */
  lemma {:induction false} StoredCount(values: seq<NodeExporterValues>, hostname: string)
    ensures |Stored(values, hostname)| == |set i | 0 <= i < |values| && values[i].value > 0.0|
  {
    if values != [] {
      var n := |values| - 1;
      StoredCount(values[..n], hostname);
      var before := set i | 0 <= i < n && values[..n][i].value > 0.0;
      var after := set i | 0 <= i < |values| && values[i].value > 0.0;
      assert before == set i | 0 <= i < n && values[i].value > 0.0;
      if values[n].value > 0.0 {
        assert after == before + {n};
      } else {
        assert after == before;
      }
    }
  }

  /** The caller's `Vec<StoredNodeExporterValues>`. */
  class StoredNodeExporterVector {
    var rows: seq<StoredNodeExporterValues>

    constructor ()
      ensures rows == []
    {
      rows := [];
    }

    /** `add_to_node_exporter_vectors`: entries already present stay as they
        are, and the positive rows follow in input order. */
    method AddToNodeExporterVectors(values: seq<NodeExporterValues>, hostname: string)
      modifies this
      ensures rows == old(rows) + Stored(values, hostname)
    {
      for i := 0 to |values|
        invariant rows == old(rows) + Stored(values[..i], hostname)
      {
        assert values[..i + 1][..i] == values[..i];
        var row := values[i];
        if row.value > 0.0 {
          rows := rows + [StoreRow(row, hostname)];
        }
      }
      assert values[..|values|] == values;
    }
  }
}
