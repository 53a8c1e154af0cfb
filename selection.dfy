/** The iterator chains `parse_node_exporter` runs over its record vector
    (src/lib.rs lines 140-316): which records a filter selects, how many it
    selects, the `sum` of their values and the `min` of their timestamps,
    and the `iter_mut` loop that sets the selected records to "detail". */
module Selection {
  import opened Text
  import opened Results
  import opened Samples

  /** The closures passed to `filter`. */
  datatype Selector =
    | NameStartsWith(prefix: string)
    | LabelsContain(fragment: string)
    | NameIs(name: string)
    | NameIsAndLabelsContain(name: string, fragment: string)

  predicate Selects(sel: Selector, r: NodeExporterValues) {
    match sel
    case NameStartsWith(prefix) => StartsWith(r.name, prefix)
    case LabelsContain(fragment) => Contains(r.labels, fragment)
    case NameIs(name) => r.name == name
    case NameIsAndLabelsContain(name, fragment) => r.name == name && Contains(r.labels, fragment)
  }

  predicate Present(values: seq<NodeExporterValues>, sel: Selector) {
    exists i :: 0 <= i < |values| && Selects(sel, values[i])
  }

  predicate NoneSelected(values: seq<NodeExporterValues>, sel: Selector) {
    forall i :: 0 <= i < |values| ==> !Selects(sel, values[i])
  }

  /** `iter().filter(..).count()` */
  function Count(values: seq<NodeExporterValues>, sel: Selector): (r: nat)
    ensures r <= |values|
  {
    if values == [] then 0
    else Count(values[..|values| - 1], sel) + if Selects(sel, values[|values| - 1]) then 1 else 0
  }

  /** `iter().filter(..).map(|x| x.value).sum()`, folded from the left. */
  function SumOf(values: seq<NodeExporterValues>, sel: Selector): real {
    if values == [] then 0.0
    else SumOf(values[..|values| - 1], sel) + if Selects(sel, values[|values| - 1]) then values[|values| - 1].value else 0.0
  }

  /** `iter().filter(..).map(|x| x.timestamp).min()`: None when nothing is
      selected, otherwise the least selected timestamp. */
  function MinOf(values: seq<NodeExporterValues>, sel: Selector): (r: Option<int>)
    ensures r.Some? <==> Present(values, sel)
    ensures r.Some? ==> exists i :: 0 <= i < |values| && Selects(sel, values[i]) && values[i].timestamp == r.value
    ensures r.Some? ==> forall i :: 0 <= i < |values| && Selects(sel, values[i]) ==> r.value <= values[i].timestamp
  {
    if values == [] then None
    else
      var n := |values| - 1;
      var earlier := MinOf(values[..n], sel);
      assert forall i :: 0 <= i < n ==> values[..n][i] == values[i];
      if !Selects(sel, values[n]) then earlier
      else if earlier.Some? && earlier.value <= values[n].timestamp then earlier
      else Some(values[n].timestamp)
  }

  /** `filter(..).count() > 0` holds exactly when the filter selects something. */
  lemma {:induction false} CountPositive(values: seq<NodeExporterValues>, sel: Selector)
    ensures Count(values, sel) > 0 <==> Present(values, sel)
  {
    if values != [] {
      var n := |values| - 1;
      CountPositive(values[..n], sel);
      assert forall i :: 0 <= i < n ==> values[..n][i] == values[i];
    }
  }

  lemma {:induction false} CountAppend(a: seq<NodeExporterValues>, b: seq<NodeExporterValues>, sel: Selector)
    ensures Count(a + b, sel) == Count(a, sel) + Count(b, sel)
  {
    if b == [] {
      assert a + b == a;
    } else {
      assert (a + b)[..|a + b| - 1] == a + b[..|b| - 1];
      CountAppend(a, b[..|b| - 1], sel);
    }
  }

  lemma {:induction false} SumAppend(a: seq<NodeExporterValues>, b: seq<NodeExporterValues>, sel: Selector)
    ensures SumOf(a + b, sel) == SumOf(a, sel) + SumOf(b, sel)
  {
    if b == [] {
      assert a + b == a;
    } else {
      assert (a + b)[..|a + b| - 1] == a + b[..|b| - 1];
      SumAppend(a, b[..|b| - 1], sel);
    }
  }

  /** The same readings up to category: what the "detail" relabelling keeps. */
  predicate SameReading(a: NodeExporterValues, b: NodeExporterValues) {
    a.name == b.name && a.kind == b.kind && a.labels == b.labels &&
    a.value == b.value && a.timestamp == b.timestamp
  }

  predicate Agree(xs: seq<NodeExporterValues>, ys: seq<NodeExporterValues>) {
    |xs| == |ys| && forall i :: 0 <= i < |xs| ==> SameReading(xs[i], ys[i])
  }

  /** A prefix of agreeing sequences agrees. */
  lemma AgreePrefix(xs: seq<NodeExporterValues>, ys: seq<NodeExporterValues>, n: nat)
    requires Agree(xs, ys) && n <= |xs|
    ensures Agree(xs[..n], ys[..n])
  {
    forall i | 0 <= i < n
      ensures SameReading(xs[..n][i], ys[..n][i])
    {
      assert xs[..n][i] == xs[i] && ys[..n][i] == ys[i];
    }
  }

  /** Counting and summing never look at a record's category. */
  lemma {:induction false} AgreeCountSum(xs: seq<NodeExporterValues>, ys: seq<NodeExporterValues>, sel: Selector)
    requires Agree(xs, ys)
    ensures Count(xs, sel) == Count(ys, sel)
    ensures SumOf(xs, sel) == SumOf(ys, sel)
  {
    if xs != [] {
      var n := |xs| - 1;
      AgreePrefix(xs, ys, n);
      AgreeCountSum(xs[..n], ys[..n], sel);
      assert SameReading(xs[n], ys[n]);
    }
  }

  /** The minimum never looks at a record's category. */
  lemma {:induction false} AgreeMin(xs: seq<NodeExporterValues>, ys: seq<NodeExporterValues>, sel: Selector)
    requires Agree(xs, ys)
    ensures MinOf(xs, sel) == MinOf(ys, sel)
  {
    if xs != [] {
      var n := |xs| - 1;
      AgreePrefix(xs, ys, n);
      AgreeMin(xs[..n], ys[..n], sel);
      assert SameReading(xs[n], ys[n]);
    }
  }

  /** Selection, counting, summing and the minimum never look at a
      record's category. */
  lemma AgreeSelection(xs: seq<NodeExporterValues>, ys: seq<NodeExporterValues>, sel: Selector)
    requires Agree(xs, ys)
    ensures Present(xs, sel) == Present(ys, sel)
    ensures Count(xs, sel) == Count(ys, sel)
    ensures SumOf(xs, sel) == SumOf(ys, sel)
    ensures MinOf(xs, sel) == MinOf(ys, sel)
  {
    assert forall i :: 0 <= i < |xs| ==> Selects(sel, xs[i]) == Selects(sel, ys[i]);
    AgreeCountSum(xs, ys, sel);
    AgreeMin(xs, ys, sel);
  }

  /** Records no filter selects leave selection, count, sum and minimum as
      they were. */
  lemma {:induction false} IgnoredTail(xs: seq<NodeExporterValues>, tail: seq<NodeExporterValues>, sel: Selector)
    requires NoneSelected(tail, sel)
    ensures Present(xs + tail, sel) == Present(xs, sel)
    ensures Count(xs + tail, sel) == Count(xs, sel)
    ensures SumOf(xs + tail, sel) == SumOf(xs, sel)
    ensures MinOf(xs + tail, sel) == MinOf(xs, sel)
  {
    if tail == [] {
      assert xs + tail == xs;
    } else {
      var n := |tail| - 1;
      assert (xs + tail)[..|xs + tail| - 1] == xs + tail[..n];
      IgnoredTail(xs, tail[..n], sel);
      assert (xs + tail)[|xs + tail| - 1] == tail[n];
    }
  }

  /** What a selector sees in `xs + tail`, when `xs` agrees with `ys` up to
      categories and `tail` holds nothing it selects, is what it sees in `ys`. */
  lemma SelectionUnaffected(ys: seq<NodeExporterValues>, xs: seq<NodeExporterValues>, tail: seq<NodeExporterValues>, sel: Selector)
    requires Agree(xs, ys) && NoneSelected(tail, sel)
    ensures Present(xs + tail, sel) == Present(ys, sel)
    ensures Count(xs + tail, sel) == Count(ys, sel)
    ensures SumOf(xs + tail, sel) == SumOf(ys, sel)
    ensures MinOf(xs + tail, sel) == MinOf(ys, sel)
  {
    IgnoredTail(xs, tail, sel);
    AgreeSelection(xs, ys, sel);
  }

  /** The effect of one `for record in v.iter_mut().filter(..) { record.category = "detail" }`. */
  function MarkDetail(values: seq<NodeExporterValues>, sel: Selector): seq<NodeExporterValues> {
    seq(|values|, i requires 0 <= i < |values| =>
      if Selects(sel, values[i]) then values[i].(category := DETAIL) else values[i])
  }

  /** Marking keeps every reading and touches only the selected records. */
  lemma MarkDetailAgrees(values: seq<NodeExporterValues>, sel: Selector)
    ensures Agree(MarkDetail(values, sel), values)
  {
  }

  lemma MarkDetailAppend(xs: seq<NodeExporterValues>, tail: seq<NodeExporterValues>, sel: Selector)
    requires NoneSelected(tail, sel)
    ensures MarkDetail(xs + tail, sel) == MarkDetail(xs, sel) + tail
  {
    assert forall i :: |xs| <= i < |xs + tail| ==> (xs + tail)[i] == tail[i - |xs|];
  }

  lemma MarkDetailAbsent(values: seq<NodeExporterValues>, sel: Selector)
    requires !Present(values, sel)
    ensures MarkDetail(values, sel) == values
  {
  }

  /** The `iter_mut` relabelling loop, run over the vector in place. */
  method DemoteWhere(values: seq<NodeExporterValues>, sel: Selector) returns (marked: seq<NodeExporterValues>)
    ensures marked == MarkDetail(values, sel)
    ensures |marked| == |values|
    ensures forall i :: 0 <= i < |values| ==>
      marked[i] == if Selects(sel, values[i]) then values[i].(category := DETAIL) else values[i]
  {
    marked := values;
    for i := 0 to |values|
      invariant |marked| == |values|
      invariant forall k :: 0 <= k < i ==>
        marked[k] == if Selects(sel, values[k]) then values[k].(category := DETAIL) else values[k]
      invariant forall k :: i <= k < |values| ==> marked[k] == values[k]
    {
      if Selects(sel, marked[i]) {
        marked := marked[i := marked[i].(category := DETAIL)];
      }
    }
  }
}
