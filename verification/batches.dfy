/** The batch fold of `DuckChart.load` / `loadRange`: a finite stream of
    Arrow record batches folded into one value array per projected column. */
module Batches {
  import opened Wrappers

  /** One record batch: the value arrays of its children (one per projected
      column, in projection order) and its row count `data.length`. */
  datatype Batch = Batch(children: seq<seq<int>>, length: nat)

  /** Every child of the batch holds exactly `length` values. */
  ghost predicate WellShaped(b: Batch) {
    forall c :: 0 <= c < |b.children| ==> |b.children[c]| == b.length
  }

  /** Every batch of the stream has a child at each index below `width`. */
  ghost predicate HasChildren(bs: seq<Batch>, width: nat) {
    forall i :: 0 <= i < |bs| ==> width <= |bs[i].children|
  }

  /** Child `c` of every batch, concatenated in stream order. */
  function Gather(bs: seq<Batch>, c: nat): seq<int>
    requires HasChildren(bs, c + 1)
  {
    if |bs| == 0 then [] else Gather(bs[..|bs| - 1], c) + bs[|bs| - 1].children[c]
  }

  /** The sum of the batches' `data.length`. */
  function TotalRows(bs: seq<Batch>): nat {
    if |bs| == 0 then 0 else TotalRows(bs[..|bs| - 1]) + bs[|bs| - 1].length
  }

  /** The folded result: one array per projected column, and `rowsCount`. */
  datatype Assembled = Assembled(columns: seq<seq<int>>, rowsCount: nat)

  /** Reading `children[column].values` of batch `batch` found no child. */
  datatype AssembleError = MissingColumn(batch: nat, column: nat)

  /** The loop of `loadRange` (and, with one field, of `load`): column 0
      collects child 0 of every batch, column i + 1 collects child i + 1.
      A batch with too few children stops the fold at its first absent child
      and nothing is returned. */
  method Assemble(bs: seq<Batch>, fieldCount: nat) returns (r: Result<Assembled, AssembleError>)
    ensures r.Success? <==> HasChildren(bs, fieldCount + 1)
    ensures r.Success? ==> |r.value.columns| == fieldCount + 1
    ensures r.Success? ==> forall c :: 0 <= c <= fieldCount ==> r.value.columns[c] == Gather(bs, c)
    ensures r.Success? ==> r.value.rowsCount == TotalRows(bs)
    ensures r.Failure? ==>
      var i := r.error.batch;
      && i < |bs| && HasChildren(bs[..i], fieldCount + 1)
      && r.error.column == |bs[i].children| <= fieldCount
  {
    var columns: seq<seq<int>> := seq(fieldCount + 1, _ => []);
    var rowsCount := 0;
    var i := 0;
    while i < |bs|
      invariant 0 <= i <= |bs|
      invariant HasChildren(bs[..i], fieldCount + 1)
      invariant |columns| == fieldCount + 1
      invariant forall c :: 0 <= c <= fieldCount ==> columns[c] == Gather(bs[..i], c)
      invariant rowsCount == TotalRows(bs[..i])
    {
      var b := bs[i];
      if |b.children| <= fieldCount {
        return Failure(MissingColumn(i, |b.children|));
      }
      assert bs[..i + 1][..i] == bs[..i];
      columns := seq(fieldCount + 1, c requires 0 <= c <= fieldCount => columns[c] + b.children[c]);
      rowsCount := rowsCount + b.length;
      i := i + 1;
    }
    assert bs[..i] == bs;
    r := Success(Assembled(columns, rowsCount));
  }

  /** Gathering a concatenated stream concatenates the gathered parts. */
  lemma {:induction false} GatherAppend(xs: seq<Batch>, ys: seq<Batch>, c: nat)
    requires HasChildren(xs, c + 1) && HasChildren(ys, c + 1)
    ensures HasChildren(xs + ys, c + 1)
    ensures Gather(xs + ys, c) == Gather(xs, c) + Gather(ys, c)
  {
    if |ys| == 0 {
      assert xs + ys == xs;
    } else {
      var ys' := ys[..|ys| - 1];
      assert (xs + ys)[..|xs + ys| - 1] == xs + ys';
      GatherAppend(xs, ys', c);
    }
  }

  lemma {:induction false} TotalRowsAppend(xs: seq<Batch>, ys: seq<Batch>)
    ensures TotalRows(xs + ys) == TotalRows(xs) + TotalRows(ys)
  {
    if |ys| == 0 {
      assert xs + ys == xs;
    } else {
      var ys' := ys[..|ys| - 1];
      assert (xs + ys)[..|xs + ys| - 1] == xs + ys';
      TotalRowsAppend(xs, ys');
    }
  }

  /** The first `n` rows of a batch, as a batch of its own. */
  function Head(b: Batch, n: nat): Batch
    requires WellShaped(b) && n <= b.length
  {
    Batch(seq(|b.children|, c requires 0 <= c < |b.children| => b.children[c][..n]), n)
  }

  /** The rows of a batch from row `n` on. */
  function Tail(b: Batch, n: nat): Batch
    requires WellShaped(b) && n <= b.length
  {
    Batch(seq(|b.children|, c requires 0 <= c < |b.children| => b.children[c][n..]), b.length - n)
  }

  /** A batch cut in two at row `n` gathers to what the whole batch does. */
  lemma SplitOneBatch(b: Batch, n: nat, c: nat)
    requires WellShaped(b) && n <= b.length && c < |b.children|
    ensures HasChildren([Head(b, n), Tail(b, n)], c + 1)
    ensures Gather([Head(b, n), Tail(b, n)], c) == Gather([b], c)
    ensures TotalRows([Head(b, n), Tail(b, n)]) == TotalRows([b])
  {
    var parts := [Head(b, n), Tail(b, n)];
    assert parts[..1] == [Head(b, n)];
    assert [Head(b, n)][..0] == [];
    assert [b][..0] == [];
    assert b.children[c][..n] + b.children[c][n..] == b.children[c];
  }

  /** Replacing a middle stretch of a stream by one that gathers alike keeps
      the gathered column. */
  lemma ReplaceMiddle(pre: seq<Batch>, mid: seq<Batch>, mid': seq<Batch>, post: seq<Batch>, c: nat)
    requires HasChildren(pre, c + 1) && HasChildren(mid, c + 1) && HasChildren(mid', c + 1)
    requires HasChildren(post, c + 1)
    requires Gather(mid, c) == Gather(mid', c)
    ensures HasChildren(pre + mid + post, c + 1) && HasChildren(pre + mid' + post, c + 1)
    ensures Gather(pre + mid + post, c) == Gather(pre + mid' + post, c)
  {
    GatherAppend(pre, mid, c);
    GatherAppend(pre + mid, post, c);
    GatherAppend(pre, mid', c);
    GatherAppend(pre + mid', post, c);
  }

  /** The same for the row count. */
  lemma ReplaceMiddleRows(pre: seq<Batch>, mid: seq<Batch>, mid': seq<Batch>, post: seq<Batch>)
    requires TotalRows(mid) == TotalRows(mid')
    ensures TotalRows(pre + mid + post) == TotalRows(pre + mid' + post)
  {
    TotalRowsAppend(pre, mid);
    TotalRowsAppend(pre + mid, post);
    TotalRowsAppend(pre, mid');
    TotalRowsAppend(pre + mid', post);
  }

  /** Splitting one batch of a stream into two at any row changes neither
      any gathered column nor the row count: the fold does not depend on how
      the engine cuts the result into batches. */
  lemma SplitBatchKeepsColumns(pre: seq<Batch>, b: Batch, post: seq<Batch>, n: nat, width: nat)
    requires WellShaped(b) && n <= b.length
    requires HasChildren(pre + [b] + post, width)
    ensures HasChildren(pre + [Head(b, n), Tail(b, n)] + post, width)
    ensures TotalRows(pre + [Head(b, n), Tail(b, n)] + post) == TotalRows(pre + [b] + post)
    ensures forall c :: 0 <= c < width ==>
      Gather(pre + [Head(b, n), Tail(b, n)] + post, c) == Gather(pre + [b] + post, c)
  {
    var whole := pre + [b] + post;
    var parts := [Head(b, n), Tail(b, n)];
    assert HasChildren(pre, width) by {
      assert forall i :: 0 <= i < |pre| ==> whole[i] == pre[i];
    }
    assert HasChildren(post, width) by {
      assert forall i :: 0 <= i < |post| ==> whole[|pre| + 1 + i] == post[i];
    }
    assert width <= |b.children| by {
      assert whole[|pre|] == b;
    }
    assert HasChildren(pre + parts + post, width) by {
      var split := pre + parts + post;
      forall i | 0 <= i < |split|
        ensures width <= |split[i].children|
      {
        if i < |pre| {
          assert split[i] == pre[i];
        } else if i < |pre| + 2 {
          assert split[i] == parts[i - |pre|];
        } else {
          assert split[i] == post[i - |pre| - 2];
        }
      }
    }
    if width > 0 {
      SplitOneBatch(b, n, 0);
    } else {
      assert TotalRows(parts) == TotalRows([b]) by {
        assert parts[..1] == [Head(b, n)];
        assert [Head(b, n)][..0] == [];
        assert [b][..0] == [];
      }
    }
    ReplaceMiddleRows(pre, [b], parts, post);
    forall c | 0 <= c < width
      ensures Gather(pre + parts + post, c) == Gather(whole, c)
    {
      SplitOneBatch(b, n, c);
      ReplaceMiddle(pre, [b], parts, post, c);
    }
  }

  /** With well-shaped batches, `rowsCount` is the length of every folded
      column. */
  lemma {:induction false} RowsCountIsColumnLength(bs: seq<Batch>, c: nat)
    requires HasChildren(bs, c + 1)
    requires forall i :: 0 <= i < |bs| ==> WellShaped(bs[i])
    ensures |Gather(bs, c)| == TotalRows(bs)
  {
    if |bs| > 0 {
      RowsCountIsColumnLength(bs[..|bs| - 1], c);
    }
  }
}
