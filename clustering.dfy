/** The data reshaping that `CAMServer::PerformClustering` and
    `CAMServer::SendClusters` perform around the k-means call:

    - the batches of the global store are flattened into rows, batch by
      batch and record by record;
    - given a label in [0, 4) per row (the k-means result), the rows are
      regrouped into 4 clusters, each record stamped with the collecting
      server's node id;
    - a rows x cols matrix of floats is serialised row-major into bytes.

    The k-means numerics are not modelled: labels and centres are inputs. */
module Clustering {
  import opened Wire
  import opened Cam

  /** `numClusters` in `PerformClustering`. */
  const NUM_CLUSTERS: nat := 4
  /** Bytes per float written by `SendClusters` (`sizeof(float)`). */
  const FLOAT_SIZE: nat := 4

  // ---------------------------------------------------------------------
  // Flattening the global store

  /** Sum of the batch lengths: `numDataPoints`. */
  function TotalLength(batches: seq<seq<CamData>>): nat
  {
    if batches == [] then 0
    else TotalLength(batches[..|batches| - 1]) + |batches[|batches| - 1]|
  }

  /** The rows of `dataPoints`: every record of every batch, batch order
      first, then order within the batch. */
  function Flatten(batches: seq<seq<CamData>>): (rows: seq<CamData>)
    ensures |rows| == TotalLength(batches)
  {
    if batches == [] then []
    else Flatten(batches[..|batches| - 1]) + batches[|batches| - 1]
  }

  /** Record j of batch k is row `TotalLength(batches[..k]) + j`. */
  lemma {:induction false} FlattenAt(batches: seq<seq<CamData>>, k: nat, j: nat)
    requires k < |batches| && j < |batches[k]|
    ensures TotalLength(batches[..k]) + j < |Flatten(batches)|
    ensures Flatten(batches)[TotalLength(batches[..k]) + j] == batches[k][j]
  {
    var init := batches[..|batches| - 1];
    if k == |batches| - 1 {
      assert batches[..k] == init;
    } else {
      assert init[..k] == batches[..k];
      FlattenAt(init, k, j);
    }
  }

  /** Flattening a store extended by one batch appends that batch's rows. */
  lemma FlattenAppend(batches: seq<seq<CamData>>, b: seq<CamData>)
    ensures Flatten(batches + [b]) == Flatten(batches) + b
    ensures TotalLength(batches + [b]) == TotalLength(batches) + |b|
  {
    assert (batches + [b])[..|batches|] == batches;
  }

  /** The first loop of `PerformClustering`: adds up the batch sizes. */
  method CountDataPoints(batches: seq<seq<CamData>>) returns (n: nat)
    ensures n == |Flatten(batches)|
  {
    n := 0;
    var k := 0;
    while k < |batches|
      invariant 0 <= k <= |batches|
      invariant n == TotalLength(batches[..k])
    {
      assert batches[..k + 1][..k] == batches[..k];
      n := n + |batches[k]|;
      k := k + 1;
    }
    assert batches[..k] == batches;
  }

  /** The second loop of `PerformClustering`: copies every record into the
      next row of `dataPoints`. */
  method FillDataPoints(batches: seq<seq<CamData>>) returns (rows: seq<CamData>)
    ensures rows == Flatten(batches)
  {
    rows := [];
    var k := 0;
    while k < |batches|
      invariant 0 <= k <= |batches|
      invariant rows == Flatten(batches[..k])
    {
      var j := 0;
      while j < |batches[k]|
        invariant 0 <= j <= |batches[k]|
        invariant rows == Flatten(batches[..k]) + batches[k][..j]
      {
        rows := rows + [batches[k][j]];
        j := j + 1;
        assert batches[k][..j] == batches[k][..j - 1] + [batches[k][j - 1]];
      }
      assert batches[k][..j] == batches[k];
      assert batches[..k + 1][..k] == batches[..k];
      k := k + 1;
    }
    assert batches[..k] == batches;
  }

  // ---------------------------------------------------------------------
  // Regrouping by label

  /** Labels as k-means returns them: one per row, each a cluster index. */
  ghost predicate ValidLabels(labels: seq<int>, n: nat)
  {
    |labels| == n && forall i :: 0 <= i < n ==> 0 <= labels[i] < NUM_CLUSTERS
  }

  /** The record `PerformClustering` pushes for a row: position and speed
      are kept, the id is the collecting server's node id. */
  function Stamp(d: CamData, nodeId: u32): CamData
  {
    CamData(d.posX, d.posY, d.speed, nodeId)
  }

  /** Cluster g: the stamped rows whose label is g, in row order. */
  function Cluster(rows: seq<CamData>, labels: seq<int>, g: int, nodeId: u32): seq<CamData>
    requires |labels| == |rows|
  {
    if rows == [] then []
    else
      var n := |rows| - 1;
      Cluster(rows[..n], labels[..n], g, nodeId)
        + (if labels[n] == g then [Stamp(rows[n], nodeId)] else [])
  }

  /** `clusteredData`: one cluster per index in [0, NUM_CLUSTERS). */
  function Regroup(rows: seq<CamData>, labels: seq<int>, nodeId: u32): (groups: seq<seq<CamData>>)
    requires |labels| == |rows|
    ensures |groups| == NUM_CLUSTERS
  {
    seq(NUM_CLUSTERS, g requires 0 <= g < NUM_CLUSTERS => Cluster(rows, labels, g, nodeId))
  }

  /** The row indices labelled g, in increasing order. */
  function Indices(labels: seq<int>, g: int): seq<nat>
  {
    if labels == [] then []
    else
      var n := |labels| - 1;
      Indices(labels[..n], g) + (if labels[n] == g then [n] else [])
  }

  /** Every index listed is in range and labelled g. */
  lemma {:induction false} IndicesLabelled(labels: seq<int>, g: int)
    ensures forall k :: 0 <= k < |Indices(labels, g)| ==>
      Indices(labels, g)[k] < |labels| && labels[Indices(labels, g)[k]] == g
  {
    if labels != [] {
      var n := |labels| - 1;
      var init := labels[..n];
      IndicesLabelled(init, g);
      var ix := Indices(labels, g);
      var pre := Indices(init, g);
      assert ix == pre + (if labels[n] == g then [n] else []);
      forall k | 0 <= k < |ix|
        ensures ix[k] < |labels| && labels[ix[k]] == g
      {
        if k < |pre| {
          assert ix[k] == pre[k] && init[pre[k]] == labels[pre[k]];
        }
      }
    }
  }

  /** The indices are listed in strictly increasing order. */
  lemma {:induction false} IndicesIncreasing(labels: seq<int>, g: int)
    ensures forall k, l :: 0 <= k < l < |Indices(labels, g)| ==> Indices(labels, g)[k] < Indices(labels, g)[l]
  {
    if labels != [] {
      var n := |labels| - 1;
      var init := labels[..n];
      IndicesIncreasing(init, g);
      IndicesLabelled(init, g);
      var ix := Indices(labels, g);
      var pre := Indices(init, g);
      assert ix == pre + (if labels[n] == g then [n] else []);
      forall k, l | 0 <= k < l < |ix|
        ensures ix[k] < ix[l]
      {
        assert ix[k] == pre[k] && pre[k] < n;
        if l < |pre| {
          assert ix[l] == pre[l];
        }
      }
    }
  }

  /** Every row labelled g is listed. */
  lemma {:induction false} IndicesComplete(labels: seq<int>, g: int)
    ensures forall i :: 0 <= i < |labels| && labels[i] == g ==> i in Indices(labels, g)
  {
    if labels != [] {
      var n := |labels| - 1;
      var init := labels[..n];
      IndicesComplete(init, g);
      var ix := Indices(labels, g);
      var pre := Indices(init, g);
      assert ix == pre + (if labels[n] == g then [n] else []);
      forall i | 0 <= i < |labels| && labels[i] == g
        ensures i in ix
      {
        if i < n {
          assert init[i] == g;
          assert i in pre;
        } else {
          assert ix[|ix| - 1] == n;
        }
      }
    }
  }

  /** `Indices(labels, g)` lists exactly the rows labelled g, each once,
      in increasing order. */
  lemma IndicesSpec(labels: seq<int>, g: int)
    ensures forall k :: 0 <= k < |Indices(labels, g)| ==>
      Indices(labels, g)[k] < |labels| && labels[Indices(labels, g)[k]] == g
    ensures forall k, l :: 0 <= k < l < |Indices(labels, g)| ==> Indices(labels, g)[k] < Indices(labels, g)[l]
    ensures forall i :: 0 <= i < |labels| && labels[i] == g ==> i in Indices(labels, g)
  {
    IndicesLabelled(labels, g);
    IndicesIncreasing(labels, g);
    IndicesComplete(labels, g);
  }

  /** Cluster g is the rows listed by `Indices(labels, g)`, stamped, in
      that order: every row labelled g lands in cluster g, no other row
      does, and order within a cluster follows row order. */
  lemma {:induction false} ClusterIsIndexed(rows: seq<CamData>, labels: seq<int>, g: int, nodeId: u32)
    requires |labels| == |rows|
    ensures |Cluster(rows, labels, g, nodeId)| == |Indices(labels, g)|
    ensures forall k :: 0 <= k < |Indices(labels, g)| ==>
      Indices(labels, g)[k] < |rows|
      && Cluster(rows, labels, g, nodeId)[k] == Stamp(rows[Indices(labels, g)[k]], nodeId)
  {
    IndicesSpec(labels, g);
    if rows != [] {
      var n := |rows| - 1;
      ClusterIsIndexed(rows[..n], labels[..n], g, nodeId);
      IndicesSpec(labels[..n], g);
      var pre := Indices(labels[..n], g);
      forall k | 0 <= k < |Indices(labels, g)|
        ensures Cluster(rows, labels, g, nodeId)[k] == Stamp(rows[Indices(labels, g)[k]], nodeId)
      {
        if k < |pre| {
          assert rows[..n][pre[k]] == rows[pre[k]];
        }
      }
    }
  }

  /** Every regrouped record carries the collecting server's node id. */
  lemma {:induction false} ClusterCarriesNodeId(rows: seq<CamData>, labels: seq<int>, g: int, nodeId: u32)
    requires |labels| == |rows|
    ensures forall d :: d in Cluster(rows, labels, g, nodeId) ==> d.id == nodeId
  {
    if rows != [] {
      var n := |rows| - 1;
      ClusterCarriesNodeId(rows[..n], labels[..n], g, nodeId);
    }
  }

  /** Flattening four groups concatenates them. */
  lemma FlattenFour(groups: seq<seq<CamData>>)
    requires |groups| == 4
    ensures Flatten(groups) == groups[0] + groups[1] + groups[2] + groups[3]
  {
    var g3, g2, g1 := groups[..3], groups[..2], groups[..1];
    assert g3[..2] == g2 && g2[..1] == g1 && g1[..0] == [];
    assert Flatten(g1) == groups[0];
    assert Flatten(g2) == groups[0] + groups[1];
    assert Flatten(g3) == groups[0] + groups[1] + groups[2];
  }

  /** The stamped rows, in row order. */
  function StampAll(rows: seq<CamData>, nodeId: u32): seq<CamData>
  {
    if rows == [] then []
    else StampAll(rows[..|rows| - 1], nodeId) + [Stamp(rows[|rows| - 1], nodeId)]
  }

  /** Regrouping one more row extends exactly the cluster its label names. */
  lemma RegroupSnoc(rows: seq<CamData>, labels: seq<int>, nodeId: u32)
    requires |labels| == |rows| > 0 && 0 <= labels[|rows| - 1] < NUM_CLUSTERS
    ensures var n := |rows| - 1; var before := Regroup(rows[..n], labels[..n], nodeId);
      Regroup(rows, labels, nodeId) == before[labels[n] := before[labels[n]] + [Stamp(rows[n], nodeId)]]
  {
    var n := |rows| - 1;
    var before := Regroup(rows[..n], labels[..n], nodeId);
    var after := before[labels[n] := before[labels[n]] + [Stamp(rows[n], nodeId)]];
    forall g | 0 <= g < NUM_CLUSTERS
      ensures Regroup(rows, labels, nodeId)[g] == after[g]
    {
      assert Regroup(rows, labels, nodeId)[g] == Cluster(rows, labels, g, nodeId);
      assert before[g] == Cluster(rows[..n], labels[..n], g, nodeId);
    }
  }

  /** Adding x to one of four groups adds x to their union. */
  lemma AddToOneOfFour(groups: seq<seq<CamData>>, l: int, x: CamData)
    requires |groups| == 4 && 0 <= l < 4
    ensures multiset(Flatten(groups[l := groups[l] + [x]])) == multiset(Flatten(groups)) + multiset{x}
  {
    var after := groups[l := groups[l] + [x]];
    FlattenFour(groups);
    FlattenFour(after);
  }

  /** Partition law: the clusters together hold every stamped row exactly
      once and nothing else, so their sizes add up to `numDataPoints`. */
  lemma {:induction false} RegroupIsPartition(rows: seq<CamData>, labels: seq<int>, nodeId: u32)
    requires ValidLabels(labels, |rows|)
    ensures multiset(Flatten(Regroup(rows, labels, nodeId))) == multiset(StampAll(rows, nodeId))
    ensures TotalLength(Regroup(rows, labels, nodeId)) == |rows|
  {
    var groups := Regroup(rows, labels, nodeId);
    if rows == [] {
      FlattenFour(groups);
    } else {
      var n := |rows| - 1;
      RegroupIsPartition(rows[..n], labels[..n], nodeId);
      RegroupSnoc(rows, labels, nodeId);
      AddToOneOfFour(Regroup(rows[..n], labels[..n], nodeId), labels[n], Stamp(rows[n], nodeId));
    }
    StampAllLength(rows, nodeId);
    assert |multiset(Flatten(groups))| == |Flatten(groups)|;
    assert |multiset(StampAll(rows, nodeId))| == |StampAll(rows, nodeId)|;
  }

  lemma {:induction false} StampAllLength(rows: seq<CamData>, nodeId: u32)
    ensures |StampAll(rows, nodeId)| == |rows|
  {
    if rows != [] {
      StampAllLength(rows[..|rows| - 1], nodeId);
    }
  }

  /** The regrouping loop of `PerformClustering`: pushes each stamped row
      onto the cluster its label names. */
  method RegroupRows(rows: seq<CamData>, labels: seq<int>, nodeId: u32) returns (clustered: seq<seq<CamData>>)
    requires ValidLabels(labels, |rows|)
    ensures clustered == Regroup(rows, labels, nodeId)
  {
    clustered := [[], [], [], []];
    var i := 0;
    while i < |rows|
      invariant 0 <= i <= |rows|
      invariant clustered == Regroup(rows[..i], labels[..i], nodeId)
    {
      var c := labels[i];
      clustered := clustered[c := clustered[c] + [Stamp(rows[i], nodeId)]];
      assert rows[..i + 1][..i] == rows[..i];
      assert labels[..i + 1][..i] == labels[..i];
      RegroupSnoc(rows[..i + 1], labels[..i + 1], nodeId);
      i := i + 1;
    }
    assert rows[..i] == rows;
    assert labels[..i] == labels;
  }

  // ---------------------------------------------------------------------
  // Serialising the cluster centres

  /** A `cv::Mat` of floats, each kept as its 32-bit IEEE-754 bit pattern. */
  datatype Matrix = Matrix(rows: nat, cols: nat, cells: seq<seq<u32>>)
  {
    ghost predicate Valid()
    {
      |cells| == rows && forall i :: 0 <= i < rows ==> |cells[i]| == cols
    }
  }

  /** The `memcpy` images of a row's floats, one after the other. */
  function RowBytes(row: seq<u32>): (r: seq<byte>)
  {
    if row == [] then []
    else RowBytes(row[..|row| - 1]) + LittleEndian(row[|row| - 1], FLOAT_SIZE)
  }

  /** The buffer `SendClusters` sends: row after row. */
  function MatrixBytes(cells: seq<seq<u32>>): seq<byte>
  {
    if cells == [] then []
    else MatrixBytes(cells[..|cells| - 1]) + RowBytes(cells[|cells| - 1])
  }

  lemma {:induction false} RowBytesAt(row: seq<u32>, j: nat, t: nat)
    requires j < |row| && t < FLOAT_SIZE
    ensures |RowBytes(row)| == |row| * FLOAT_SIZE
    ensures RowBytes(row)[j * FLOAT_SIZE + t] == LittleEndian(row[j], FLOAT_SIZE)[t]
  {
    var n := |row| - 1;
    RowBytesLength(row[..n]);
    if j < n {
      RowBytesAt(row[..n], j, t);
    }
  }

  lemma {:induction false} RowBytesLength(row: seq<u32>)
    ensures |RowBytes(row)| == |row| * FLOAT_SIZE
  {
    if row != [] {
      RowBytesLength(row[..|row| - 1]);
    }
  }

  /** The buffer holds exactly rows * cols * 4 bytes. */
  lemma {:induction false} MatrixBytesLength(m: Matrix)
    requires m.Valid()
    decreases m.rows
    ensures |MatrixBytes(m.cells)| == m.rows * m.cols * FLOAT_SIZE
  {
    if m.rows > 0 {
      var n := m.rows - 1;
      MatrixBytesLength(Matrix(n, m.cols, m.cells[..n]));
      RowBytesLength(m.cells[n]);
      assert m.rows * m.cols * FLOAT_SIZE == n * m.cols * FLOAT_SIZE + m.cols * FLOAT_SIZE;
    }
  }

  /** Row-major layout: element (i, j) occupies the four bytes starting at
      offset (i * cols + j) * 4. */
  lemma {:induction false} MatrixBytesAt(m: Matrix, i: nat, j: nat, t: nat)
    requires m.Valid() && i < m.rows && j < m.cols && t < FLOAT_SIZE
    decreases m.rows
    ensures (i * m.cols + j) * FLOAT_SIZE + t < |MatrixBytes(m.cells)|
    ensures MatrixBytes(m.cells)[(i * m.cols + j) * FLOAT_SIZE + t]
         == LittleEndian(m.cells[i][j], FLOAT_SIZE)[t]
  {
    var n := m.rows - 1;
    var init := Matrix(n, m.cols, m.cells[..n]);
    MatrixBytesLength(init);
    MatrixBytesLength(m);
    CellOffsetBound(i, j, m.rows, m.cols);
    if i == n {
      RowBytesAt(m.cells[n], j, t);
      assert (i * m.cols + j) * FLOAT_SIZE + t == n * m.cols * FLOAT_SIZE + (j * FLOAT_SIZE + t);
    } else {
      MatrixBytesAt(init, i, j, t);
    }
  }

  lemma CellOffsetBound(i: nat, j: nat, rows: nat, cols: nat)
    requires i < rows && j < cols
    ensures (i * cols + j) * FLOAT_SIZE + FLOAT_SIZE <= rows * cols * FLOAT_SIZE
  {
    assert i * cols + j + 1 <= (i + 1) * cols;
    assert (i + 1) * cols <= rows * cols;
  }

  /** The receiving side of the layout: reading back the four bytes of
      element (i, j) yields the element. */
  lemma ReadCellRoundTrip(m: Matrix, i: nat, j: nat)
    requires m.Valid() && i < m.rows && j < m.cols
    ensures var off := (i * m.cols + j) * FLOAT_SIZE;
      off + FLOAT_SIZE <= |MatrixBytes(m.cells)|
      && FromLittleEndian(MatrixBytes(m.cells)[off..off + FLOAT_SIZE]) == m.cells[i][j]
  {
    var off := (i * m.cols + j) * FLOAT_SIZE;
    MatrixBytesLength(m);
    CellOffsetBound(i, j, m.rows, m.cols);
    var b := MatrixBytes(m.cells);
    forall t | 0 <= t < FLOAT_SIZE
      ensures b[off..off + FLOAT_SIZE][t] == LittleEndian(m.cells[i][j], FLOAT_SIZE)[t]
    {
      MatrixBytesAt(m, i, j, t);
    }
    assert b[off..off + FLOAT_SIZE] == LittleEndian(m.cells[i][j], FLOAT_SIZE);
    Pow256Widths();
    LittleEndianRoundTrip(m.cells[i][j], FLOAT_SIZE);
  }

  /** `memcpy` of one float's four bytes into the buffer at `offset`. */
  method CopyFloat(buffer: array<byte>, offset: nat, value: u32)
    requires offset + FLOAT_SIZE <= buffer.Length
    modifies buffer
    ensures buffer[..offset] == old(buffer[..offset])
    ensures buffer[offset..offset + FLOAT_SIZE] == LittleEndian(value, FLOAT_SIZE)
    ensures buffer[offset + FLOAT_SIZE..] == old(buffer[offset + FLOAT_SIZE..])
  {
    var image := LittleEndian(value, FLOAT_SIZE);
    buffer[offset] := image[0];
    buffer[offset + 1] := image[1];
    buffer[offset + 2] := image[2];
    buffer[offset + 3] := image[3];
  }

  /** The bytes of element (i, j) in the serialised image are its `memcpy` image. */
  lemma CellImage(m: Matrix, i: nat, j: nat)
    requires m.Valid() && i < m.rows && j < m.cols
    ensures (i * m.cols + j) * FLOAT_SIZE + FLOAT_SIZE <= |MatrixBytes(m.cells)|
    ensures MatrixBytes(m.cells)[(i * m.cols + j) * FLOAT_SIZE..(i * m.cols + j) * FLOAT_SIZE + FLOAT_SIZE]
      == LittleEndian(m.cells[i][j], FLOAT_SIZE)
  {
    var off := (i * m.cols + j) * FLOAT_SIZE;
    CellOffsetBound(i, j, m.rows, m.cols);
    MatrixBytesLength(m);
    forall t | 0 <= t < FLOAT_SIZE
      ensures MatrixBytes(m.cells)[off + t] == LittleEndian(m.cells[i][j], FLOAT_SIZE)[t]
    {
      MatrixBytesAt(m, i, j, t);
    }
  }

  /** Two sequences that agree up to `off` and on the next k elements
      agree up to `off + k`. */
  lemma PrefixExtend(a: seq<byte>, b: seq<byte>, off: nat, k: nat)
    requires off + k <= |a| && off + k <= |b|
    requires a[..off] == b[..off] && a[off..off + k] == b[off..off + k]
    ensures a[..off + k] == b[..off + k]
  {
    assert a[..off + k] == a[..off] + a[off..off + k];
    assert b[..off + k] == b[..off] + b[off..off + k];
  }

  lemma NextCell(i: nat, j: nat, cols: nat)
    ensures (i * cols + j) * FLOAT_SIZE + FLOAT_SIZE == (i * cols + j + 1) * FLOAT_SIZE
    ensures (i * cols + cols) * FLOAT_SIZE == (i + 1) * cols * FLOAT_SIZE
  {
  }

  /** The serialisation loop of `SendClusters`: a buffer of
      rows * cols * 4 bytes filled at an offset that advances by 4 per
      element, row by row. */
  method SerializeMatrix(m: Matrix) returns (bytes: seq<byte>)
    requires m.Valid()
    ensures |bytes| == m.rows * m.cols * FLOAT_SIZE
    ensures bytes == MatrixBytes(m.cells)
  {
    MatrixBytesLength(m);
    ghost var image := MatrixBytes(m.cells);
    var buffer := new byte[m.rows * m.cols * FLOAT_SIZE];
    var offset := 0;
    var i := 0;
    while i < m.rows
      invariant 0 <= i <= m.rows
      invariant offset == i * m.cols * FLOAT_SIZE
      invariant offset <= buffer.Length && buffer[..offset] == image[..offset]
    {
      var j := 0;
      while j < m.cols
        invariant 0 <= j <= m.cols
        invariant offset == (i * m.cols + j) * FLOAT_SIZE
        invariant offset <= buffer.Length && buffer[..offset] == image[..offset]
      {
        CellOffsetBound(i, j, m.rows, m.cols);
        CopyFloat(buffer, offset, m.cells[i][j]);
        CellImage(m, i, j);
        PrefixExtend(buffer[..], image, offset, FLOAT_SIZE);
        NextCell(i, j, m.cols);
        offset := offset + FLOAT_SIZE;
        j := j + 1;
      }
      NextCell(i, 0, m.cols);
      i := i + 1;
    }
    bytes := buffer[..];
    assert bytes == buffer[..offset];
  }
}
