/** The int8 convolution as it is called: packing, quantizing, the row plan and the pool. */
module ConvQ8Run {
  import opened Sums
  import opened Pool
  import opened ConvQ8
  import opened Quantizers

  const QUANT_TASKS_MAX := 32
  const QUANT_MIN_WORK := 0x2000
  const MIN_WORK := 0x4_0000
  const PARALLEL_MIN_WORK := 0x2_0000
  const K_MAX := 8192
  const INT_MAX := 0x7FFF_FFFF
  const SIZE_MAX := 0xFFFF_FFFF_FFFF_FFFF

  // ------------------------------------------------------------------- row blocks

  lemma JoinColumns(
    j: Job, a: seq<real>, b: seq<real>, c: seq<real>, ldc: nat, i0: nat, rows: nat, left: nat, right: nat)
    requires Did(j, a, b, ldc, i0, rows, 0, left) && Did(j, b, c, ldc, i0, rows, left, right)
    ensures Did(j, a, c, ldc, i0, rows, 0, left + right)
  {
  }

  lemma JoinRows(
    j: Job, a: seq<real>, b: seq<real>, c: seq<real>, ldc: nat, i0: nat, upper: nat, lower: nat, columns: nat)
    requires Did(j, a, b, ldc, i0, upper, 0, columns) && Did(j, b, c, ldc, i0 + upper, lower, 0, columns)
    ensures Did(j, a, c, ldc, i0, upper + lower, 0, columns)
  {
  }

  lemma JoinColumnCounts(
    j: Job, a: seq<nat>, b: seq<nat>, c: seq<nat>, ldc: nat, i0: nat, rows: nat, left: nat, right: nat)
    requires Counted(j, a, b, ldc, i0, rows, 0, left) && Counted(j, b, c, ldc, i0, rows, left, right)
    ensures Counted(j, a, c, ldc, i0, rows, 0, left + right)
  {
  }

  lemma JoinRowCounts(
    j: Job, a: seq<nat>, b: seq<nat>, c: seq<nat>, ldc: nat, i0: nat, upper: nat, lower: nat, columns: nat)
    requires Counted(j, a, b, ldc, i0, upper, 0, columns) && Counted(j, b, c, ldc, i0 + upper, lower, 0, columns)
    ensures Counted(j, a, c, ldc, i0, upper + lower, 0, columns)
  {
  }

  lemma Nothing(j: Job, a: seq<real>, w: seq<nat>, ldc: nat, i0: nat, rows: nat, columns: nat)
    requires rows == 0 || columns == 0
    ensures Did(j, a, a, ldc, i0, rows, 0, columns) && Counted(j, w, w, ldc, i0, rows, 0, columns)
  {
  }

  /** All the columns of up to a strip of rows. */
  method StripColumns(j: Job, i0: nat, rows: nat, batchMax: nat, out: Output)
    requires Ready(j) && i0 + rows <= j.m && j.n <= out.ldc && out.Sized(j.m)
    requires rows <= ROW_STRIP && 0 < batchMax <= MAX_BATCH
    modifies out, out.c
    ensures out.Sized(j.m)
    ensures Did(j, old(out.c[..]), out.c[..], out.ldc, i0, rows, 0, j.n)
    ensures Counted(j, old(out.writes), out.writes, out.ldc, i0, rows, 0, j.n)
  {
    hide Did, Counted, Ready;
    var j0 := 0;
    Nothing(j, out.c[..], out.writes, out.ldc, i0, rows, 0);
    while j0 < j.n
      invariant 0 <= j0 <= j.n && out.Sized(j.m)
      invariant Did(j, old(out.c[..]), out.c[..], out.ldc, i0, rows, 0, j0)
      invariant Counted(j, old(out.writes), out.writes, out.ldc, i0, rows, 0, j0)
    {
      var batch := if j.n - j0 > batchMax then batchMax else j.n - j0;
      ghost var c0, w0 := out.c[..], out.writes;
      Strip(j, i0, rows, j0, batch, out);
      JoinColumns(j, old(out.c[..]), c0, out.c[..], out.ldc, i0, rows, j0, batch);
      JoinColumnCounts(j, old(out.writes), w0, out.writes, out.ldc, i0, rows, j0, batch);
      j0 := j0 + batch;
    }
  }

  /** The rows of a task. */
  function TaskRows(j: Job, index: nat, rowBlock: nat): nat {
    var i0 := index * rowBlock;
    if i0 >= j.m then 0 else if i0 + rowBlock > j.m then j.m - i0 else rowBlock
  }

  /** `cq8_task`. */
  method Task(j: Job, index: nat, rowBlock: nat, kernelBatch: nat, out: Output)
    requires Ready(j) && j.n <= out.ldc && out.Sized(j.m) && kernelBatch >= 1
    modifies out, out.c
    ensures out.Sized(j.m)
    ensures Did(j, old(out.c[..]), out.c[..], out.ldc, index * rowBlock, TaskRows(j, index, rowBlock), 0, j.n)
    ensures Counted(j, old(out.writes), out.writes, out.ldc, index * rowBlock, TaskRows(j, index, rowBlock), 0, j.n)
  {
    hide Did, Counted, Ready;
    var i0 := index * rowBlock;
    Nothing(j, out.c[..], out.writes, out.ldc, i0, 0, j.n);
    if i0 >= j.m {
      return;
    }
    var block := TaskRows(j, index, rowBlock);
    var batchMax := if kernelBatch < MAX_BATCH then kernelBatch else MAX_BATCH;
    var s := 0;
    while s < block
      invariant 0 <= s <= block && out.Sized(j.m)
      invariant Did(j, old(out.c[..]), out.c[..], out.ldc, i0, s, 0, j.n)
      invariant Counted(j, old(out.writes), out.writes, out.ldc, i0, s, 0, j.n)
    {
      var rows := if block - s > ROW_STRIP then ROW_STRIP else block - s;
      ghost var c0, w0 := out.c[..], out.writes;
      StripColumns(j, i0 + s, rows, batchMax, out);
      JoinRows(j, old(out.c[..]), c0, out.c[..], out.ldc, i0, s, rows, j.n);
      JoinRowCounts(j, old(out.writes), w0, out.writes, out.ldc, i0, s, rows, j.n);
      s := s + rows;
    }
  }

  lemma TaskHas(j: Job, index: nat, rowBlock: nat, i: nat)
    requires i < j.m
    ensures index * rowBlock <= i < index * rowBlock + TaskRows(j, index, rowBlock) <==> Has(index, rowBlock, j.m, i)
  {
  }

  /** Row `i` belongs to one of the first `upTo` tasks run. */
  ghost predicate RowDone(order: seq<nat>, upTo: nat, rowBlock: nat, m: nat, i: nat)
    requires upTo <= |order|
  {
    exists q: nat :: q < upTo && Has(order[q], rowBlock, m, i)
  }

  ghost predicate RowsDone(j: Job, was: seq<real>, now: seq<real>, ldc: nat, order: seq<nat>, upTo: nat, rowBlock: nat)
    requires upTo <= |order|
  {
    |now| == |was| &&
    forall i: nat, c: nat :: i < j.m && c < ldc ==>
      Get(now, At(i, ldc, c)) ==
        if c < j.n && RowDone(order, upTo, rowBlock, j.m, i) then Cell(j, i, c) else Get(was, At(i, ldc, c))
  }

  ghost predicate RowsCounted(j: Job, was: seq<nat>, now: seq<nat>, ldc: nat, order: seq<nat>, upTo: nat, rowBlock: nat)
    requires upTo <= |order|
  {
    |now| == |was| &&
    forall i: nat, c: nat :: i < j.m && c < ldc ==>
      Times(now, At(i, ldc, c)) ==
        Times(was, At(i, ldc, c)) + (if c < j.n && RowDone(order, upTo, rowBlock, j.m, i) then 1 else 0)
  }

  lemma NextRow(order: seq<nat>, upTo: nat, rowBlock: nat, m: nat, i: nat)
    requires upTo < |order| && rowBlock > 0 && i < m
    requires forall a, b :: 0 <= a < b < |order| ==> order[a] != order[b]
    ensures RowDone(order, upTo + 1, rowBlock, m, i) <==>
      RowDone(order, upTo, rowBlock, m, i) || Has(order[upTo], rowBlock, m, i)
    ensures !(RowDone(order, upTo, rowBlock, m, i) && Has(order[upTo], rowBlock, m, i))
  {
    TasksPartition(m, rowBlock, i);
  }

  lemma OneMoreTask(
    j: Job, was: seq<real>, mid: seq<real>, now: seq<real>, w0: seq<nat>, w1: seq<nat>, w2: seq<nat>, ldc: nat,
    order: seq<nat>, upTo: nat, rowBlock: nat)
    requires upTo < |order| && rowBlock > 0 && forall a, b :: 0 <= a < b < |order| ==> order[a] != order[b]
    requires RowsDone(j, was, mid, ldc, order, upTo, rowBlock) && RowsCounted(j, w0, w1, ldc, order, upTo, rowBlock)
    requires Did(j, mid, now, ldc, order[upTo] * rowBlock, TaskRows(j, order[upTo], rowBlock), 0, j.n)
    requires Counted(j, w1, w2, ldc, order[upTo] * rowBlock, TaskRows(j, order[upTo], rowBlock), 0, j.n)
    ensures RowsDone(j, was, now, ldc, order, upTo + 1, rowBlock) && RowsCounted(j, w0, w2, ldc, order, upTo + 1, rowBlock)
  {
    hide At, Cell, RowDone, Has, TaskRows;
    forall i: nat | i < j.m
      ensures RowDone(order, upTo + 1, rowBlock, j.m, i) <==>
        RowDone(order, upTo, rowBlock, j.m, i) ||
        order[upTo] * rowBlock <= i < order[upTo] * rowBlock + TaskRows(j, order[upTo], rowBlock)
      ensures !(RowDone(order, upTo, rowBlock, j.m, i) &&
        order[upTo] * rowBlock <= i < order[upTo] * rowBlock + TaskRows(j, order[upTo], rowBlock))
    {
      NextRow(order, upTo, rowBlock, j.m, i);
      TaskHas(j, order[upTo], rowBlock, i);
    }
  }

  /** Every output element is the plain formula's and was written once, whichever order the row
      blocks ran in and however large they were; the rest of the buffer is untouched. */
  ghost predicate Computed(j: Job, was: seq<real>, now: seq<real>, w0: seq<nat>, w1: seq<nat>, ldc: nat) {
    |now| == |was| &&
    forall i: nat, c: nat :: i < j.m && c < ldc ==>
      && Get(now, At(i, ldc, c)) == (if c < j.n then Cell(j, i, c) else Get(was, At(i, ldc, c)))
      && Times(w1, At(i, ldc, c)) == Times(w0, At(i, ldc, c)) + (if c < j.n then 1 else 0)
  }

  method RunTasks(j: Job, rowBlock: nat, order: seq<nat>, kernelBatch: nat, out: Output)
    requires Ready(j) && j.n <= out.ldc && out.Sized(j.m) && kernelBatch >= 1
    requires rowBlock > 0 && EachOnce(order, Ceiling(j.m, rowBlock))
    modifies out, out.c
    ensures out.Sized(j.m)
    ensures Computed(j, old(out.c[..]), out.c[..], old(out.writes), out.writes, out.ldc)
  {
    hide Ready, RowsDone, RowsCounted, Did, Counted, EachOnce;
    NoTasks(j, out.c[..], out.writes, out.ldc, order, rowBlock);
    assert Distinct(order) by { OrderDistinct(order, Ceiling(j.m, rowBlock)); }
    for q := 0 to |order|
      invariant out.Sized(j.m)
      invariant RowsDone(j, old(out.c[..]), out.c[..], out.ldc, order, q, rowBlock)
      invariant RowsCounted(j, old(out.writes), out.writes, out.ldc, order, q, rowBlock)
    {
      ghost var c0, w0 := out.c[..], out.writes;
      Task(j, order[q], rowBlock, kernelBatch, out);
      OneMoreTask(j, old(out.c[..]), c0, out.c[..], old(out.writes), w0, out.writes, out.ldc, order, q, rowBlock);
    }
    AllTasks(j, old(out.c[..]), out.c[..], old(out.writes), out.writes, out.ldc, order, rowBlock);
  }

  predicate Distinct(order: seq<nat>) {
    forall a, b :: 0 <= a < b < |order| ==> order[a] != order[b]
  }

  lemma OrderDistinct(order: seq<nat>, n: nat)
    requires EachOnce(order, n)
    ensures Distinct(order)
  {
  }

  lemma NoTasks(j: Job, c: seq<real>, w: seq<nat>, ldc: nat, order: seq<nat>, rowBlock: nat)
    ensures RowsDone(j, c, c, ldc, order, 0, rowBlock) && RowsCounted(j, w, w, ldc, order, 0, rowBlock)
  {
    hide At, Cell;
    assert forall i: nat :: !RowDone(order, 0, rowBlock, j.m, i);
  }

  lemma AllTasks(
    j: Job, was: seq<real>, now: seq<real>, w0: seq<nat>, w1: seq<nat>, ldc: nat, order: seq<nat>, rowBlock: nat)
    requires rowBlock > 0 && EachOnce(order, Ceiling(j.m, rowBlock))
    requires RowsDone(j, was, now, ldc, order, |order|, rowBlock) && RowsCounted(j, w0, w1, ldc, order, |order|, rowBlock)
    ensures Computed(j, was, now, w0, w1, ldc)
  {
    hide At, Cell, Has;
    forall i: nat | i < j.m
      ensures RowDone(order, |order|, rowBlock, j.m, i)
    {
      TasksPartition(j.m, rowBlock, i);
      assert i / rowBlock in order;
      var q :| 0 <= q < |order| && order[q] == i / rowBlock;
    }
  }

  /** The size of a row block: the rows over twice the threads, rounded up to an even number. */
  function RowBlock(m: nat, threads: nat, work: nat, forced: nat): (per: nat)
    ensures per > 0
  {
    var want := if forced > 0 then forced else if threads > 1 && work >= PARALLEL_MIN_WORK then threads * 2 else 1;
    var blocks := if want > m then m else want;
    var per := if blocks == 0 then m else Ceiling(m, blocks);
    var even := per + per % 2;
    if even == 0 then 2 else even
  }

  lemma RowBlockIsEven(m: nat, threads: nat, work: nat, forced: nat)
    ensures RowBlock(m, threads, work, forced) % 2 == 0
  {
  }

  // ---------------------------------------------------------- quantizing the columns

  /** Column `col` of the window. */
  function ColumnOf(b: seq<real>, ldb: nat, k: nat, col: nat): (v: seq<real>)
    ensures |v| == k
  {
    seq(k, p requires 0 <= p => Get(b, At(p, ldb, col)))
  }

  ghost predicate WindowHolds(b: seq<real>, ldb: nat, k: nat, span: nat) {
    forall p: nat, col: nat :: p < k && col < span ==> At(p, ldb, col) < |b|
  }

  /** Column `col` has been quantized. */
  ghost predicate QuantizedAt(z: Quantizer, b: seq<real>, ldb: nat, k: nat, xq: seq<int>, sx: seq<real>, col: nat) {
    Get(sx, col) == z.scale(ColumnOf(b, ldb, k, col)) &&
    forall p: nat :: p < k ==> GetInt(xq, At(col, k, p)) == GetInt(z.codes(ColumnOf(b, ldb, k, col)), p)
  }

  ghost predicate SameColumn(k: nat, x0: seq<int>, s0: seq<real>, x1: seq<int>, s1: seq<real>, col: nat) {
    Get(s1, col) == Get(s0, col) && forall p: nat :: p < k ==> GetInt(x1, At(col, k, p)) == GetInt(x0, At(col, k, p))
  }

  method Gather(b: seq<real>, ldb: nat, k: nat, col: nat, tmp: array<real>, slice: nat)
    requires slice < QUANT_TASKS_MAX && tmp.Length == QUANT_TASKS_MAX * k
    requires forall p: nat :: p < k ==> At(p, ldb, col) < |b|
    modifies tmp
    ensures forall p: nat :: p < k ==> Get(tmp[..], At(slice, k, p)) == Get(b, At(p, ldb, col))
    ensures forall r: nat, p: nat :: r != slice && p < k ==> Get(tmp[..], At(r, k, p)) == Get(old(tmp[..]), At(r, k, p))
  {
    AtsWithin(QUANT_TASKS_MAX, k);
    hide At;
    for p := 0 to k
      invariant forall i: nat :: i < p ==> Get(tmp[..], At(slice, k, i)) == Get(b, At(i, ldb, col))
      invariant forall r: nat, i: nat :: r != slice && i < k ==> Get(tmp[..], At(r, k, i)) == Get(old(tmp[..]), At(r, k, i))
    {
      AtApart(slice, k, p);
      tmp[At(slice, k, p)] := b[At(p, ldb, col)];
    }
  }

  method QuantColumn(
    z: Quantizer, b: seq<real>, ldb: nat, k: nat, span: nat, col: nat, tmp: array<real>, slice: nat, xq: array<int>, sx: array<real>)
    requires KeepsLength(z) && WindowHolds(b, ldb, k, span) && col < span
    requires slice < QUANT_TASKS_MAX && tmp.Length == QUANT_TASKS_MAX * k
    requires xq.Length == span * k && sx.Length == span && tmp != sx
    modifies tmp, xq, sx
    ensures QuantizedAt(z, b, ldb, k, xq[..], sx[..], col)
    ensures forall other: nat :: other != col && other < span ==> SameColumn(k, old(xq[..]), old(sx[..]), xq[..], sx[..], other)
    ensures forall r: nat, p: nat :: r != slice && p < k ==> Get(tmp[..], At(r, k, p)) == Get(old(tmp[..]), At(r, k, p))
  {
    AtsWithin(QUANT_TASKS_MAX, k);
    AtsWithin(span, k);
    Gather(b, ldb, k, col, tmp, slice);
    SliceRoom(slice, k);
    var v := tmp[At(slice, k, 0)..At(slice, k, 0) + k];
    forall p: nat | p < k
      ensures v[p] == Get(b, At(p, ldb, col))
    {
      assert At(slice, k, p) == At(slice, k, 0) + p;
      assert Get(tmp[..], At(slice, k, p)) == tmp[At(slice, k, p)];
    }
    assert v == ColumnOf(b, ldb, k, col);
    hide At, ColumnOf;
    var codes := z.codes(v);
    sx[col] := z.scale(v);
    for p := 0 to k
      invariant sx[..] == old(sx[..])[col := z.scale(v)]
      invariant forall r: nat, i: nat :: r != slice && i < k ==> Get(tmp[..], At(r, k, i)) == Get(old(tmp[..]), At(r, k, i))
      invariant forall i: nat :: i < p ==> GetInt(xq[..], At(col, k, i)) == codes[i]
      invariant forall other: nat, i: nat :: other != col && other < span && i < k ==>
        GetInt(xq[..], At(other, k, i)) == GetInt(old(xq[..]), At(other, k, i))
    {
      AtApart(col, k, p);
      xq[At(col, k, p)] := codes[p];
    }
  }

  lemma SliceRoom(slice: nat, k: nat)
    requires slice < QUANT_TASKS_MAX
    ensures At(slice, k, 0) + k <= QUANT_TASKS_MAX * k
  {
    RowsApart(slice, QUANT_TASKS_MAX, k);
  }

  /** `cq8_quant_task`: its own columns, through its own slice of the gather buffer. */
  method QuantTask(
    z: Quantizer, b: seq<real>, ldb: nat, k: nat, span: nat, cols: nat, index: nat, tmp: array<real>, xq: array<int>, sx: array<real>)
    requires KeepsLength(z) && WindowHolds(b, ldb, k, span) && cols > 0
    requires tmp.Length == QUANT_TASKS_MAX * k && xq.Length == span * k && sx.Length == span && tmp != sx
    modifies tmp, xq, sx
    ensures forall col: nat :: Has(index, cols, span, col) ==> QuantizedAt(z, b, ldb, k, xq[..], sx[..], col)
    ensures forall col: nat :: col < span && !Has(index, cols, span, col) ==>
      SameColumn(k, old(xq[..]), old(sx[..]), xq[..], sx[..], col)
    ensures forall r: nat, p: nat :: r != index % QUANT_TASKS_MAX && p < k ==>
      Get(tmp[..], At(r, k, p)) == Get(old(tmp[..]), At(r, k, p))
  {
    hide At, KeepsLength, WindowHolds, ColumnOf, QuantizedAt, SameColumn;
    SameColumns(k, xq[..], sx[..]);
    var first := index * cols;
    if first >= span {
      return;
    }
    var count := if span - first > cols then cols else span - first;
    var slice := index % QUANT_TASKS_MAX;
    for c := 0 to count
      invariant forall col: nat :: first <= col < first + c ==> QuantizedAt(z, b, ldb, k, xq[..], sx[..], col)
      invariant forall col: nat :: col < span && !(first <= col < first + c) ==>
        SameColumn(k, old(xq[..]), old(sx[..]), xq[..], sx[..], col)
      invariant forall r: nat, p: nat :: r != slice && p < k ==> Get(tmp[..], At(r, k, p)) == Get(old(tmp[..]), At(r, k, p))
    {
      ghost var x0, s0 := xq[..], sx[..];
      QuantColumn(z, b, ldb, k, span, first + c, tmp, slice, xq, sx);
      forall col: nat | col < span && col != first + c
        ensures QuantizedAt(z, b, ldb, k, x0, s0, col) ==> QuantizedAt(z, b, ldb, k, xq[..], sx[..], col)
        ensures SameColumn(k, old(xq[..]), old(sx[..]), x0, s0, col) ==>
          SameColumn(k, old(xq[..]), old(sx[..]), xq[..], sx[..], col)
      {
        SameStaysQuantized(z, b, ldb, k, x0, s0, xq[..], sx[..], col);
        SameTrans(k, old(xq[..]), old(sx[..]), x0, s0, xq[..], sx[..], col);
      }
    }
  }

  lemma SameColumns(k: nat, x: seq<int>, s: seq<real>)
    ensures forall col: nat :: SameColumn(k, x, s, x, s, col)
  {
  }

  lemma SameStaysQuantized(
    z: Quantizer, b: seq<real>, ldb: nat, k: nat, x0: seq<int>, s0: seq<real>, x1: seq<int>, s1: seq<real>, col: nat)
    requires SameColumn(k, x0, s0, x1, s1, col)
    ensures QuantizedAt(z, b, ldb, k, x0, s0, col) ==> QuantizedAt(z, b, ldb, k, x1, s1, col)
  {
  }

  lemma SameTrans(
    k: nat, x: seq<int>, s: seq<real>, x0: seq<int>, s0: seq<real>, x1: seq<int>, s1: seq<real>, col: nat)
    requires SameColumn(k, x0, s0, x1, s1, col)
    ensures SameColumn(k, x, s, x0, s0, col) ==> SameColumn(k, x, s, x1, s1, col)
  {
  }

  /** Columns for each quantization task. */
  function QuantColumns(threads: nat, span: nat, k: nat): nat {
    var tasks :=
      if threads > 1 && span * k >= QUANT_MIN_WORK then
        var t := if threads > QUANT_TASKS_MAX then QUANT_TASKS_MAX else threads;
        if t > span then span else t
      else 1;
    if tasks == 0 || Ceiling(span, tasks) == 0 then 1 else Ceiling(span, tasks)
  }

  /** There are never more tasks than slices of the gather buffer, so no two that run at once
      share one. */
  lemma SlicesAreOwn(threads: nat, span: nat, k: nat, s: nat, t: nat)
    requires span > 0
    requires s < Ceiling(span, QuantColumns(threads, span, k)) && t < Ceiling(span, QuantColumns(threads, span, k))
    ensures s % QUANT_TASKS_MAX == t % QUANT_TASKS_MAX <==> s == t
  {
    hide Ceiling, QuantColumns;
    FewTasks(threads, span, k);
  }

  lemma FewTasks(threads: nat, span: nat, k: nat)
    requires span > 0
    ensures QuantColumns(threads, span, k) > 0
    ensures 0 < Ceiling(span, QuantColumns(threads, span, k)) <= QUANT_TASKS_MAX
  {
    var large := threads > 1 && span * k >= QUANT_MIN_WORK;
    var t := if threads > QUANT_TASKS_MAX then QUANT_TASKS_MAX else threads;
    var tasks := if large then (if t > span then span else t) else 1;
    hide Ceiling;
    NoMoreTasks(span, tasks);
  }

  /** Column `col` belongs to one of the first `upTo` tasks run. */
  ghost predicate ColumnDone(order: seq<nat>, upTo: nat, cols: nat, span: nat, col: nat)
    requires upTo <= |order|
  {
    exists q: nat :: q < upTo && Has(order[q], cols, span, col)
  }

  /** Every column of the span is quantized, each by one task. */
  method QuantizeAll(
    z: Quantizer, b: seq<real>, ldb: nat, k: nat, span: nat, cols: nat, order: seq<nat>, xq: array<int>, sx: array<real>)
    requires KeepsLength(z) && WindowHolds(b, ldb, k, span) && cols > 0
    requires xq.Length == span * k && sx.Length == span && EachOnce(order, Ceiling(span, cols))
    modifies xq, sx
    ensures forall col: nat :: col < span ==> QuantizedAt(z, b, ldb, k, xq[..], sx[..], col)
  {
    hide At, KeepsLength, WindowHolds, QuantizedAt, SameColumn, EachOnce, Ceiling;
    var tmp := new real[QUANT_TASKS_MAX * k](_ => 0.0);
    for q := 0 to |order|
      invariant forall col: nat :: col < span && ColumnDone(order, q, cols, span, col) ==>
        QuantizedAt(z, b, ldb, k, xq[..], sx[..], col)
    {
      ghost var x0, s0 := xq[..], sx[..];
      QuantTask(z, b, ldb, k, span, cols, order[q], tmp, xq, sx);
      forall col: nat | col < span && ColumnDone(order, q + 1, cols, span, col)
        ensures QuantizedAt(z, b, ldb, k, xq[..], sx[..], col)
      {
        if !Has(order[q], cols, span, col) {
          assert ColumnDone(order, q, cols, span, col);
          SameStaysQuantized(z, b, ldb, k, x0, s0, xq[..], sx[..], col);
        }
      }
    }
    forall col: nat | col < span
      ensures ColumnDone(order, |order|, cols, span, col)
    {
      EveryColumnDone(order, cols, span, col);
    }
  }

  lemma EveryColumnDone(order: seq<nat>, cols: nat, span: nat, col: nat)
    requires cols > 0 && col < span && EachOnce(order, Ceiling(span, cols))
    ensures ColumnDone(order, |order|, cols, span, col)
  {
    TasksPartition(span, cols, col);
    assert col / cols in order;
    var q :| 0 <= q < |order| && order[q] == col / cols;
  }
}
