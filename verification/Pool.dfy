/** The thread pool: every index of a parallel loop runs once, in an order nobody chooses. */
module Pool {

  ghost predicate EachOnce(order: seq<nat>, n: nat) {
    && (forall i :: 0 <= i < |order| ==> order[i] < n)
    && (forall o: nat :: o < n ==> o in order)
    && (forall i, j :: 0 <= i < j < |order| ==> order[i] != order[j])
  }

  /** Tasks of `per` items each over `total` items. */
  function Ceiling(total: nat, per: nat): nat
    requires per > 0
  {
    (total + per - 1) / per
  }

  /** Task `t` has the items from `t * per` to the next task's, or to the end. */
  predicate Has(t: nat, per: nat, total: nat, item: nat) {
    item < total && t * per <= item < t * per + per
  }

  /** Every item is some task's, and only one's. */
  lemma TasksPartition(total: nat, per: nat, item: nat)
    requires per > 0 && item < total
    ensures item / per < Ceiling(total, per) && Has(item / per, per, total, item)
    ensures forall t: nat :: Has(t, per, total, item) ==> t == item / per
  {
    var q := item / per;
    assert item == q * per + item % per;
    CeilingAbove(total, per, q);
    forall t: nat | Has(t, per, total, item)
      ensures t == q
    {
      Between(t, per, item);
    }
  }

  lemma Between(t: nat, per: nat, item: nat)
    requires per > 0 && t * per <= item < t * per + per
    ensures t == item / per
  {
    var q := item / per;
    assert q * per <= item < q * per + per;
    Apart(t, q, per);
    Apart(q, t, per);
  }

  lemma {:induction false} Apart(a: nat, b: nat, per: nat)
    ensures a < b ==> a * per + per <= b * per
    decreases b
  {
    if a < b {
      Apart(a, b - 1, per);
      assert b * per == (b - 1) * per + per;
    }
  }

  lemma CeilingAbove(total: nat, per: nat, q: nat)
    requires per > 0 && q * per < total
    ensures q < Ceiling(total, per)
  {
    var c := Ceiling(total, per);
    assert total + per - 1 == c * per + (total + per - 1) % per;
    assert (q + 1) * per == q * per + per;
    Apart(c, q + 1, per);
  }

  /** Every task has something to do. */
  lemma TaskStarts(total: nat, per: nat, t: nat)
    requires per > 0 && t < Ceiling(total, per)
    ensures t * per < total
  {
    var c := Ceiling(total, per);
    assert c * per <= total + per - 1;
    Apart(t, c, per);
  }

  /** Splitting into `tasks` parts rounds up the size of a part, and never needs more parts. */
  lemma NoMoreTasks(total: nat, tasks: nat)
    requires 0 < tasks && 0 < total
    ensures 0 < Ceiling(total, tasks)
    ensures 0 < Ceiling(total, Ceiling(total, tasks)) <= tasks
  {
    var per := Ceiling(total, tasks);
    assert total + tasks - 1 == per * tasks + (total + tasks - 1) % tasks;
    assert per * tasks >= total;
    CeilingAbove(total, tasks, 0);
    CeilingAbove(total, per, 0);
    var c := Ceiling(total, per);
    TaskStarts(total, per, c - 1);
    assert (tasks - 1) * per + per == tasks * per;
    Apart(tasks - 1, c - 1, per);
  }
}
