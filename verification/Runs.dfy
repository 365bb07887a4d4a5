/** Maximal runs of neighbours with an equal key: the specification of the group-and-flush loops. */
module Runs {
  /** A list of runs that grows at the end. */
  datatype Runs<T> = Empty | Snoc(front: Runs<T>, last: seq<T>)

  ghost function Flatten<T>(runs: Runs<T>): seq<T> {
    match runs
    case Empty => []
    case Snoc(front, last) => Flatten(front) + last
  }

  ghost predicate Uniform<T, K>(key: T -> K, run: seq<T>) {
    run != [] && forall j :: 0 <= j < |run| ==> key(run[j]) == key(run[0])
  }

  /** The runs are non-empty, each has one key, and neighbouring runs have different keys. */
  ghost predicate Maximal<T, K>(key: T -> K, runs: Runs<T>) {
    match runs
    case Empty => true
    case Snoc(front, last) =>
      && Maximal(key, front)
      && Uniform(key, last)
      && (front.Snoc? ==> key(front.last[0]) != key(last[0]))
  }

  /** One more item either extends the last run or starts a new one. */
  ghost function Extend<T, K>(key: T -> K, runs: Runs<T>, item: T): Runs<T> {
    if runs.Snoc? && runs.last != [] && key(runs.last[0]) == key(item) then
      Snoc(runs.front, runs.last + [item])
    else
      Snoc(runs, [item])
  }

  /** The runs of the first `n` items. */
  ghost function RunsUpTo<T, K>(key: T -> K, items: seq<T>, n: nat): Runs<T>
    requires n <= |items|
  {
    if n == 0 then Empty else Extend(key, RunsUpTo(key, items, n - 1), items[n - 1])
  }

  ghost function RunsOf<T, K>(key: T -> K, items: seq<T>): Runs<T> {
    RunsUpTo(key, items, |items|)
  }

  lemma {:induction false} RunsUpToArePartition<T, K>(key: T -> K, items: seq<T>, n: nat)
    requires n <= |items|
    ensures Flatten(RunsUpTo(key, items, n)) == items[..n]
    ensures Maximal(key, RunsUpTo(key, items, n))
  {
    if n > 0 {
      RunsUpToArePartition(key, items, n - 1);
      assert items[..n] == items[..n - 1] + [items[n - 1]];
    }
  }

  /** `RunsOf` cuts the items into maximal runs: joined they are the items again ... */
  lemma RunsOfIsPartition<T, K>(key: T -> K, items: seq<T>)
    ensures Flatten(RunsOf(key, items)) == items && Maximal(key, RunsOf(key, items))
  {
    RunsUpToArePartition(key, items, |items|);
    assert items[..|items|] == items;
  }

  /** ... and there is only one way to do that, so `RunsOf` is no more than a name for it. */
  lemma {:induction false} PartitionIsUnique<T, K>(key: T -> K, p: Runs<T>, q: Runs<T>)
    requires Flatten(p) == Flatten(q) && Maximal(key, p) && Maximal(key, q)
    ensures p == q
  {
    match (p, q)
    case (Snoc(pf, pl), Snoc(qf, ql)) =>
      LastRunIsNotShorter(key, p, q);
      LastRunIsNotShorter(key, q, p);
      var items := Flatten(p);
      assert Flatten(pf) == items[..|items| - |pl|] == Flatten(qf);
      assert pl == items[|items| - |pl|..] == ql;
      PartitionIsUnique(key, pf, qf);
    case _ =>
  }

  lemma LastRunIsNotShorter<T, K>(key: T -> K, p: Runs<T>, q: Runs<T>)
    requires Flatten(p) == Flatten(q) && Maximal(key, p) && Maximal(key, q)
    requires p.Snoc? && q.Snoc?
    ensures |p.last| >= |q.last|
  {
    LastRunIsUniform(key, q);
    if |p.last| < |Flatten(p)| {
      // the item just before the last run of `p` cannot lie inside the last run of `q`
      KeyChangesBeforeLastRun(key, p);
    }
  }

  lemma LastRunIsUniform<T, K>(key: T -> K, runs: Runs<T>)
    requires Maximal(key, runs) && runs.Snoc?
    ensures var items := Flatten(runs);
      forall at :: |items| - |runs.last| <= at < |items| ==> key(items[at]) == key(items[|items| - 1])
  {
    var items, last := Flatten(runs), runs.last;
    forall at | |items| - |last| <= at < |items|
      ensures key(items[at]) == key(last[0])
    {
      assert items[at] == last[at - (|items| - |last|)];
    }
  }

  lemma KeyChangesBeforeLastRun<T, K>(key: T -> K, runs: Runs<T>)
    requires Maximal(key, runs) && runs.Snoc? && |runs.last| < |Flatten(runs)|
    ensures var items := Flatten(runs); key(items[|items| - |runs.last| - 1]) != key(items[|items| - 1])
  {
    var items, front, last := Flatten(runs), runs.front, runs.last;
    assert items[|items| - |last| - 1] == front.last[|front.last| - 1];
    assert items[|items| - 1] == last[|last| - 1];
  }
}
