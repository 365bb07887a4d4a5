/** The symbol sequence that all market data streams share, cut into slices of a fixed size.
    `core::Symbols` is a library: what is modelled is an append-only sequence, its slice count and
    the part of one slice that starts at a given global index. */
module Symbols {
  import opened Common

  datatype Symbol = Symbol(text: string)

  /** Where slice `i` begins in a sequence of `len` symbols. */
  function Begin(len: nat, max: nat, i: nat): (at: nat)
    ensures at <= len
  {
    if i == 0 then 0 else Min(Begin(len, max, i - 1) + max, len)
  }

  /** Slice `i`, without the symbols before the global index `from`. */
  function Slice(symbols: seq<Symbol>, max: nat, i: nat, from: nat): seq<Symbol>
    requires from <= |symbols|
  {
    var lo := Max(Begin(|symbols|, max, i), from);
    symbols[lo..Max(lo, Begin(|symbols|, max, i + 1))]
  }

  /** How many slices it takes. */
  function Count(len: nat, max: nat): nat
    requires max > 0
  {
    if len == 0 then 0 else 1 + Count(Max(len - max, 0), max)
  }

  /** Slice `i` begins at the i-th multiple of the slice size ... */
  lemma {:induction false} BeginIsMultiple(len: nat, max: nat, i: nat)
    ensures Begin(len, max, i) == Min(i * max, len)
  {
    if i > 0 {
      BeginIsMultiple(len, max, i - 1);
      assert i * max == (i - 1) * max + max;
    }
  }

  /** ... and there are as many slices as the size fits into the length, rounded up. */
  lemma {:induction false} CountIsCeiling(len: nat, max: nat)
    requires max > 0
    ensures len <= Count(len, max) * max < len + max
  {
    if len > 0 {
      CountIsCeiling(Max(len - max, 0), max);
      var c := Count(Max(len - max, 0), max);
      assert (c + 1) * max == c * max + max;
      if len <= max {
        assert c == 0;
      }
    }
  }

  lemma {:induction false} CountGrows(len: nat, len': nat, max: nat)
    requires max > 0 && len <= len'
    ensures Count(len, max) <= Count(len', max)
  {
    if len > 0 {
      CountGrows(Max(len - max, 0), Max(len' - max, 0), max);
    }
  }

  /** The first `k` slices, joined. */
  function Joined(symbols: seq<Symbol>, max: nat, k: nat): seq<Symbol>
    requires max > 0
  {
    if k == 0 then [] else Joined(symbols, max, k - 1) + Slice(symbols, max, k - 1, 0)
  }

  lemma {:induction false} JoinedIsPrefix(symbols: seq<Symbol>, max: nat, k: nat)
    requires max > 0
    ensures Joined(symbols, max, k) == symbols[..Begin(|symbols|, max, k)]
  {
    if k > 0 {
      JoinedIsPrefix(symbols, max, k - 1);
    }
  }

  /** The slices lose no symbol, repeat none and keep the order, and none is longer than allowed. */
  lemma SlicesPartition(symbols: seq<Symbol>, max: nat)
    requires max > 0
    ensures Joined(symbols, max, Count(|symbols|, max)) == symbols
    ensures forall i: nat :: |Slice(symbols, max, i, 0)| <= max
  {
    CountIsCeiling(|symbols|, max);
    BeginIsMultiple(|symbols|, max, Count(|symbols|, max));
    JoinedIsPrefix(symbols, max, Count(|symbols|, max));
  }

  /** A slice grows exactly by its part of the appended symbols. */
  lemma SliceGrows(symbols: seq<Symbol>, batch: seq<Symbol>, max: nat, i: nat)
    ensures Slice(symbols + batch, max, i, 0) == Slice(symbols, max, i, 0) + Slice(symbols + batch, max, i, |symbols|)
  {
    BeginAgrees(|symbols|, |symbols + batch|, max, i);
    BeginAgrees(|symbols|, |symbols + batch|, max, i + 1);
  }

  lemma {:induction false} BeginAgrees(len: nat, len': nat, max: nat, i: nat)
    requires len <= len'
    ensures Begin(len, max, i) == Min(Begin(len', max, i), len)
  {
    if i > 0 {
      BeginAgrees(len, len', max, i - 1);
    }
  }

  lemma NothingFromTheEnd(symbols: seq<Symbol>, max: nat, i: nat)
    ensures Slice(symbols, max, i, |symbols|) == []
  {
  }

  // ----- de-duplication

  /** The names among the first `n` that have not been seen, each once, in order. */
  function FreshUpTo(names: seq<Symbol>, n: nat, all: set<Symbol>): seq<Symbol>
    requires n <= |names|
  {
    if n == 0 then []
    else
      var before := FreshUpTo(names, n - 1, all);
      if names[n - 1] in all || names[n - 1] in before then before else before + [names[n - 1]]
  }

  function Fresh(names: seq<Symbol>, all: set<Symbol>): seq<Symbol> {
    FreshUpTo(names, |names|, all)
  }

  function Elements(names: seq<Symbol>): set<Symbol> {
    set x | x in names
  }

  ghost predicate Distinct(names: seq<Symbol>) {
    forall i, j :: 0 <= i < j < |names| ==> names[i] != names[j]
  }

  lemma DistinctConcat(a: seq<Symbol>, b: seq<Symbol>)
    requires Distinct(a) && Distinct(b) && Elements(a) !! Elements(b)
    ensures Distinct(a + b) && Elements(a + b) == Elements(a) + Elements(b)
  {
    assert forall i :: 0 <= i < |a| ==> a[i] in Elements(a);
    assert forall i :: 0 <= i < |b| ==> b[i] in Elements(b);
  }

  lemma NoElements(names: seq<Symbol>)
    ensures Elements(names) == {} ==> names == []
  {
    if names != [] {
      assert names[0] in Elements(names);
    }
  }

  lemma {:induction false} FreshUpToIsNew(names: seq<Symbol>, n: nat, all: set<Symbol>)
    requires n <= |names|
    ensures Distinct(FreshUpTo(names, n, all))
    ensures Elements(FreshUpTo(names, n, all)) == Elements(names[..n]) - all
  {
    if n > 0 {
      FreshUpToIsNew(names, n - 1, all);
      assert names[..n] == names[..n - 1] + [names[n - 1]];
      var before, after := FreshUpTo(names, n - 1, all), FreshUpTo(names, n, all);
      assert forall x :: x in before <==> x in Elements(before);
      if |after| > |before| {
        assert Elements(after) == Elements(before) + {names[n - 1]};
      }
    }
  }

  /** The fresh names are exactly the unseen ones, and none appears twice. */
  lemma FreshIsNew(names: seq<Symbol>, all: set<Symbol>)
    ensures Distinct(Fresh(names, all))
    ensures Elements(Fresh(names, all)) == Elements(names) - all
  {
    FreshUpToIsNew(names, |names|, all);
    assert names[..|names|] == names;
  }

  lemma {:induction false} FreshUpToPrefix(names: seq<Symbol>, x: Symbol, n: nat, all: set<Symbol>)
    requires n <= |names|
    ensures FreshUpTo(names + [x], n, all) == FreshUpTo(names, n, all)
  {
    if n > 0 {
      FreshUpToPrefix(names, x, n - 1, all);
    }
  }

  /** How one more name changes the fresh names. */
  lemma FreshSnoc(names: seq<Symbol>, x: Symbol, all: set<Symbol>)
    ensures Fresh(names + [x], all)
      == if x in all || x in Fresh(names, all) then Fresh(names, all) else Fresh(names, all) + [x]
  {
    FreshUpToPrefix(names, x, |names|, all);
  }
}
