/** What several of the components need. */
module Common {
  datatype Option<+T> = None | Some(value: T)

  datatype Side = Buy | Sell

  function Min(a: int, b: int): int {
    if a < b then a else b
  }

  function Max(a: int, b: int): int {
    if a < b then b else a
  }

  function Abs(n: int): nat {
    if n < 0 then -n else n
  }

  lemma ConcatAssociates<T>(a: seq<T>, b: seq<T>, c: seq<T>)
    ensures (a + b) + c == a + (b + c)
  {
  }
}
