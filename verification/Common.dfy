/** Small definitions that several of the models share. */
module Common {

  datatype Option<+T> = None | Some(value: T)

  function Min(a: int, b: int): int { if a < b then a else b }

  function One(b: bool): nat { if b then 1 else 0 }

  predicate NoRepeats<T(==)>(list: seq<T>) { forall a: nat, b: nat :: a < b < |list| ==> list[a] != list[b] }

  /** A list without repeats contains each of its elements once. */
  lemma {:induction false} CountOnce<T>(list: seq<T>, x: T)
    requires NoRepeats(list)
    ensures multiset(list)[x] == One(x in list)
  {
    if list != [] {
      var rest := list[1..];
      assert list == [list[0]] + rest;
      forall a: nat, b: nat | a < b < |rest| ensures rest[a] != rest[b] { assert list[a + 1] != list[b + 1]; }
      CountOnce(rest, x);
      assert forall a: nat :: a < |rest| ==> rest[a] == list[a + 1];
    }
  }
}
