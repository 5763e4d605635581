/** Lists that are kept newest first, read oldest first. */
module Sequences {
  function Reverse<T>(list: seq<T>): (r: seq<T>)
    ensures |r| == |list|
  {
    if list == [] then [] else Reverse(list[1..]) + [list[0]]
  }

  /** What is pushed in front comes out last. */
  lemma ReverseCons<T>(list: seq<T>, x: T)
    ensures Reverse([x] + list) == Reverse(list) + [x]
  {
    assert ([x] + list)[1..] == list;
  }

  /** The last element comes out first. */
  lemma {:induction false} ReverseLast<T>(list: seq<T>)
    requires list != []
    ensures Reverse(list) == [list[|list| - 1]] + Reverse(list[..|list| - 1])
  {
    if |list| > 1 {
      ReverseLast(list[1..]);
      assert list[..|list| - 1][1..] == list[1..][..|list| - 2];
      assert list[..|list| - 1][0] == list[0];
    }
  }

  lemma {:induction false} ReverseHas<T>(list: seq<T>, x: T)
    ensures x in Reverse(list) <==> x in list
  {
    if list != [] {
      ReverseHas(list[1..], x);
      assert list == [list[0]] + list[1..];
    }
  }

  lemma {:induction false} ReverseKeeps<T>(list: seq<T>)
    ensures multiset(Reverse(list)) == multiset(list)
  {
    if list != [] {
      ReverseKeeps(list[1..]);
      assert list == [list[0]] + list[1..];
    }
  }
}
