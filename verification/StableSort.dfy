/** A stable sort by time and then by sequence number, and why there is only one. */
module StableSort {

  datatype Key = Key(time: real, seqNo: nat) {
    predicate AtMost(other: Key)
    {
      time < other.time || (time == other.time && seqNo <= other.seqNo)
    }
  }

  function Insert<T>(x: T, xs: seq<T>, key: T -> Key): seq<T>
  {
    if xs == [] || key(x).AtMost(key(xs[0])) then [x] + xs else [xs[0]] + Insert(x, xs[1..], key)
  }

  function Sort<T>(xs: seq<T>, key: T -> Key): seq<T>
  {
    if xs == [] then [] else Insert(xs[0], Sort(xs[1..], key), key)
  }

  predicate Sorted<T>(xs: seq<T>, key: T -> Key)
  {
    forall i, j :: 0 <= i < j < |xs| ==> key(xs[i]).AtMost(key(xs[j]))
  }

  /** The elements that compare equal to `k`, in the order they come. */
  function Tied<T>(xs: seq<T>, key: T -> Key, k: Key): seq<T>
  {
    if xs == [] then []
    else if key(xs[0]) == k then [xs[0]] + Tied(xs[1..], key, k)
    else Tied(xs[1..], key, k)
  }

  lemma {:induction false} InsertPermutes<T>(x: T, xs: seq<T>, key: T -> Key)
    ensures multiset(Insert(x, xs, key)) == multiset{x} + multiset(xs)
  {
    if xs != [] && !key(x).AtMost(key(xs[0])) {
      InsertPermutes(x, xs[1..], key);
      assert xs == [xs[0]] + xs[1..];
    }
  }

  lemma {:induction false} InsertSorts<T>(x: T, xs: seq<T>, key: T -> Key)
    requires Sorted(xs, key)
    ensures Sorted(Insert(x, xs, key), key)
  {
    if xs != [] && !key(x).AtMost(key(xs[0])) {
      var rest := Insert(x, xs[1..], key);
      InsertSorts(x, xs[1..], key);
      forall j | 0 <= j < |rest| ensures key(xs[0]).AtMost(key(rest[j])) {
        InsertPermutes(x, xs[1..], key);
        assert rest[j] in multiset(rest);
      }
    }
  }

  lemma {:induction false} InsertIsStable<T>(x: T, xs: seq<T>, key: T -> Key, k: Key)
    ensures Tied(Insert(x, xs, key), key, k) == if key(x) == k then [x] + Tied(xs, key, k) else Tied(xs, key, k)
  {
    if xs == [] || key(x).AtMost(key(xs[0])) {
      assert ([x] + xs)[1..] == xs;
    } else {
      InsertIsStable(x, xs[1..], key, k);
      assert ([xs[0]] + Insert(x, xs[1..], key))[1..] == Insert(x, xs[1..], key);
    }
  }

  /** Sorting puts the same elements in order and leaves ties as they were. */
  lemma {:induction false} SortIsCorrect<T>(xs: seq<T>, key: T -> Key)
    ensures Sorted(Sort(xs, key), key)
    ensures multiset(Sort(xs, key)) == multiset(xs)
    ensures forall k :: Tied(Sort(xs, key), key, k) == Tied(xs, key, k)
  {
    if xs != [] {
      SortIsCorrect(xs[1..], key);
      InsertSorts(xs[0], Sort(xs[1..], key), key);
      InsertPermutes(xs[0], Sort(xs[1..], key), key);
      assert xs == [xs[0]] + xs[1..];
      forall k ensures Tied(Sort(xs, key), key, k) == Tied(xs, key, k) {
        InsertIsStable(xs[0], Sort(xs[1..], key), key, k);
      }
    }
  }

  lemma {:induction false} TiedFinds<T>(xs: seq<T>, key: T -> Key, k: Key)
    ensures Tied(xs, key, k) == [] <==> forall i :: 0 <= i < |xs| ==> key(xs[i]) != k
  {
    if xs != [] {
      TiedFinds(xs[1..], key, k);
      assert xs == [xs[0]] + xs[1..];
    }
  }

  /** Whatever algorithm sorts stably computes the same sequence. */
  lemma {:induction false} StableSortIsUnique<T>(a: seq<T>, b: seq<T>, key: T -> Key)
    requires Sorted(a, key) && Sorted(b, key)
    requires forall k :: Tied(a, key, k) == Tied(b, key, k)
    ensures a == b
  {
    if a == [] || b == [] {
      if a != [] { TiedFinds(a, key, key(a[0])); }
      if b != [] { TiedFinds(b, key, key(b[0])); }
    } else {
      HeadIsLeast(a, b, key);
      HeadIsLeast(b, a, key);
      assert key(a[0]) == key(b[0]);
      assert Tied(a, key, key(a[0]))[0] == a[0];
      forall k ensures Tied(a[1..], key, k) == Tied(b[1..], key, k) {
        assert Tied(a, key, k) == Tied(b, key, k);
        if key(a[0]) == k {
          assert Tied(a, key, k)[1..] == Tied(a[1..], key, k);
          assert Tied(b, key, k)[1..] == Tied(b[1..], key, k);
        }
      }
      StableSortIsUnique(a[1..], b[1..], key);
      assert a == [a[0]] + a[1..] && b == [b[0]] + b[1..];
    }
  }

  lemma HeadIsLeast<T>(a: seq<T>, b: seq<T>, key: T -> Key)
    requires a != [] && b != [] && Sorted(b, key)
    requires forall k :: Tied(a, key, k) == Tied(b, key, k)
    ensures key(b[0]).AtMost(key(a[0]))
  {
    TiedFinds(a, key, key(a[0]));
    TiedFinds(b, key, key(a[0]));
  }

  /** What is in order already stays as it is. */
  lemma SortedStays<T>(xs: seq<T>, key: T -> Key)
    requires Sorted(xs, key)
    ensures Sort(xs, key) == xs
  {
    SortIsCorrect(xs, key);
    StableSortIsUnique(Sort(xs, key), xs, key);
  }
}
