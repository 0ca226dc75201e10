/** Sort keys and the one sort of the model.

    Every ORDER BY clause and every sort.Slice comparator of the repository
    compares a few integers and then one or two identifiers.  Such a comparison
    is the lexicographic order on a flattened integer sequence, so one order and
    one sort serve the scheduler, the store's queries and the workflow checks.
 */
module Ordering {

  type Key = seq<int>

  /** The strict lexicographic order. */
  predicate Less(a: Key, b: Key) {
    |b| > 0 && (|a| == 0 || a[0] < b[0] || (a[0] == b[0] && Less(a[1..], b[1..])))
  }

  /** Identifiers compare character by character, as Go strings and SQLite's BINARY collation do. */
  function Text(s: string): (k: Key)
    ensures |k| == |s|
    ensures forall i :: 0 <= i < |s| ==> k[i] == s[i] as int
  {
    seq(|s|, i requires 0 <= i < |s| => s[i] as int)
  }

  lemma TextInjective(a: string, b: string)
    ensures Text(a) == Text(b) <==> a == b
  {
    if Text(a) == Text(b) {
      forall i | 0 <= i < |a| ensures a[i] == b[i] {
        assert Text(a)[i] == Text(b)[i];
      }
    }
  }

  lemma {:induction false} Trichotomy(a: Key, b: Key)
    ensures Less(a, b) <==> a != b && !Less(b, a)
  {
    if |a| > 0 && |b| > 0 && a[0] == b[0] {
      Trichotomy(a[1..], b[1..]);
      assert a == [a[0]] + a[1..] && b == [b[0]] + b[1..];
    }
  }

  lemma {:induction false} Transitive(a: Key, b: Key, c: Key)
    requires Less(a, b) && Less(b, c)
    ensures Less(a, c)
  {
    if |a| > 0 && a[0] == b[0] == c[0] {
      Transitive(a[1..], b[1..], c[1..]);
    }
  }

  // ------------------------------------------------------------------ sorting

  ghost predicate Ordered<T>(s: seq<T>, key: T -> Key) {
    forall i, j :: 0 <= i < j < |s| ==> !Less(key(s[j]), key(s[i]))
  }

  ghost predicate Injective<T>(s: seq<T>, key: T -> Key) {
    forall i, j :: 0 <= i < |s| && 0 <= j < |s| && key(s[i]) == key(s[j]) ==> s[i] == s[j]
  }

  /** Stable insertion: behind every element that is not greater. */
  function Insert<T>(x: T, s: seq<T>, key: T -> Key): (r: seq<T>)
    ensures multiset(r) == multiset(s) + multiset{x}
  {
    if s == [] then [x]
    else
      var last := s[|s| - 1];
      assert s == s[..|s| - 1] + [last];
      if Less(key(x), key(last)) then Insert(x, s[..|s| - 1], key) + [last] else s + [x]
  }

  function Sort<T>(s: seq<T>, key: T -> Key): (r: seq<T>)
    ensures multiset(r) == multiset(s)
  {
    if s == [] then []
    else
      assert s == s[..|s| - 1] + [s[|s| - 1]];
      Insert(s[|s| - 1], Sort(s[..|s| - 1], key), key)
  }

  lemma {:induction false} InsertOrders<T>(x: T, s: seq<T>, key: T -> Key)
    requires Ordered(s, key)
    ensures Ordered(Insert(x, s, key), key)
  {
    if s != [] {
      var init, last := s[..|s| - 1], s[|s| - 1];
      if Less(key(x), key(last)) {
        InsertOrders(x, init, key);
        var r := Insert(x, init, key);
        forall y | y in r ensures !Less(key(last), key(y)) {
          assert y in multiset(r);
          assert y in multiset(init) + multiset{x};
          if y != x {
            assert y in init;
            var i :| 0 <= i < |init| && init[i] == y;
            assert s[i] == y;
          } else {
            Trichotomy(key(x), key(last));
          }
        }
      } else {
        forall i | 0 <= i < |s| ensures !Less(key(x), key(s[i])) {
          if i < |s| - 1 && Less(key(x), key(s[i])) {
            Trichotomy(key(s[i]), key(last));
            if key(s[i]) != key(last) {
              Transitive(key(x), key(s[i]), key(last));
            }
          }
        }
      }
    }
  }

  lemma {:induction false} SortOrders<T>(s: seq<T>, key: T -> Key)
    ensures Ordered(Sort(s, key), key)
  {
    if s != [] {
      SortOrders(s[..|s| - 1], key);
      InsertOrders(s[|s| - 1], Sort(s[..|s| - 1], key), key);
    }
  }

  /** Sorting a sorted sequence changes nothing. */
  lemma {:induction false} SortFixed<T>(s: seq<T>, key: T -> Key)
    requires Ordered(s, key)
    ensures Sort(s, key) == s
  {
    if s != [] {
      var init := s[..|s| - 1];
      SortFixed(init, key);
      assert s == init + [s[|s| - 1]];
      if init != [] {
        assert init[|init| - 1] == s[|init| - 1];
      }
    }
  }

  lemma HeadIsLeast<T>(a: seq<T>, b: seq<T>, key: T -> Key)
    requires a != [] && Ordered(a, key) && Ordered(b, key)
    requires multiset(a) == multiset(b)
    ensures b != [] && key(a[0]) == key(b[0])
  {
    assert |multiset(a)| == |multiset(b)|;
    assert a[0] in multiset(b) && b[0] in multiset(a);
    var i :| 0 <= i < |b| && b[i] == a[0];
    var j :| 0 <= j < |a| && a[j] == b[0];
    Trichotomy(key(a[0]), key(b[0]));
  }

  /** Distinct keys leave a sort no freedom: any two sorted arrangements of the same
      elements coincide, whatever algorithm produced them. */
  lemma {:induction false} SortedUnique<T>(a: seq<T>, b: seq<T>, key: T -> Key)
    requires Ordered(a, key) && Ordered(b, key)
    requires multiset(a) == multiset(b)
    requires Injective(a, key)
    ensures a == b
  {
    hide Ordered, Injective;
    if a == [] {
      assert |multiset(b)| == 0;
    } else {
      HeadsMatch(a, b, key);
      SortedUnique(a[1..], b[1..], key);
      assert a == [a[0]] + a[1..] && b == [b[0]] + b[1..];
    }
  }

  lemma HeadsMatch<T>(a: seq<T>, b: seq<T>, key: T -> Key)
    requires a != [] && Ordered(a, key) && Ordered(b, key) && multiset(a) == multiset(b) && Injective(a, key)
    ensures b != [] && a[0] == b[0] && multiset(a[1..]) == multiset(b[1..])
    ensures Ordered(a[1..], key) && Ordered(b[1..], key) && Injective(a[1..], key)
  {
    hide Ordered, Injective;
    HeadIsLeast(a, b, key);
    SameHead(a, b, key);
    TailOf(a, key);
    TailOf(b, key);
  }

  lemma SameHead<T>(a: seq<T>, b: seq<T>, key: T -> Key)
    requires a != [] && b != [] && key(a[0]) == key(b[0])
    requires multiset(a) == multiset(b)
    requires Injective(a, key)
    ensures a[0] == b[0]
  {
    assert b[0] in multiset(a);
    var j :| 0 <= j < |a| && a[j] == b[0];
  }

  lemma TailOf<T>(a: seq<T>, key: T -> Key)
    requires a != []
    ensures multiset(a[1..]) == multiset(a) - multiset{a[0]}
    ensures Ordered(a, key) ==> Ordered(a[1..], key)
    ensures Injective(a, key) ==> Injective(a[1..], key)
  {
    assert a == [a[0]] + a[1..];
    assert forall i :: 0 <= i < |a| - 1 ==> a[1..][i] == a[i + 1];
  }

  /** Input order is immaterial when keys are distinct. */
  lemma SortPermuted<T>(a: seq<T>, b: seq<T>, key: T -> Key)
    requires multiset(a) == multiset(b)
    requires Injective(a, key)
    ensures Sort(a, key) == Sort(b, key)
  {
    SortOrders(a, key);
    SortOrders(b, key);
    InjectivePermuted(a, Sort(a, key), key);
    SortedUnique(Sort(a, key), Sort(b, key), key);
  }

  lemma InjectivePermuted<T>(a: seq<T>, b: seq<T>, key: T -> Key)
    requires multiset(a) == multiset(b)
    requires Injective(a, key)
    ensures Injective(b, key)
  {
    forall i, j | 0 <= i < |b| && 0 <= j < |b| && key(b[i]) == key(b[j])
      ensures b[i] == b[j]
    {
      assert b[i] in multiset(b) && b[j] in multiset(b);
      assert b[i] in multiset(a) && b[j] in multiset(a);
      var x :| 0 <= x < |a| && a[x] == b[i];
      var y :| 0 <= y < |a| && a[y] == b[j];
    }
  }

  /** The sort as code: insertion, one element after another. */
  method SortInto<T>(s: seq<T>, key: T -> Key) returns (r: seq<T>)
    ensures r == Sort(s, key)
    ensures Ordered(r, key) && multiset(r) == multiset(s)
  {
    r := [];
    for n := 0 to |s|
      invariant r == Sort(s[..n], key)
    {
      assert s[..n + 1][..n] == s[..n];
      r := Insert(s[n], r, key);
    }
    assert s[..|s|] == s;
    SortOrders(s, key);
  }

  // --------------------------------------------------------- result sets of queries

  /** The rows of a finite set in some order. */
  ghost function Listing<T(!new)>(s: set<T>): (r: seq<T>)
    ensures multiset(r) == multiset(s)
    ensures |r| == |s|
    decreases |s|
  {
    if s == {} then [] else
      var x :| x in s;
      var rest := s - {x};
      assert s == rest + {x};
      [x] + Listing(rest)
  }

  /** The answer to SELECT ... ORDER BY: the matching rows by ascending key. */
  ghost function Query<T(!new)>(s: set<T>, key: T -> Key): (r: seq<T>)
    ensures multiset(r) == multiset(s)
    ensures |r| == |s|
    ensures forall x :: x in r <==> x in s
    ensures forall i, j :: 0 <= i < j < |r| ==> r[i] != r[j]
  {
    var l := Listing(s);
    var r := Sort(l, key);
    assert |multiset(r)| == |multiset(s)|;
    assert forall x :: x in r <==> x in multiset(r);
    Distinct(r, s);
    r
  }

  lemma Distinct<T>(r: seq<T>, s: set<T>)
    requires multiset(r) == multiset(s)
    ensures forall i, j :: 0 <= i < j < |r| ==> r[i] != r[j]
  {
    forall i, j | 0 <= i < j < |r| ensures r[i] != r[j] {
      assert r == r[..j] + [r[j]] + r[j + 1..];
      assert multiset(r)[r[j]] >= multiset(r[..j])[r[j]] + 1;
      assert multiset(s)[r[j]] <= 1;
      assert r[j] !in r[..j];
      assert r[..j][i] == r[i];
    }
  }

  /** LIMIT. */
  function Take<T>(s: seq<T>, limit: int): (r: seq<T>)
    ensures r <= s
    ensures |r| == if limit < 0 then 0 else if limit < |s| then limit else |s|
  {
    if limit < 0 then [] else if limit < |s| then s[..limit] else s
  }

  /** The rows of a set as they come, in no particular order. */
  method Scan<T(==)>(s: set<T>) returns (rows: seq<T>)
    ensures multiset(rows) == multiset(s)
  {
    var rest := s;
    rows := [];
    while rest != {}
      invariant rest <= s
      invariant multiset(rows) == multiset(s - rest)
      decreases |rest|
    {
      var x :| x in rest;
      assert s - (rest - {x}) == (s - rest) + {x};
      rest := rest - {x};
      rows := rows + [x];
    }
    assert s - rest == s;
  }

  /** Running a query: the rows arrive in an arbitrary order and are sorted. */
  method RunQuery<T(==,!new)>(s: set<T>, key: T -> Key) returns (r: seq<T>)
    requires forall x, y :: x in s && y in s && key(x) == key(y) ==> x == y
    ensures r == Query(s, key)
  {
    var rows := Scan(s);
    r := SortInto(rows, key);
    assert Injective(rows, key) by {
      forall i | 0 <= i < |rows| ensures rows[i] in s {
        assert rows[i] in multiset(rows);
      }
    }
    SortPermuted(rows, Listing(s), key);
  }
}
