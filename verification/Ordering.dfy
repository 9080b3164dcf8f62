/** Byte-wise string order and stable sorting by a string key. */
module Ordering {
  import opened Results

  predicate Less(a: string, b: string) {
    if b == "" then false
    else if a == "" then true
    else if a[0] != b[0] then a[0] < b[0]
    else Less(a[1..], b[1..])
  }

  lemma {:induction false} LessIrreflexive(a: string)
    ensures !Less(a, a)
  {
    if a != "" {
      LessIrreflexive(a[1..]);
    }
  }

  lemma {:induction false} LessTransitive(a: string, b: string, c: string)
    requires Less(a, b) && Less(b, c)
    ensures Less(a, c)
  {
    if a != "" && a[0] == b[0] == c[0] {
      LessTransitive(a[1..], b[1..], c[1..]);
    }
  }

  lemma {:induction false} LessTotal(a: string, b: string)
    ensures Less(a, b) || Less(b, a) || a == b
  {
    if a != "" && b != "" && a[0] == b[0] {
      LessTotal(a[1..], b[1..]);
      assert a == [a[0]] + a[1..] && b == [b[0]] + b[1..];
    }
  }

  // ---- stable sort --------------------------------------------------------

  /** Puts x before the first element whose key is not smaller. */
  function Insert<T>(x: T, s: seq<T>, key: T -> string): seq<T> {
    if s == [] || !Less(key(s[0]), key(x)) then [x] + s
    else [s[0]] + Insert(x, s[1..], key)
  }

  function SortStable<T>(s: seq<T>, key: T -> string): seq<T> {
    if s == [] then [] else Insert(s[0], SortStable(s[1..], key), key)
  }

  /** The first element with the given key. */
  function Lookup<T>(s: seq<T>, key: T -> string, k: string): Option<T> {
    if s == [] then None
    else if key(s[0]) == k then Some(s[0])
    else Lookup(s[1..], key, k)
  }

  predicate Ascending<T>(s: seq<T>, key: T -> string) {
    forall i, j | 0 <= i < j < |s| :: !Less(key(s[j]), key(s[i]))
  }

  lemma {:induction false} InsertAscending<T>(x: T, s: seq<T>, key: T -> string)
    requires Ascending(s, key)
    ensures Ascending(Insert(x, s, key), key)
    ensures multiset(Insert(x, s, key)) == multiset([x]) + multiset(s)
  {
    if s == [] || !Less(key(s[0]), key(x)) {
      forall j | 0 <= j < |s| ensures !Less(key(s[j]), key(x)) {
        if Less(key(s[j]), key(x)) {
          LessTotal(key(s[0]), key(s[j]));
          if Less(key(s[0]), key(s[j])) { LessTransitive(key(s[0]), key(s[j]), key(x)); }
        }
      }
    } else {
      var rest := Insert(x, s[1..], key);
      InsertAscending(x, s[1..], key);
      assert s == [s[0]] + s[1..];
      forall y | y in rest ensures !Less(key(y), key(s[0])) {
        assert y in multiset(rest);
        if y == x {
          if Less(key(x), key(s[0])) {
            LessTransitive(key(x), key(s[0]), key(x));
            LessIrreflexive(key(x));
          }
        } else {
          assert y in s[1..];
        }
      }
    }
  }

  lemma {:induction false} SortStableCorrect<T>(s: seq<T>, key: T -> string)
    ensures Ascending(SortStable(s, key), key)
    ensures multiset(SortStable(s, key)) == multiset(s)
    ensures |SortStable(s, key)| == |s|
  {
    if s != [] {
      SortStableCorrect(s[1..], key);
      InsertAscending(s[0], SortStable(s[1..], key), key);
      assert s == [s[0]] + s[1..];
    }
    assert |multiset(SortStable(s, key))| == |SortStable(s, key)|;
  }

  lemma {:induction false} LookupInsert<T>(x: T, s: seq<T>, key: T -> string, k: string)
    ensures Lookup(Insert(x, s, key), key, k) == if key(x) == k then Some(x) else Lookup(s, key, k)
  {
    if s == [] || !Less(key(s[0]), key(x)) {
      assert ([x] + s)[1..] == s;
    } else {
      LessIrreflexive(key(x));
      LookupInsert(x, s[1..], key, k);
      assert ([s[0]] + Insert(x, s[1..], key))[1..] == Insert(x, s[1..], key);
    }
  }

  /** Stability: the first element with any given key is the same before and after. */
  lemma {:induction false} LookupSort<T>(s: seq<T>, key: T -> string, k: string)
    ensures Lookup(SortStable(s, key), key, k) == Lookup(s, key, k)
  {
    if s != [] {
      LookupSort(s[1..], key, k);
      LookupInsert(s[0], SortStable(s[1..], key), key, k);
    }
  }

  // ---- canonical lists of names -------------------------------------------

  predicate StrictlyAscending(s: seq<string>) {
    forall i, j | 0 <= i < j < |s| :: Less(s[i], s[j])
  }

  /** A set of strings has exactly one strictly ascending listing. */
  lemma {:induction false} CanonicalListing(a: seq<string>, b: seq<string>)
    requires StrictlyAscending(a) && StrictlyAscending(b)
    requires forall x :: x in a <==> x in b
    ensures a == b
  {
    assert a != [] ==> a[0] in a;
    assert b != [] ==> b[0] in b;
    if a != [] && b != [] {
      if a[0] != b[0] {
        LessTransitive(a[0], b[0], a[0]);
        LessIrreflexive(a[0]);
      }
      assert forall x :: x in a[1..] <==> x in b[1..] by {
        forall x ensures x in a[1..] <==> x in b[1..] {
          LessIrreflexive(a[0]);
          assert x in a <==> x == a[0] || x in a[1..];
          assert x in b <==> x == b[0] || x in b[1..];
        }
      }
      CanonicalListing(a[1..], b[1..]);
      assert a == [a[0]] + a[1..] && b == [b[0]] + b[1..];
    }
  }

  lemma StrictFromDistinct(s: seq<string>)
    requires forall i, j | 0 <= i < j < |s| :: !Less(s[j], s[i])
    requires forall i, j | 0 <= i < j < |s| :: s[i] != s[j]
    ensures StrictlyAscending(s)
  {
    forall i, j | 0 <= i < j < |s| ensures Less(s[i], s[j]) {
      LessTotal(s[i], s[j]);
    }
  }
}
