/** The sorted views of the tables (`Array.prototype.sort` with a
    comparator) modelled on values: an insertion sort over any total
    preorder, and the one comparator shape every view uses, "compare one
    key ascending or descending". */
module Sorting {
  import opened Text

  ghost predicate IsTotalPreorder<T(!new)>(le: (T, T) -> bool) {
    && (forall a, b :: le(a, b) || le(b, a))
    && (forall a, b, c :: le(a, b) && le(b, c) ==> le(a, c))
  }

  predicate SortedBy<T>(le: (T, T) -> bool, s: seq<T>) {
    forall i, j :: 0 <= i < j < |s| ==> le(s[i], s[j])
  }

  /** Puts `x` in front of the first element it does not exceed. */
  function Insert<T(!new)>(le: (T, T) -> bool, x: T, s: seq<T>): (r: seq<T>)
    requires IsTotalPreorder(le)
    requires SortedBy(le, s)
    ensures multiset(r) == multiset(s) + multiset{x}
    ensures |r| == |s| + 1
    ensures SortedBy(le, r)
  {
    if s == [] then [x]
    else if le(x, s[0]) then [x] + s
    else
      var rest := Insert(le, x, s[1..]);
      assert s == [s[0]] + s[1..];
      assert forall k :: 0 <= k < |rest| ==> le(s[0], rest[k]) by {
        forall k | 0 <= k < |rest|
          ensures le(s[0], rest[k])
        {
          assert rest[k] in multiset(rest);
          if rest[k] != x {
            assert rest[k] in multiset(s[1..]);
            var m :| 0 <= m < |s[1..]| && s[1..][m] == rest[k];
            assert s[1 + m] == rest[k];
          }
        }
      }
      [s[0]] + rest
  }

  /** Insertion sort: a sorted permutation of `s`. */
  function SortBy<T(!new)>(le: (T, T) -> bool, s: seq<T>): (r: seq<T>)
    requires IsTotalPreorder(le)
    ensures multiset(r) == multiset(s)
    ensures |r| == |s|
    ensures SortedBy(le, r)
  {
    if s == [] then []
    else
      assert s == [s[0]] + s[1..];
      Insert(le, s[0], SortBy(le, s[1..]))
  }

  /** A sort key: the string or the number a comparator looks at. Values of
      one column always have the same kind; numbers order before strings so
      that the order stays total across kinds. */
  datatype SortKey = Str(s: string) | Num(n: real)

  predicate KeyLe(a: SortKey, b: SortKey) {
    match (a, b)
    case (Num(x), Num(y)) => x <= y
    case (Str(x), Str(y)) => StrLe(x, y)
    case (Num(_), Str(_)) => true
    case (Str(_), Num(_)) => false
  }

  /** The comparator `(a, b) => key(a) < key(b) ? -1 : key(a) > key(b) ? 1 : 0`,
      or its mirror image when `descending`. */
  function KeyOrder<T>(key: T -> SortKey, descending: bool): (T, T) -> bool {
    (a, b) => if descending then KeyLe(key(b), key(a)) else KeyLe(key(a), key(b))
  }

  lemma KeyLeTotal(a: SortKey, b: SortKey)
    ensures KeyLe(a, b) || KeyLe(b, a)
  {
    if a.Str? && b.Str? {
      StrLeTotal(a.s, b.s);
    }
  }

  lemma KeyLeTransitive(a: SortKey, b: SortKey, c: SortKey)
    requires KeyLe(a, b) && KeyLe(b, c)
    ensures KeyLe(a, c)
  {
    if a.Str? && b.Str? && c.Str? {
      StrLeTransitive(a.s, b.s, c.s);
    }
  }

  /** Every key comparator, either way round, is a total preorder, so
      `SortBy` may use it. */
  lemma KeyOrderIsTotalPreorder<T(!new)>(key: T -> SortKey, descending: bool)
    ensures IsTotalPreorder(KeyOrder(key, descending))
  {
    var le := KeyOrder(key, descending);
    forall a, b
      ensures le(a, b) || le(b, a)
    {
      KeyLeTotal(key(a), key(b));
    }
    forall a, b, c | le(a, b) && le(b, c)
      ensures le(a, c)
    {
      if descending {
        KeyLeTransitive(key(c), key(b), key(a));
      } else {
        KeyLeTransitive(key(a), key(b), key(c));
      }
    }
  }

  /** The rows of `s` ordered by `key`, ascending or descending. */
  function SortByKey<T(!new)>(s: seq<T>, key: T -> SortKey, descending: bool): (r: seq<T>)
    ensures multiset(r) == multiset(s)
    ensures forall i, j :: 0 <= i < j < |r| ==>
      if descending then KeyLe(key(r[j]), key(r[i])) else KeyLe(key(r[i]), key(r[j]))
  {
    KeyOrderIsTotalPreorder(key, descending);
    var r := SortBy(KeyOrder(key, descending), s);
    assert SortedBy(KeyOrder(key, descending), r);
    r
  }
}
