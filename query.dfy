// The query mechanics the services rely on (WHERE, ORDER BY, OFFSET/LIMIT,
// DISTINCT, and the Array methods filter/map), as functions on sequences.
module Query {
  import opened Common

  // ---------------------------------------------------------------- selection

  /** `r` keeps some elements of `s` in their original relative order. */
  predicate SubsequenceOf<T(==)>(r: seq<T>, s: seq<T>)
    decreases |s|
  {
    if r == [] then true
    else if s == [] then false
    else (r[0] == s[0] && SubsequenceOf(r[1..], s[1..])) || SubsequenceOf(r, s[1..])
  }

  /** WHERE / `Array.filter`: the elements of `s` that satisfy `p`. */
  function Where<T(==)>(s: seq<T>, p: T -> bool): (r: seq<T>)
    ensures forall i :: 0 <= i < |r| ==> r[i] in s && p(r[i])
    ensures forall i :: 0 <= i < |s| && p(s[i]) ==> s[i] in r
    ensures SubsequenceOf(r, s)
    ensures |r| <= |s|
  {
    if s == [] then []
    else if p(s[0]) then [s[0]] + Where(s[1..], p)
    else Where(s[1..], p)
  }

  /** `findOne` / `Array.find`: the first element of `s` that satisfies `p`, if any. */
  function FindFirst<T(==)>(s: seq<T>, p: T -> bool): (r: Option<T>)
    ensures r.Some? ==> exists k :: 0 <= k < |s| && s[k] == r.value && p(s[k]) && forall i :: 0 <= i < k ==> !p(s[i])
    ensures r.None? <==> forall i :: 0 <= i < |s| ==> !p(s[i])
  {
    if s == [] then None
    else if p(s[0]) then Some(s[0])
    else
      var r := FindFirst(s[1..], p);
      assert forall i :: 1 <= i < |s| ==> s[i] == s[1..][i - 1];
      if r.Some? then
        var k :| 0 <= k < |s[1..]| && s[1..][k] == r.value && p(s[1..][k]) && forall i :: 0 <= i < k ==> !p(s[1..][i]);
        assert s[k + 1] == r.value && forall i :: 0 <= i < k + 1 ==> !p(s[i]);
        r
      else r
  }

  /** Where keeps every element that satisfies `p` as often as `s` has it. */
  lemma {:induction false} WhereMultiplicity<T>(s: seq<T>, p: T -> bool, x: T)
    ensures multiset(Where(s, p))[x] == if p(x) then multiset(s)[x] else 0
  {
    if s != [] {
      WhereMultiplicity(s[1..], p, x);
      assert s == [s[0]] + s[1..];
    }
  }

  /** `Array.map`. */
  function Map<T, U>(s: seq<T>, f: T -> U): (r: seq<U>)
    ensures |r| == |s|
    ensures forall i :: 0 <= i < |s| ==> r[i] == f(s[i])
  {
    seq(|s|, i requires 0 <= i < |s| => f(s[i]))
  }

  /**
   * Projecting rows that are exactly the `keep` elements of `src` yields
   * exactly the projections of those elements.
   */
  lemma ProjectedMembers<T, U>(rows: seq<T>, src: seq<T>, f: T -> U, keep: T -> bool)
    requires forall i :: 0 <= i < |rows| ==> rows[i] in src && keep(rows[i])
    requires forall j :: 0 <= j < |src| && keep(src[j]) ==> src[j] in rows
    ensures forall i :: 0 <= i < |Map(rows, f)| ==>
      exists j :: 0 <= j < |src| && keep(src[j]) && Map(rows, f)[i] == f(src[j])
    ensures forall j :: 0 <= j < |src| && keep(src[j]) ==> f(src[j]) in Map(rows, f)
  {
    forall i | 0 <= i < |Map(rows, f)|
      ensures exists j :: 0 <= j < |src| && keep(src[j]) && Map(rows, f)[i] == f(src[j])
    {
      assert rows[i] in src;
      var j :| 0 <= j < |src| && src[j] == rows[i];
      assert 0 <= j < |src| && keep(src[j]) && Map(rows, f)[i] == f(src[j]);
    }
    assert forall i :: 0 <= i < |Map(rows, f)| ==>
      exists j :: 0 <= j < |src| && keep(src[j]) && Map(rows, f)[i] == f(src[j]);
    forall j | 0 <= j < |src| && keep(src[j])
      ensures f(src[j]) in Map(rows, f)
    {
      var i :| 0 <= i < |rows| && rows[i] == src[j];
      assert Map(rows, f)[i] == f(src[j]);
    }
  }

  /** DISTINCT: each value of `s` once. */
  function Distinct<T(==)>(s: seq<T>): (r: seq<T>)
    ensures forall i :: 0 <= i < |r| ==> r[i] in s
    ensures forall i :: 0 <= i < |s| ==> s[i] in r
    ensures forall i, j :: 0 <= i < j < |r| ==> r[i] != r[j]
  {
    if s == [] then []
    else if s[0] in s[1..] then Distinct(s[1..])
    else [s[0]] + Distinct(s[1..])
  }

  // ----------------------------------------------------------------- ordering

  /**
   * A sort key. NullKey is a SQL NULL, which PostgreSQL orders after every
   * value when ascending (and so first when descending); PairKey orders by
   * its first component, then its second.
   */
  datatype Key = IntKey(n: int) | TextKey(s: string) | PairKey(first: Key, second: Key) | NullKey

  datatype Direction = Asc | Desc

  function KindRank(k: Key): nat {
    match k
    case IntKey(_) => 0
    case TextKey(_) => 1
    case PairKey(_, _) => 2
    case NullKey => 3
  }

  /** Lexicographic order of strings by code point. */
  predicate TextLe(a: string, b: string) {
    if a == [] then true
    else if b == [] then false
    else if a[0] != b[0] then a[0] < b[0]
    else TextLe(a[1..], b[1..])
  }

  predicate KeyLe(a: Key, b: Key) {
    match (a, b)
    case (IntKey(x), IntKey(y)) => x <= y
    case (TextKey(s), TextKey(t)) => TextLe(s, t)
    case (PairKey(a1, a2), PairKey(b1, b2)) => if a1 == b1 then KeyLe(a2, b2) else KeyLe(a1, b1)
    case (NullKey, NullKey) => true
    case _ => KindRank(a) < KindRank(b)
  }

  lemma {:induction false} TextLeTotalOrder(a: string, b: string, c: string)
    ensures TextLe(a, b) || TextLe(b, a)
    ensures TextLe(a, b) && TextLe(b, a) ==> a == b
    ensures TextLe(a, b) && TextLe(b, c) ==> TextLe(a, c)
  {
    if a != [] && b != [] && c != [] {
      TextLeTotalOrder(a[1..], b[1..], c[1..]);
      if a[0] == b[0] && TextLe(a, b) && TextLe(b, a) {
        assert a == [a[0]] + a[1..] && b == [b[0]] + b[1..];
      }
    } else if a != [] && b != [] {
      TextLeTotalOrder(a[1..], b[1..], []);
      if a[0] == b[0] && TextLe(a, b) && TextLe(b, a) {
        assert a == [a[0]] + a[1..] && b == [b[0]] + b[1..];
      }
    }
  }

  /** KeyLe is a total order on keys. */
  lemma {:induction false} KeyLeTotalOrder(a: Key, b: Key, c: Key)
    ensures KeyLe(a, b) || KeyLe(b, a)
    ensures KeyLe(a, b) && KeyLe(b, a) ==> a == b
    ensures KeyLe(a, b) && KeyLe(b, c) ==> KeyLe(a, c)
  {
    match (a, b, c)
    case (IntKey(_), IntKey(_), IntKey(_)) =>
    case (TextKey(s), TextKey(t), TextKey(u)) => TextLeTotalOrder(s, t, u);
    case (PairKey(a1, a2), PairKey(b1, b2), PairKey(c1, c2)) =>
      KeyLeTotalOrder(a1, b1, c1);
      KeyLeTotalOrder(a2, b2, c2);
      KeyLeTotalOrder(a1, c1, b1);
    case (TextKey(s), TextKey(t), _) => TextLeTotalOrder(s, t, t);
    case (PairKey(a1, a2), PairKey(b1, b2), _) =>
      KeyLeTotalOrder(a1, b1, b1);
      KeyLeTotalOrder(a2, b2, b2);
    case _ =>
  }

  /** `x` may precede `y` in the given direction. */
  predicate InOrder(x: Key, y: Key, dir: Direction) {
    if dir == Asc then KeyLe(x, y) else KeyLe(y, x)
  }

  predicate SortedBy<T>(s: seq<T>, key: T -> Key, dir: Direction) {
    forall i, j :: 0 <= i < j < |s| ==> InOrder(key(s[i]), key(s[j]), dir)
  }

  function Insert<T(==)>(x: T, s: seq<T>, key: T -> Key, dir: Direction): (r: seq<T>)
    requires SortedBy(s, key, dir)
    ensures SortedBy(r, key, dir)
    ensures multiset(r) == multiset(s) + multiset{x}
  {
    if s == [] then [x]
    else if InOrder(key(x), key(s[0]), dir) then
      KeyLeTransitiveFrom(x, s, key, dir);
      [x] + s
    else
      KeyLeTotalOrder(key(x), key(s[0]), key(x));
      var t := Insert(x, s[1..], key, dir);
      assert s == [s[0]] + s[1..];
      forall j | 0 <= j < |t| ensures InOrder(key(s[0]), key(t[j]), dir) {
        assert t[j] in multiset(t);
        if t[j] != x {
          assert t[j] in multiset(s[1..]);
          var k :| 0 <= k < |s[1..]| && s[1..][k] == t[j];
          assert s[k + 1] == t[j];
        }
      }
      [s[0]] + t
  }

  lemma KeyLeTransitiveFrom<T>(x: T, s: seq<T>, key: T -> Key, dir: Direction)
    requires s != [] && SortedBy(s, key, dir) && InOrder(key(x), key(s[0]), dir)
    ensures SortedBy([x] + s, key, dir)
  {
    forall j | 0 <= j < |s| ensures InOrder(key(x), key(s[j]), dir) {
      KeyLeTotalOrder(key(x), key(s[0]), key(s[j]));
      KeyLeTotalOrder(key(s[j]), key(s[0]), key(x));
    }
  }

  /** ORDER BY: a permutation of `s` ordered by `key` in direction `dir`. */
  function SortBy<T(==)>(s: seq<T>, key: T -> Key, dir: Direction): (r: seq<T>)
    ensures SortedBy(r, key, dir)
    ensures multiset(r) == multiset(s)
    ensures |r| == |s|
  {
    if s == [] then []
    else
      assert s == [s[0]] + s[1..];
      Insert(s[0], SortBy(s[1..], key, dir), key, dir)
  }

  // ---------------------------------------------------------------- paging

  /** The `meta` block of a paginated response. */
  datatype PageMeta = PageMeta(total: nat, page: nat, limit: nat, totalPages: nat)

  /** Every row of a page of a sorted selection is an element of the source that passes the selection. */
  lemma PageRowsSelected<T>(s: seq<T>, p: T -> bool, key: T -> Key, dir: Direction, skip: nat, take: nat)
    ensures var w := Window(SortBy(Where(s, p), key, dir), skip, take);
      forall i :: 0 <= i < |w| ==> w[i] in s && p(w[i])
  {
    var ordered := SortBy(Where(s, p), key, dir);
    var w := Window(ordered, skip, take);
    forall i | 0 <= i < |w| ensures w[i] in s && p(w[i]) {
      assert w[i] == ordered[skip + i];
      assert ordered[skip + i] in multiset(ordered);
    }
  }

  /** A window of a sorted sequence is sorted. */
  lemma WindowSorted<T>(rows: seq<T>, skip: nat, take: nat, key: T -> Key, dir: Direction)
    requires SortedBy(rows, key, dir)
    ensures SortedBy(Window(rows, skip, take), key, dir)
  {
    var w := Window(rows, skip, take);
    forall i, j | 0 <= i < j < |w| ensures InOrder(key(w[i]), key(w[j]), dir) {
      assert w[i] == rows[skip + i] && w[j] == rows[skip + j];
    }
  }

  function Min(a: nat, b: nat): nat {
    if a <= b then a else b
  }

  /** OFFSET `skip` LIMIT `take`. */
  function Window<T>(rows: seq<T>, skip: nat, take: nat): (r: seq<T>)
    ensures |r| <= take
    ensures |r| == if skip >= |rows| then 0 else Min(take, |rows| - skip)
    ensures forall i :: 0 <= i < |r| ==> r[i] == rows[skip + i]
  {
    if skip >= |rows| then [] else rows[skip .. skip + Min(take, |rows| - skip)]
  }

  /** `Math.ceil(total / limit)`: the fewest pages of `limit` rows that hold `total` rows. */
  function TotalPages(total: nat, limit: nat): (n: nat)
    requires limit >= 1
    ensures n * limit >= total
    ensures n == 0 || (n - 1) * limit < total
    ensures n == 0 <==> total == 0
  {
    (total + limit - 1) / limit
  }

  /** The rows skipped before page `page` of `limit` rows: `(page - 1) * limit`. */
  function Skip(page: nat, limit: nat): (s: nat)
    requires page >= 1
    ensures s + limit == page * limit
  {
    (page - 1) * limit
  }

  /** The page of `limit` rows that holds row `k`: `k / limit + 1`. */
  function PageContaining(k: nat, limit: nat): (p: nat)
    requires limit >= 1
    ensures p >= 1
    ensures Skip(p, limit) <= k < Skip(p, limit) + limit
  {
    assert Skip(k / limit + 1, limit) == (k / limit) * limit;
    k / limit + 1
  }

  /** Every row of a sequence lies in the window of the page that contains its index. */
  lemma WindowHoldsRow<T>(rows: seq<T>, k: nat, limit: nat)
    requires k < |rows| && limit >= 1
    ensures rows[k] in Window(rows, Skip(PageContaining(k, limit), limit), limit)
  {
    var skip := Skip(PageContaining(k, limit), limit);
    assert Window(rows, skip, limit)[k - skip] == rows[k];
  }
}
