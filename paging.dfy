/**
 * Pagination arithmetic shared by the listing routes: `.skip((page - 1) * limit)`,
 * `.limit(limit)`, `Math.ceil(total / limit)` and the two `hasNext` formulas.
 * `page` and `limit` are the integers `parseInt` produced.
 */
module Paging {
  import opened Wrappers
  import Seqs

  /** A JavaScript number that is either an integer or one of the non-finite results of `x / 0`. */
  datatype JsNum = Num(n: int) | PosInf | NaN

  /** Ceiling of `t / l` for a non-zero integer `l`. */
  function CeilDiv(t: nat, l: int): (r: int)
    requires l != 0
    ensures l > 0 ==> (r - 1) * l < t <= r * l
    ensures l < 0 ==> r <= 0 && r * l <= t < (r - 1) * l
  {
    if l > 0 then
      var q := (t + l - 1) / l;
      FloorBounds(t + l - 1, l);
      ShiftDown(q, l);
      q
    else
      var q := t / (-l);
      FloorBounds(t, -l);
      Negate(q, l);
      -q
  }

  lemma FloorBounds(a: int, d: int)
    requires d > 0
    ensures (a / d) * d <= a < (a / d) * d + d
  {
  }

  lemma ShiftDown(q: int, l: int)
    ensures (q - 1) * l == q * l - l
  {
  }

  lemma Negate(q: int, l: int)
    ensures (-q) * l == q * (-l)
    ensures (-q - 1) * l == q * (-l) + (-l)
  {
  }

  /** `Math.ceil(total / limit)`: `0 / 0` is NaN and a positive total over 0 is Infinity. */
  function TotalPages(total: nat, limit: int): JsNum {
    if limit == 0 then (if total == 0 then NaN else PosInf)
    else Num(CeilDiv(total, limit))
  }

  /** `page < x` for a JavaScript number `x`. */
  predicate Below(page: int, x: JsNum) {
    match x
    case Num(n) => page < n
    case PosInf => true
    case NaN => false
  }

  /** How the places listing computes `hasNext`: `page < totalPages`. */
  predicate HasNextByPages(page: int, limit: int, total: nat) {
    Below(page, TotalPages(total, limit))
  }

  /** How the users listing computes `hasNext`: `page * limit < total`. */
  predicate HasNextByCount(page: int, limit: int, total: nat) {
    page * limit < total
  }

  /** `hasPrev` is `page > 1` in both listings. */
  predicate HasPrev(page: int) {
    page > 1
  }

  /** For every non-negative limit the two `hasNext` formulas agree. */
  lemma HasNextAgree(page: int, limit: int, total: nat)
    requires limit >= 0
    ensures HasNextByPages(page, limit, total) == HasNextByCount(page, limit, total)
  {
    if limit > 0 {
      var r := CeilDiv(total, limit);
      if page < r {
        assert page <= r - 1;
        MulMonotone(page, r - 1, limit);
      } else {
        MulMonotone(r, page, limit);
      }
    }
  }

  lemma MulMonotone(a: int, b: int, l: nat)
    requires a <= b
    ensures a * l <= b * l
  {
    assert b * l - a * l == (b - a) * l;
  }

  /** With a negative limit they do not: page 1, limit -1, 5 matching documents. */
  lemma HasNextDisagreeOnNegativeLimit()
    ensures !HasNextByPages(1, -1, 5) && HasNextByCount(1, -1, 5)
  {
    assert CeilDiv(5, -1) == -5;
  }

  /** `(page - 1) * limit`, the number of documents skipped. */
  function SkipCount(page: int, limit: int): int {
    (page - 1) * limit
  }

  /**
   * The slice a cursor returns after `.skip(skip).limit(limit)`: a negative
   * skip is refused by the database (None); a limit of 0 means no limit and a
   * negative limit returns at most `-limit` documents.
   */
  function Page<T>(s: seq<T>, skip: int, limit: int): (r: Option<seq<T>>)
    ensures skip < 0 <==> r.None?
    ensures r.Some? ==> |r.value| <= |s| && (limit != 0 ==> |r.value| <= if limit > 0 then limit else -limit)
    ensures r.Some? && skip >= |s| ==> r.value == []
    ensures r.Some? && skip < |s| ==> skip + |r.value| <= |s| && r.value == s[skip..skip + |r.value|]
  {
    if skip < 0 then None
    else
      var rest := Seqs.Drop(s, skip);
      Some(if limit == 0 then rest else Seqs.Take(rest, if limit > 0 then limit else -limit))
  }

  /** `x` moved into `lo .. hi`. */
  function Clamp(x: int, lo: int, hi: int): (r: int)
    requires lo <= hi
    ensures lo <= r <= hi
  {
    if x < lo then lo else if x > hi then hi else x
  }

  /** The positions `skip` up to `skip + limit - 1` of `s` that exist, in order. */
  function Window<T>(s: seq<T>, skip: int, limit: int): seq<T> {
    var lo := Clamp(skip, 0, |s|);
    s[lo..Clamp(skip + limit, lo, |s|)]
  }

  /** For a skip that is not negative and a positive limit the cursor returns exactly that window. */
  lemma PageWindow<T>(s: seq<T>, skip: int, limit: int)
    requires skip >= 0 && limit > 0
    ensures Page(s, skip, limit) == Some(Window(s, skip, limit))
  {
    var w := Window(s, skip, limit);
    if skip < |s| {
      var rest := s[skip..];
      assert Seqs.Drop(s, skip) == rest;
      if limit < |rest| {
        assert w == s[skip..skip + limit];
        assert Seqs.Take(rest, limit) == rest[..limit] == w;
      } else {
        assert w == s[skip..|s|] == rest;
        assert Seqs.Take(rest, limit) == rest;
      }
    } else {
      assert w == [];
      assert Seqs.Drop(s, skip) == [];
    }
  }

  /** A listed page holds exactly the documents at positions `skip .. skip + limit - 1`. */
  lemma PageContents<T>(s: seq<T>, page: int, limit: int, k: int)
    requires page >= 1 && limit > 0
    requires 0 <= k < limit && SkipCount(page, limit) + k < |s|
    ensures Page(s, SkipCount(page, limit), limit).Some?
    ensures var p := Page(s, SkipCount(page, limit), limit).value;
      k < |p| && p[k] == s[SkipCount(page, limit) + k]
  {
    var skip := SkipCount(page, limit);
    MulMonotone(0, page - 1, limit);
    assert skip >= 0;
  }
}
