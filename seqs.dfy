/** Sequence operations with the meaning Python gives them: list comprehensions
    with a condition, slicing, and the stable `list.sort`. */
module Seqs {
  import opened Common

  /** `[x for x in s if p(x)]` */
  function Filter<T>(s: seq<T>, p: T -> bool): (r: seq<T>)
    ensures |r| <= |s|
  {
    if s == [] then [] else (if p(s[0]) then [s[0]] else []) + Filter(s[1..], p)
  }

  /** The comprehension keeps exactly the elements that pass. */
  lemma {:induction false} FilterMembers<T>(s: seq<T>, p: T -> bool)
    ensures forall x :: x in Filter(s, p) ==> x in s && p(x)
    ensures forall x :: x in s && p(x) ==> x in Filter(s, p)
  {
    if s != [] {
      FilterMembers(s[1..], p);
      assert s == [s[0]] + s[1..];
    }
  }

  /** A loop that appends `f(x).value` for each `x` of `s` for which `f`
      gives a value, in the order of `s`. */
  function FilterMap<T, U>(s: seq<T>, f: T -> Option<U>): (r: seq<U>)
    ensures |r| <= |s|
  {
    if s == [] then []
    else
      var previos := FilterMap(s[..|s| - 1], f);
      match f(s[|s| - 1])
      case None => previos
      case Some(y) => previos + [y]
  }

  /** One more element of the input adds its value, if it has one. */
  lemma FilterMapPaso<T, U>(s: seq<T>, f: T -> Option<U>, i: nat)
    requires i < |s|
    ensures f(s[i]).None? ==> FilterMap(s[..i + 1], f) == FilterMap(s[..i], f)
    ensures f(s[i]).Some? ==> FilterMap(s[..i + 1], f) == FilterMap(s[..i], f) + [f(s[i]).value]
  {
    assert s[..i + 1][..i] == s[..i];
  }

  /** The result is empty exactly when `f` gives no value for any element. */
  lemma {:induction false} FilterMapVacio<T, U>(s: seq<T>, f: T -> Option<U>)
    ensures FilterMap(s, f) == [] <==> forall i :: 0 <= i < |s| ==> f(s[i]).None?
  {
    if s != [] {
      var init := s[..|s| - 1];
      FilterMapVacio(init, f);
      assert forall i :: 0 <= i < |init| ==> init[i] == s[i];
    }
  }

  /** Number of elements that satisfy `p`. */
  function Count<T>(s: seq<T>, p: T -> bool): nat
  {
    if s == [] then 0 else (if p(s[0]) then 1 else 0) + Count(s[1..], p)
  }

  lemma {:induction false} FilterLength<T>(s: seq<T>, p: T -> bool)
    ensures |Filter(s, p)| == Count(s, p)
  {
    if s != [] { FilterLength(s[1..], p); }
  }

  lemma {:induction false} FilterAppend<T>(a: seq<T>, b: seq<T>, p: T -> bool)
    ensures Filter(a + b, p) == Filter(a, p) + Filter(b, p)
  {
    if a == [] {
      assert a + b == b;
    } else {
      var h := if p(a[0]) then [a[0]] else [];
      assert (a + b)[0] == a[0] && (a + b)[1..] == a[1..] + b;
      FilterAppend(a[1..], b, p);
      assert Filter(a + b, p) == h + Filter(a[1..] + b, p);
      assert Filter(a, p) == h + Filter(a[1..], p);
    }
  }

  lemma {:induction false} CountAppend<T>(a: seq<T>, b: seq<T>, p: T -> bool)
    ensures Count(a + b, p) == Count(a, p) + Count(b, p)
  {
    FilterAppend(a, b, p);
    FilterLength(a + b, p);
    FilterLength(a, p);
    FilterLength(b, p);
  }

  function And<T>(p: T -> bool, q: T -> bool): T -> bool { x => p(x) && q(x) }

  lemma {:induction false} FilterFilter<T>(s: seq<T>, p: T -> bool, q: T -> bool)
    ensures Filter(Filter(s, p), q) == Filter(s, And(p, q))
  {
    if s != [] {
      FilterFilter(s[1..], p, q);
      if p(s[0]) {
        assert Filter(s, p) == [s[0]] + Filter(s[1..], p);
        assert Filter(s, p)[1..] == Filter(s[1..], p);
      } else {
        assert Filter(s, p) == Filter(s[1..], p);
      }
    }
  }

  lemma FilterCommutes<T>(s: seq<T>, p: T -> bool, q: T -> bool)
    ensures Filter(Filter(s, p), q) == Filter(Filter(s, q), p)
  {
    FilterFilter(s, p, q);
    FilterFilter(s, q, p);
    FilterSamePredicate(s, And(p, q), And(q, p));
  }

  lemma {:induction false} FilterSamePredicate<T>(s: seq<T>, p: T -> bool, q: T -> bool)
    requires forall x :: p(x) == q(x)
    ensures Filter(s, p) == Filter(s, q)
  {
    if s != [] { FilterSamePredicate(s[1..], p, q); }
  }

  /** The first element of a filter is the first element of the input that passes. */
  lemma {:induction false} FilterFirst<T>(s: seq<T>, p: T -> bool, k: nat)
    requires k < |s| && p(s[k])
    requires forall i :: 0 <= i < k ==> !p(s[i])
    ensures Filter(s, p) != [] && Filter(s, p)[0] == s[k]
  {
    if k > 0 { FilterFirst(s[1..], p, k - 1); }
  }

  lemma {:induction false} FilterTodos<T>(s: seq<T>, p: T -> bool)
    requires forall i :: 0 <= i < |s| ==> p(s[i])
    ensures Filter(s, p) == s
  {
    if s != [] {
      FilterTodos(s[1..], p);
    }
  }

  /** Filtering out the one element that fails `p` removes it at its place. */
  lemma FilterQuitaUno<T>(s: seq<T>, p: T -> bool, k: nat)
    requires k < |s| && !p(s[k])
    requires forall i :: 0 <= i < |s| && i != k ==> p(s[i])
    ensures Filter(s, p) == s[..k] + s[k + 1..]
  {
    var antes, despues := s[..k], s[k + 1..];
    assert Filter(antes, p) == antes by {
      FilterTramo(s, p, 0, k);
      assert s[0..k] == antes;
    }
    assert Filter(despues, p) == despues by {
      FilterTramo(s, p, k + 1, |s|);
      assert s[k + 1..|s|] == despues;
    }
    FilterPartes(s, p, k);
  }

  /** A stretch of elements that all pass is kept whole. */
  lemma FilterTramo<T>(s: seq<T>, p: T -> bool, lo: nat, hi: nat)
    requires lo <= hi <= |s|
    requires forall i :: lo <= i < hi ==> p(s[i])
    ensures Filter(s[lo..hi], p) == s[lo..hi]
  {
    var t := s[lo..hi];
    forall i | 0 <= i < |t| ensures p(t[i]) {
      assert t[i] == s[lo + i];
    }
    FilterTodos(t, p);
  }

  /** Filtering around an element that fails. */
  lemma {:induction false} FilterPartes<T>(s: seq<T>, p: T -> bool, k: nat)
    requires k < |s| && !p(s[k])
    ensures Filter(s, p) == Filter(s[..k], p) + Filter(s[k + 1..], p)
  {
    if k == 0 {
      assert s[..0] == [];
    } else {
      var t := s[1..];
      FilterPartes(t, p, k - 1);
      assert t[..k - 1] == s[..k][1..];
      assert t[k..] == s[k + 1..];
    }
  }

  /** `s[:n]` for n >= 0 */
  function Take<T>(s: seq<T>, n: nat): (r: seq<T>)
    ensures |r| == Min(n, |s|) && r == s[..|r|]
  {
    if n <= |s| then s[..n] else s
  }

  /** Python's normalisation of a slice bound against a sequence of length n. */
  function SliceBound(i: int, n: nat): (b: nat)
    ensures b <= n
  {
    if i < 0 then (if n + i < 0 then 0 else n + i) else if i > n then n else i
  }

  /** Python `s[start:stop]`, negative bounds counted from the end. */
  function PySlice<T>(s: seq<T>, start: int, stop: int): seq<T>
  {
    var a, b := SliceBound(start, |s|), SliceBound(stop, |s|);
    if a < b then s[a..b] else []
  }

  /** `s[:n]`, the slice from the start: a prefix of s of at most n elements. */
  lemma PySlicePrefijo<T>(s: seq<T>, n: int)
    ensures |PySlice(s, 0, n)| <= |s|
    ensures n >= 0 ==> |PySlice(s, 0, n)| == Min(n, |s|)
    ensures forall i :: 0 <= i < |PySlice(s, 0, n)| ==> PySlice(s, 0, n)[i] == s[i]
  {
  }

  // ---------------------------------------------------------------------------
  // Python's list.sort(key=key, reverse=True): stable, so elements with equal
  // keys keep their order. Modelled as an insertion sort that places every
  // element in front of the first element whose key is not larger.

  function Insert<T>(x: T, r: seq<T>, key: T -> real): seq<T>
  {
    if r == [] || key(r[0]) <= key(x) then [x] + r else [r[0]] + Insert(x, r[1..], key)
  }

  function SortDesc<T>(s: seq<T>, key: T -> real): seq<T>
  {
    if s == [] then [] else Insert(s[0], SortDesc(s[1..], key), key)
  }

  ghost predicate Descending<T>(s: seq<T>, key: T -> real)
  {
    forall i, j :: 0 <= i < j < |s| ==> key(s[i]) >= key(s[j])
  }

  function HasKey<T>(key: T -> real, v: real): T -> bool { x => key(x) == v }

  lemma {:induction false} InsertMultiset<T>(x: T, r: seq<T>, key: T -> real)
    ensures multiset(Insert(x, r, key)) == multiset(r) + multiset{x}
  {
    if !(r == [] || key(r[0]) <= key(x)) {
      InsertMultiset(x, r[1..], key);
      assert r == [r[0]] + r[1..];
    }
  }

  lemma {:induction false} SortDescMultiset<T>(s: seq<T>, key: T -> real)
    ensures multiset(SortDesc(s, key)) == multiset(s)
  {
    if s != [] {
      SortDescMultiset(s[1..], key);
      InsertMultiset(s[0], SortDesc(s[1..], key), key);
      assert s == [s[0]] + s[1..];
    }
  }

  lemma {:induction false} InsertDescending<T>(x: T, r: seq<T>, key: T -> real)
    requires Descending(r, key)
    ensures Descending(Insert(x, r, key), key)
  {
    if !(r == [] || key(r[0]) <= key(x)) {
      InsertDescending(x, r[1..], key);
      var t := Insert(x, r[1..], key);
      InsertMultiset(x, r[1..], key);
      forall y | y in t ensures key(y) <= key(r[0]) {
        assert y in multiset(t);
        if y != x {
          assert y in multiset(r[1..]);
          var k :| 0 <= k < |r[1..]| && r[1..][k] == y;
          assert r[k + 1] == y;
        }
      }
      assert Insert(x, r, key) == [r[0]] + t;
    }
  }

  lemma {:induction false} SortDescDescending<T>(s: seq<T>, key: T -> real)
    ensures Descending(SortDesc(s, key), key)
  {
    if s != [] {
      SortDescDescending(s[1..], key);
      InsertDescending(s[0], SortDesc(s[1..], key), key);
    }
  }

  lemma {:induction false} InsertStable<T>(x: T, r: seq<T>, key: T -> real, v: real)
    ensures Filter(Insert(x, r, key), HasKey(key, v)) ==
            (if key(x) == v then [x] else []) + Filter(r, HasKey(key, v))
  {
    var p := HasKey(key, v);
    if r == [] || key(r[0]) <= key(x) {
      assert Insert(x, r, key) == [x] + r;
      assert ([x] + r)[1..] == r;
    } else {
      InsertStable(x, r[1..], key, v);
      var t := Insert(x, r[1..], key);
      assert Insert(x, r, key) == [r[0]] + t;
      assert ([r[0]] + t)[1..] == t;
      if key(x) == v {
        assert !p(r[0]);
      } else {
        assert Filter(r, p) == (if p(r[0]) then [r[0]] else []) + Filter(r[1..], p);
      }
    }
  }

  /** Stability: for every key value, the elements carrying that key appear in
      the sorted list in the order they had before sorting. */
  lemma {:induction false} SortDescStable<T>(s: seq<T>, key: T -> real, v: real)
    ensures Filter(SortDesc(s, key), HasKey(key, v)) == Filter(s, HasKey(key, v))
  {
    if s != [] {
      SortDescStable(s[1..], key, v);
      InsertStable(s[0], SortDesc(s[1..], key), key, v);
    }
  }

  lemma SortDescLength<T>(s: seq<T>, key: T -> real)
    ensures |SortDesc(s, key)| == |s|
  {
    SortDescMultiset(s, key);
    assert |multiset(SortDesc(s, key))| == |multiset(s)|;
  }

  lemma SortDescMembers<T>(s: seq<T>, key: T -> real)
    ensures forall x :: x in SortDesc(s, key) <==> x in s
  {
    SortDescMultiset(s, key);
    forall x ensures x in SortDesc(s, key) <==> x in s {
      assert x in SortDesc(s, key) <==> x in multiset(SortDesc(s, key));
      assert x in s <==> x in multiset(s);
    }
  }

  lemma {:induction false} FilterDescending<T>(s: seq<T>, p: T -> bool, key: T -> real)
    requires Descending(s, key)
    ensures Descending(Filter(s, p), key)
  {
    if s != [] {
      assert Descending(s[1..], key);
      FilterDescending(s[1..], p, key);
      var t := Filter(s[1..], p);
      FilterMembers(s[1..], p);
      forall y | y in t ensures key(y) <= key(s[0]) {
        assert y in s[1..];
        var k :| 0 <= k < |s[1..]| && s[1..][k] == y;
        assert s[k + 1] == y;
      }
    }
  }

  /** A filtered, sorted and capped listing: `find(p).sort(key, -1).to_list(n)`. */
  function Listado<T>(s: seq<T>, p: T -> bool, key: T -> real, n: nat): seq<T>
  {
    Take(SortDesc(Filter(s, p), key), n)
  }

  /** At most n matching elements of s, by descending key: min(n, matches)
      of them, each taken from the matches, and no match left out has a
      higher key than one listed. */
  lemma ListadoCorrecto<T>(s: seq<T>, p: T -> bool, key: T -> real, n: nat)
    ensures |Listado(s, p, key, n)| == Min(n, |Filter(s, p)|)
    ensures forall i :: 0 <= i < |Listado(s, p, key, n)| ==> Listado(s, p, key, n)[i] in s && p(Listado(s, p, key, n)[i])
    ensures Descending(Listado(s, p, key, n), key)
    ensures multiset(Listado(s, p, key, n)) <= multiset(Filter(s, p))
    ensures forall x, y :: x in Listado(s, p, key, n) && y in multiset(Filter(s, p)) - multiset(Listado(s, p, key, n)) ==>
              key(y) <= key(x)
  {
    SortDescLength(Filter(s, p), key);
    ListadoMiembros(s, p, key, n);
    ListadoDescendente(s, p, key, n);
    ListadoMejores(s, p, key, n);
  }

  lemma ListadoMiembros<T>(s: seq<T>, p: T -> bool, key: T -> real, n: nat)
    ensures forall i :: 0 <= i < |Listado(s, p, key, n)| ==> Listado(s, p, key, n)[i] in s && p(Listado(s, p, key, n)[i])
  {
    var m := Filter(s, p);
    var t := SortDesc(m, key);
    FilterMembers(s, p);
    SortDescMembers(m, key);
    var r := Take(t, n);
    forall i | 0 <= i < |r| ensures r[i] in s && p(r[i]) {
      assert r[i] == t[i] && t[i] in m;
    }
  }

  lemma ListadoDescendente<T>(s: seq<T>, p: T -> bool, key: T -> real, n: nat)
    ensures Descending(Listado(s, p, key, n), key)
  {
    var t := SortDesc(Filter(s, p), key);
    SortDescDescending(Filter(s, p), key);
    var r := Take(t, n);
    forall i, j | 0 <= i < j < |r| ensures key(r[i]) >= key(r[j]) {
      assert r[i] == t[i] && r[j] == t[j];
    }
  }

  /** The listing is part of the matches, and what it leaves out ranks no
      higher than anything in it. */
  lemma ListadoMejores<T>(s: seq<T>, p: T -> bool, key: T -> real, n: nat)
    ensures multiset(Listado(s, p, key, n)) <= multiset(Filter(s, p))
    ensures forall x, y :: x in Listado(s, p, key, n) && y in multiset(Filter(s, p)) - multiset(Listado(s, p, key, n)) ==>
              key(y) <= key(x)
  {
    var m := Filter(s, p);
    var t := SortDesc(m, key);
    SortDescDescending(m, key);
    SortDescMultiset(m, key);
    var r := Take(t, n);
    PrefijoMejores(t, |r|, key);
    assert t == r + t[|r|..];
    assert multiset(m) == multiset(r) + multiset(t[|r|..]);
    assert multiset(m) - multiset(r) == multiset(t[|r|..]);
  }

  /** In a sequence sorted by descending key, nothing after position k has a
      higher key than anything before it. */
  lemma PrefijoMejores<T>(t: seq<T>, k: nat, key: T -> real)
    requires k <= |t| && Descending(t, key)
    ensures forall x, y :: x in t[..k] && y in multiset(t[k..]) ==> key(y) <= key(x)
  {
    forall x, y | x in t[..k] && y in multiset(t[k..]) ensures key(y) <= key(x) {
      var i :| 0 <= i < k && t[i] == x;
      assert y in t[k..];
      var j :| k <= j < |t| && t[j] == y;
    }
  }

  /** With no more than n matches the listing holds every match, each once. */
  lemma ListadoCompleto<T>(s: seq<T>, p: T -> bool, key: T -> real, n: nat)
    requires |Filter(s, p)| <= n
    ensures multiset(Listado(s, p, key, n)) == multiset(Filter(s, p))
  {
    SortDescLength(Filter(s, p), key);
    SortDescMultiset(Filter(s, p), key);
    assert Listado(s, p, key, n) == SortDesc(Filter(s, p), key);
  }

  /** The position of the first element that satisfies p, or -1: what
      `find_one(filter)` addresses. */
  function Primero<T>(s: seq<T>, p: T -> bool): (k: int)
    ensures -1 <= k < |s|
    ensures k >= 0 ==> p(s[k]) && forall j :: 0 <= j < k ==> !p(s[j])
    ensures k == -1 <==> forall i :: 0 <= i < |s| ==> !p(s[i])
  {
    if s == [] then -1
    else if p(s[|s| - 1]) && Primero(s[..|s| - 1], p) == -1 then |s| - 1
    else Primero(s[..|s| - 1], p)
  }

  /** An element that alone satisfies p is counted once and found first. */
  lemma UnicoQueCumple<T>(s: seq<T>, p: T -> bool, k: int)
    requires 0 <= k < |s| && p(s[k]) && forall i :: 0 <= i < |s| && i != k ==> !p(s[i])
    ensures Count(s, p) == 1 && Primero(s, p) == k
  {
    FilterLength(s, p);
    FilterQuitaUnoNegado(s, p, k);
  }

  lemma {:induction false} FilterQuitaUnoNegado<T>(s: seq<T>, p: T -> bool, k: int)
    requires 0 <= k < |s| && p(s[k]) && forall i :: 0 <= i < |s| && i != k ==> !p(s[i])
    ensures Filter(s, p) == [s[k]]
  {
    if k == 0 {
      SinCumplir(s[1..], p);
    } else {
      FilterQuitaUnoNegado(s[1..], p, k - 1);
    }
  }

  lemma {:induction false} SinCumplir<T>(s: seq<T>, p: T -> bool)
    requires forall i :: 0 <= i < |s| ==> !p(s[i])
    ensures Filter(s, p) == []
  {
    if s != [] {
      SinCumplir(s[1..], p);
    }
  }
}
