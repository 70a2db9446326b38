/**
 * The array operations the browser pages build their lists with: `filter`, `map`, and `reduce`
 * to a sum, with the reference facts the pages rely on (a filter keeps exactly what passes, in
 * order; two filters in a row are one filter by the conjunction; a filter and its negation split
 * a list).
 */
module Listas {

  /** `s.filter(f)`: the elements that pass `f`, in their order. */
  function Filtrar<T>(s: seq<T>, f: T -> bool): (r: seq<T>)
    ensures |r| <= |s|
    ensures forall i :: 0 <= i < |r| ==> f(r[i])
  {
    if s == [] then []
    else if f(s[0]) then [s[0]] + Filtrar(s[1..], f)
    else Filtrar(s[1..], f)
  }

  /** `s.map(f)`. */
  function Mapear<T, U>(s: seq<T>, f: T -> U): (r: seq<U>)
    ensures |r| == |s|
    ensures forall i :: 0 <= i < |s| ==> r[i] == f(s[i])
  {
    if s == [] then [] else [f(s[0])] + Mapear(s[1..], f)
  }

  /** `s.reduce((sum, x) => sum + v(x), 0)`. */
  function Sumar<T>(s: seq<T>, v: T -> int): int
  {
    if s == [] then 0 else v(s[0]) + Sumar(s[1..], v)
  }

  /** `a` is `b` with some elements dropped and the rest in their order. */
  predicate Subsecuencia<T(==)>(a: seq<T>, b: seq<T>)
    decreases |b|
  {
    a == [] || (b != [] && ((a[0] == b[0] && Subsecuencia(a[1..], b[1..])) || Subsecuencia(a, b[1..])))
  }

  // ----- what a filter keeps -----

  /** An element is kept exactly when it is in the list and passes. */
  lemma {:induction false} FiltrarMiembro<T>(s: seq<T>, f: T -> bool, x: T)
    ensures x in Filtrar(s, f) <==> x in s && f(x)
  {
    if s != [] {
      FiltrarMiembro(s[1..], f, x);
      assert s == [s[0]] + s[1..];
    }
  }

  /** What a filter keeps is a subsequence of its input: nothing is reordered or repeated. */
  lemma {:induction false} FiltrarSubsecuencia<T>(s: seq<T>, f: T -> bool)
    ensures Subsecuencia(Filtrar(s, f), s)
  {
    if s != [] {
      FiltrarSubsecuencia(s[1..], f);
      var r := Filtrar(s[1..], f);
      if f(s[0]) {
        var t := Filtrar(s, f);
        assert t == [s[0]] + r;
        assert t[0] == s[0] && t[1..] == r;
      } else {
        assert Filtrar(s, f) == r;
      }
    }
  }

  /** A filter everything passes keeps the list as it is. */
  lemma {:induction false} FiltrarTodos<T>(s: seq<T>, f: T -> bool)
    requires forall i :: 0 <= i < |s| ==> f(s[i])
    ensures Filtrar(s, f) == s
  {
    if s != [] {
      FiltrarTodos(s[1..], f);
      assert s == [s[0]] + s[1..];
    }
  }

  /** A filter nothing passes keeps nothing. */
  lemma {:induction false} FiltrarNinguno<T>(s: seq<T>, f: T -> bool)
    requires forall i :: 0 <= i < |s| ==> !f(s[i])
    ensures Filtrar(s, f) == []
  {
    if s != [] {
      FiltrarNinguno(s[1..], f);
    }
  }

  /** Two tests that agree on the list's elements keep the same elements. */
  lemma {:induction false} FiltrarExt<T>(s: seq<T>, f: T -> bool, g: T -> bool)
    requires forall i :: 0 <= i < |s| ==> f(s[i]) == g(s[i])
    ensures Filtrar(s, f) == Filtrar(s, g)
  {
    if s != [] {
      FiltrarExt(s[1..], f, g);
    }
  }

  /** Filtering by `f` and then by `g` is filtering once by `h`, their conjunction. */
  lemma {:induction false} FiltrarCompuesto<T>(s: seq<T>, f: T -> bool, g: T -> bool, h: T -> bool)
    requires forall i :: 0 <= i < |s| ==> h(s[i]) == (f(s[i]) && g(s[i]))
    ensures Filtrar(Filtrar(s, f), g) == Filtrar(s, h)
  {
    if s != [] {
      FiltrarCompuesto(s[1..], f, g, h);
      var r := Filtrar(s[1..], f);
      if f(s[0]) {
        var t := [s[0]] + r;
        assert Filtrar(s, f) == t;
        assert t[0] == s[0] && t[1..] == r;
        assert h(s[0]) == g(s[0]);
      } else {
        assert !h(s[0]);
      }
    }
  }

  /**
   * One step of a pipeline that filters by `g` only when `guarda` holds: if the list so far is
   * the filter by `acc`, the list after the step is the filter by `acc2`, `acc` joined with the
   * step's test.
   */
  lemma FiltrarSi<T>(s: seq<T>, acc: T -> bool, guarda: bool, g: T -> bool, acc2: T -> bool, actual: seq<T>)
    requires actual == Filtrar(s, acc)
    requires forall i :: 0 <= i < |s| ==> acc2(s[i]) == (acc(s[i]) && (!guarda || g(s[i])))
    ensures (if guarda then Filtrar(actual, g) else actual) == Filtrar(s, acc2)
  {
    if guarda {
      FiltrarCompuesto(s, acc, g, acc2);
    } else {
      FiltrarExt(s, acc, acc2);
    }
  }

  // ----- a filter and its negation -----

  /** `f` and its negation `g` split the list: the two parts hold together every element once. */
  lemma {:induction false} Particion<T>(s: seq<T>, f: T -> bool, g: T -> bool)
    requires forall i :: 0 <= i < |s| ==> g(s[i]) == !f(s[i])
    ensures |Filtrar(s, f)| + |Filtrar(s, g)| == |s|
    ensures multiset(Filtrar(s, f)) + multiset(Filtrar(s, g)) == multiset(s)
  {
    if s != [] {
      Particion(s[1..], f, g);
      assert s == [s[0]] + s[1..];
    }
  }

  /** Likewise for any sum over the two parts. */
  lemma {:induction false} ParticionSuma<T>(s: seq<T>, f: T -> bool, g: T -> bool, v: T -> int)
    requires forall i :: 0 <= i < |s| ==> g(s[i]) == !f(s[i])
    ensures Sumar(Filtrar(s, f), v) + Sumar(Filtrar(s, g), v) == Sumar(s, v)
  {
    if s != [] {
      ParticionSuma(s[1..], f, g, v);
      var a := Filtrar(s[1..], f);
      var b := Filtrar(s[1..], g);
      assert g(s[0]) == !f(s[0]);
      if f(s[0]) {
        var t := [s[0]] + a;
        assert Filtrar(s, f) == t && Filtrar(s, g) == b;
        assert t[0] == s[0] && t[1..] == a;
      } else {
        var t := [s[0]] + b;
        assert Filtrar(s, g) == t && Filtrar(s, f) == a;
        assert t[0] == s[0] && t[1..] == b;
      }
    }
  }

  // ----- sums -----

  lemma {:induction false} SumarConcat<T>(a: seq<T>, b: seq<T>, v: T -> int)
    ensures Sumar(a + b, v) == Sumar(a, v) + Sumar(b, v)
  {
    if a != [] {
      SumarConcat(a[1..], b, v);
      assert (a + b)[0] == a[0] && (a + b)[1..] == a[1..] + b;
    } else {
      assert a + b == b;
    }
  }

  /** A sum of terms that are never negative is never negative. */
  lemma {:induction false} SumarNoNegativa<T>(s: seq<T>, v: T -> int)
    requires forall i :: 0 <= i < |s| ==> v(s[i]) >= 0
    ensures Sumar(s, v) >= 0
  {
    if s != [] {
      SumarNoNegativa(s[1..], v);
    }
  }

  /** A sum changes by exactly the change of the one term that changes. */
  lemma {:induction false} SumarCambioUno<T>(s: seq<T>, t: seq<T>, k: int, v: T -> int)
    requires |s| == |t| && 0 <= k < |s|
    requires forall i :: 0 <= i < |s| && i != k ==> v(s[i]) == v(t[i])
    ensures Sumar(t, v) == Sumar(s, v) + v(t[k]) - v(s[k])
  {
    if k > 0 {
      SumarCambioUno(s[1..], t[1..], k - 1, v);
    } else {
      SumarIgual(s[1..], t[1..], v);
    }
  }

  lemma {:induction false} SumarIgual<T>(s: seq<T>, t: seq<T>, v: T -> int)
    requires |s| == |t|
    requires forall i :: 0 <= i < |s| ==> v(s[i]) == v(t[i])
    ensures Sumar(t, v) == Sumar(s, v)
  {
    if s != [] {
      SumarIgual(s[1..], t[1..], v);
    }
  }
}
