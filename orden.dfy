/**
 * Python's `sorted(xs, key=...)` over values already paired with their string keys: a
 * stable insertion sort, proved to order by key and to permute its input.
 */
module Orden {
  import opened Texto

  /** Ascending by key. */
  ghost predicate Ordenados<T>(s: seq<(string, T)>)
  {
    forall i :: 0 < i < |s| ==> LessEq(s[i - 1].0, s[i].0)
  }

  /** The values without their keys. */
  function Segundos<T>(s: seq<(string, T)>): (r: seq<T>)
    ensures |r| == |s|
  {
    if s == [] then [] else [s[0].1] + Segundos(s[1..])
  }

  lemma {:induction false} SegundosEn<T>(s: seq<(string, T)>, i: nat)
    requires i < |s|
    ensures Segundos(s)[i] == s[i].1
  {
    if i > 0 {
      SegundosEn(s[1..], i - 1);
    }
  }

  lemma {:induction false} SegundosConcatena<T>(a: seq<(string, T)>, b: seq<(string, T)>)
    ensures Segundos(a + b) == Segundos(a) + Segundos(b)
  {
    if a == [] {
      assert a + b == b;
    } else {
      SegundosConcatena(a[1..], b);
      assert (a + b)[1..] == a[1..] + b;
      assert Segundos(a + b) == [a[0].1] + Segundos(a[1..] + b);
    }
  }

  /** Insert `x` before the first element whose key is greater than its own, so after
      every element with an equal key. */
  function Insertar<T>(x: (string, T), s: seq<(string, T)>): (r: seq<(string, T)>)
    ensures |r| == |s| + 1
  {
    if s == [] then
      [x]
    else if Less(x.0, s[0].0) then
      [x] + s
    else
      [s[0]] + Insertar(x, s[1..])
  }

  /** Python's `sorted`: insert the last element into the sorted prefix. */
  function Ordenar<T>(s: seq<(string, T)>): (r: seq<(string, T)>)
    ensures |r| == |s|
  {
    if s == [] then [] else Insertar(s[|s| - 1], Ordenar(s[..|s| - 1]))
  }

  /** Insertion adds exactly `x`. */
  lemma {:induction false} InsertarPermuta<T>(x: (string, T), s: seq<(string, T)>)
    ensures multiset(Insertar(x, s)) == multiset(s) + multiset{x}
  {
    if s != [] && !Less(x.0, s[0].0) {
      assert s == [s[0]] + s[1..];
      InsertarPermuta(x, s[1..]);
    }
  }

  /** Insertion adds exactly the value of `x`, keys left aside. */
  lemma {:induction false} InsertarPermutaValores<T>(x: (string, T), s: seq<(string, T)>)
    ensures multiset(Segundos(Insertar(x, s))) == multiset(Segundos(s)) + multiset{x.1}
  {
    if s != [] {
      var r := Insertar(x, s);
      if Less(x.0, s[0].0) {
        assert r == [x] + s;
        SegundosConcatena([x], s);
      } else {
        InsertarPermutaValores(x, s[1..]);
        assert r == [s[0]] + Insertar(x, s[1..]);
        SegundosConcatena([s[0]], Insertar(x, s[1..]));
        assert s == [s[0]] + s[1..];
        SegundosConcatena([s[0]], s[1..]);
      }
    }
  }

  /** Insertion into a sorted sequence leaves it sorted. */
  lemma {:induction false} InsertarOrdena<T>(x: (string, T), s: seq<(string, T)>)
    requires Ordenados(s)
    ensures Ordenados(Insertar(x, s))
    ensures Insertar(x, s)[0] == x || Insertar(x, s)[0] == s[0]
  {
    if s != [] && !Less(x.0, s[0].0) {
      LessTotal(x.0, s[0].0);
      InsertarOrdena(x, s[1..]);
      var r := Insertar(x, s[1..]);
      assert Insertar(x, s) == [s[0]] + r;
    }
  }

  /** The sort orders by key and permutes its input, keys and values alike. */
  lemma {:induction false} OrdenarCorrecto<T>(s: seq<(string, T)>)
    ensures Ordenados(Ordenar(s))
    ensures multiset(Ordenar(s)) == multiset(s)
    ensures multiset(Segundos(Ordenar(s))) == multiset(Segundos(s))
  {
    if s != [] {
      var n := |s| - 1;
      assert s == s[..n] + [s[n]];
      OrdenarCorrecto(s[..n]);
      InsertarOrdena(s[n], Ordenar(s[..n]));
      InsertarPermuta(s[n], Ordenar(s[..n]));
      InsertarPermutaValores(s[n], Ordenar(s[..n]));
      SegundosConcatena(s[..n], [s[n]]);
    }
  }
}
