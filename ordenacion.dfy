/** A stable sort of a sequence by an integer key, the behaviour of JavaScript's
    `Array.prototype.sort` with a comparator `(a, b) => key(a) - key(b)`.
    Written as an insertion sort: the head is inserted in front of the first
    element of the sorted tail whose key is not smaller, so equal keys keep
    their input order. */
module Ordenacion {
  import opened Comun

  ghost predicate Ordenada<T>(s: seq<T>, clave: T -> int)
  {
    forall i, j :: 0 <= i < j < |s| ==> clave(s[i]) <= clave(s[j])
  }

  function Insertar<T>(x: T, s: seq<T>, clave: T -> int): (r: seq<T>)
    requires Ordenada(s, clave)
    ensures multiset(r) == multiset(s) + multiset{x}
    ensures |r| == |s| + 1
    ensures Ordenada(r, clave)
  {
    if s == [] then [x]
    else if clave(x) <= clave(s[0]) then [x] + s
    else
      var resto := Insertar(x, s[1..], clave);
      assert s == [s[0]] + s[1..];
      InsertarCota(x, s, resto, clave);
      [s[0]] + resto
  }

  /** Every element inserted after the head stays no smaller than it. */
  lemma InsertarCota<T>(x: T, s: seq<T>, resto: seq<T>, clave: T -> int)
    requires s != [] && Ordenada(s, clave) && clave(s[0]) < clave(x)
    requires multiset(resto) == multiset(s[1..]) + multiset{x} && Ordenada(resto, clave)
    ensures Ordenada([s[0]] + resto, clave)
  {
    forall k | 0 <= k < |resto| ensures clave(s[0]) <= clave(resto[k]) {
      assert resto[k] in multiset(resto);
      if resto[k] != x {
        assert resto[k] in multiset(s[1..]);
        var j :| 0 <= j < |s[1..]| && s[1..][j] == resto[k];
        assert s[1..][j] == s[j + 1];
      }
    }
    var r := [s[0]] + resto;
    forall i, j | 0 <= i < j < |r| ensures clave(r[i]) <= clave(r[j]) {
      assert r[j] == resto[j - 1];
      if i > 0 {
        assert r[i] == resto[i - 1];
      }
    }
  }

  /** The sorted copy: a permutation of the input, ordered by the key. */
  function Ordenar<T>(s: seq<T>, clave: T -> int): (r: seq<T>)
    ensures multiset(r) == multiset(s)
    ensures |r| == |s|
    ensures Ordenada(r, clave)
  {
    if s == [] then []
    else
      assert s == [s[0]] + s[1..];
      Insertar(s[0], Ordenar(s[1..], clave), clave)
  }

  /** A sequence already ordered by the key is left as it is. */
  lemma {:induction false} OrdenarOrdenada<T>(s: seq<T>, clave: T -> int)
    requires Ordenada(s, clave)
    ensures Ordenar(s, clave) == s
  {
    if s != [] {
      assert Ordenada(s[1..], clave);
      OrdenarOrdenada(s[1..], clave);
      assert s == [s[0]] + s[1..];
    }
  }

  /** Filtering keeps the order: a filtered ordered sequence is ordered. */
  lemma {:induction false} FiltrarOrdenada<T>(s: seq<T>, p: T -> bool, clave: T -> int)
    requires Ordenada(s, clave)
    ensures Ordenada(Filtrar(s, p), clave)
  {
    if s != [] {
      var init, last := s[..|s| - 1], s[|s| - 1];
      assert Ordenada(init, clave);
      FiltrarOrdenada(init, p, clave);
      var f := Filtrar(init, p);
      FiltrarMiembros(init, p);
      forall i | 0 <= i < |f| ensures clave(f[i]) <= clave(last) {
        assert f[i] in init;
        var j :| 0 <= j < |init| && init[j] == f[i];
      }
    }
  }

  /** The elements whose key is `k`. */
  function DeClave<T(!new)>(clave: T -> int, k: int): (p: T -> bool)
    ensures forall y :: p(y) <==> clave(y) == k
  {
    y => clave(y) == k
  }

  /** Stability, one insertion at a time: among the elements with key `k`,
      the inserted head lands in front of all those of the tail. */
  lemma {:induction false} InsertarEstable<T(!new)>(x: T, s: seq<T>, clave: T -> int, k: int)
    requires Ordenada(s, clave)
    ensures Filtrar(Insertar(x, s, clave), DeClave(clave, k))
            == Filtrar([x], DeClave(clave, k)) + Filtrar(s, DeClave(clave, k))
  {
    var p := DeClave(clave, k);
    if s == [] || clave(x) <= clave(s[0]) {
      assert Insertar(x, s, clave) == [x] + s;
      FiltrarConcatenar([x], s, p);
    } else {
      var cabeza, cola := s[0], s[1..];
      assert Ordenada(cola, clave);
      InsertarEstable(x, cola, clave, k);
      assert Insertar(x, s, clave) == [cabeza] + Insertar(x, cola, clave);
      assert s == [cabeza] + cola;
      // the head of the tail has a smaller key than `x`: not both have key `k`
      PasarDelante(cabeza, x, Insertar(x, cola, clave), cola, p);
    }
  }

  /** One element passes another that `p` does not tell apart from it. */
  lemma PasarDelante<T>(c: T, x: T, resto: seq<T>, cola: seq<T>, p: T -> bool)
    requires !(p(c) && p(x))
    requires Filtrar(resto, p) == Filtrar([x], p) + Filtrar(cola, p)
    ensures Filtrar([c] + resto, p) == Filtrar([x], p) + Filtrar([c] + cola, p)
  {
    FiltrarCabeza(c, resto, p);
    FiltrarCabeza(c, cola, p);
    var fx, fc, fcola := Filtrar([x], p), Filtrar([c], p), Filtrar(cola, p);
    if p(c) {
      FiltrarUno(x, p);
      Intercambiar(fc, fx, fcola);
    } else {
      FiltrarUno(c, p);
      Intercambiar(fc, fx, fcola);
    }
  }

  /** Filtering a single element. */
  lemma FiltrarUno<T>(x: T, p: T -> bool)
    ensures Filtrar([x], p) == if p(x) then [x] else []
  {
    assert [x][..0] == [];
  }

  /** Filtering splits off the head. */
  lemma FiltrarCabeza<T>(c: T, t: seq<T>, p: T -> bool)
    ensures Filtrar([c] + t, p) == Filtrar([c], p) + Filtrar(t, p)
  {
    FiltrarConcatenar([c], t, p);
  }

  /** An empty part can move to either side of the other. */
  lemma Intercambiar<T>(a: seq<T>, b: seq<T>, t: seq<T>)
    requires a == [] || b == []
    ensures a + (b + t) == b + (a + t)
  {
    if a == [] {
      assert a + t == t;
    } else {
      assert b + t == t;
    }
  }

  /** Stability: the elements sharing one key come out in their input order. */
  lemma {:induction false} OrdenarEstable<T(!new)>(s: seq<T>, clave: T -> int, k: int)
    ensures Filtrar(Ordenar(s, clave), DeClave(clave, k)) == Filtrar(s, DeClave(clave, k))
  {
    var p := DeClave(clave, k);
    if s != [] {
      OrdenarEstable(s[1..], clave, k);
      InsertarEstable(s[0], Ordenar(s[1..], clave), clave, k);
      assert s == [s[0]] + s[1..];
      FiltrarConcatenar([s[0]], s[1..], p);
    }
  }
}
