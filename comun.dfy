/** Shared vocabulary: optional values, results with an error message, sums of
    integer amounts (money is kept in integer cents) and order-preserving filters. */
module Comun {

  datatype Option<+T> = None | Some(value: T)

  /** A computation that either yields a value or raises an error with a message. */
  datatype Result<+T> = Ok(value: T) | Err(msg: string)

  /** JavaScript truthiness of an optional string: present and non-empty. */
  predicate NoVacio(s: Option<string>)
  {
    s.Some? && s.value != ""
  }

  /** Sum of a sequence of amounts, accumulated from the left as `reduce` and
      `for ... total +=` do; the recursion peels the last element. */
  function Suma(xs: seq<int>): int
  {
    if xs == [] then 0 else Suma(xs[..|xs| - 1]) + xs[|xs| - 1]
  }

  lemma SumaAgregar(xs: seq<int>, x: int)
    ensures Suma(xs + [x]) == Suma(xs) + x
  {
    assert (xs + [x])[..|xs|] == xs;
  }

  lemma {:induction false} SumaConcatenar(xs: seq<int>, ys: seq<int>)
    ensures Suma(xs + ys) == Suma(xs) + Suma(ys)
    decreases |ys|
  {
    if ys == [] {
      assert xs + ys == xs;
    } else {
      var init := ys[..|ys| - 1];
      var last := ys[|ys| - 1];
      assert ys == init + [last];
      assert xs + ys == (xs + init) + [last];
      SumaAgregar(xs + init, last);
      SumaAgregar(init, last);
      SumaConcatenar(xs, init);
    }
  }

  lemma SumaPrimero(x: int, xs: seq<int>)
    ensures Suma([x] + xs) == x + Suma(xs)
  {
    SumaConcatenar([x], xs);
    assert Suma([x]) == Suma([]) + x;
  }

  /** Replacing one amount changes the sum by the difference. */
  lemma {:induction false} SumaReemplazar(xs: seq<int>, i: nat, x: int)
    requires i < |xs|
    ensures Suma(xs[i := x]) == Suma(xs) - xs[i] + x
  {
    assert xs == xs[..i] + [xs[i]] + xs[i + 1..];
    assert xs[i := x] == xs[..i] + [x] + xs[i + 1..];
    SumaConcatenar(xs[..i] + [xs[i]], xs[i + 1..]);
    SumaConcatenar(xs[..i], [xs[i]]);
    SumaConcatenar(xs[..i] + [x], xs[i + 1..]);
    SumaConcatenar(xs[..i], [x]);
    assert Suma([x]) == x by { assert [x][..0] == []; }
    assert Suma([xs[i]]) == xs[i] by { assert [xs[i]][..0] == []; }
  }

  /** Removing one amount lowers the sum by that amount. */
  lemma {:induction false} SumaQuitar(xs: seq<int>, i: nat)
    requires i < |xs|
    ensures Suma(xs[..i] + xs[i + 1..]) == Suma(xs) - xs[i]
  {
    var antes, despues := xs[..i], xs[i + 1..];
    assert xs == antes + ([xs[i]] + despues);
    SumaConcatenar(antes, [xs[i]] + despues);
    SumaPrimero(xs[i], despues);
    SumaConcatenar(antes, despues);
  }

  lemma {:induction false} SumaNoNegativa(xs: seq<int>)
    requires forall i :: 0 <= i < |xs| ==> xs[i] >= 0
    ensures Suma(xs) >= 0
  {
    if xs != [] {
      SumaNoNegativa(xs[..|xs| - 1]);
    }
  }

  /** The amount of each element of `s`, in order. */
  function ImportesPor<T>(s: seq<T>, importe: T -> int): (r: seq<int>)
    ensures |r| == |s| && forall i :: 0 <= i < |s| ==> r[i] == importe(s[i])
  {
    seq(|s|, i requires 0 <= i < |s| => importe(s[i]))
  }

  /** The total of a list: its amounts summed from the left, as a `reduce`
      from 0 or a `for ... total +=` loop does. */
  function TotalPor<T>(s: seq<T>, importe: T -> int): int
  {
    Suma(ImportesPor(s, importe))
  }

  /** An empty list totals 0. */
  lemma TotalPorVacio<T>(importe: T -> int)
    ensures TotalPor([], importe) == 0
  {
    assert ImportesPor([], importe) == [];
  }

  /** Appending an element raises the total by exactly its amount. */
  lemma TotalPorAgregar<T>(s: seq<T>, x: T, importe: T -> int)
    ensures TotalPor(s + [x], importe) == TotalPor(s, importe) + importe(x)
  {
    assert ImportesPor(s + [x], importe) == ImportesPor(s, importe) + [importe(x)];
    SumaAgregar(ImportesPor(s, importe), importe(x));
  }

  /** Replacing one element changes the total by the difference of the amounts. */
  lemma TotalPorReemplazar<T>(s: seq<T>, i: nat, x: T, importe: T -> int)
    requires i < |s|
    ensures TotalPor(s[i := x], importe) == TotalPor(s, importe) - importe(s[i]) + importe(x)
  {
    assert ImportesPor(s[i := x], importe) == ImportesPor(s, importe)[i := importe(x)];
    SumaReemplazar(ImportesPor(s, importe), i, importe(x));
  }

  /** Removing one element lowers the total by that element's amount. */
  lemma TotalPorQuitar<T>(s: seq<T>, i: nat, importe: T -> int)
    requires i < |s|
    ensures TotalPor(s[..i] + s[i + 1..], importe) == TotalPor(s, importe) - importe(s[i])
  {
    var a := ImportesPor(s, importe);
    assert ImportesPor(s[..i] + s[i + 1..], importe) == a[..i] + a[i + 1..];
    SumaQuitar(a, i);
  }

  /** The index of the first element of `s` that satisfies `p`, none when no
      element does (`Array.find` and `Array.findIndex`). */
  function Primero<T>(s: seq<T>, p: T -> bool): (r: Option<nat>)
    ensures r.Some? ==> r.value < |s| && p(s[r.value])
    ensures r.Some? ==> forall k :: 0 <= k < r.value ==> !p(s[k])
    ensures r.None? <==> forall k :: 0 <= k < |s| ==> !p(s[k])
  {
    if s == [] then None
    else if p(s[0]) then Some(0)
    else match Primero(s[1..], p)
      case None => None
      case Some(k) => Some(k + 1)
  }

  /** The elements of `s` that satisfy `p`, in their original order (`Array.filter`,
      a queryset `.filter`). */
  function Filtrar<T>(s: seq<T>, p: T -> bool): (r: seq<T>)
    ensures |r| <= |s|
    ensures forall i :: 0 <= i < |r| ==> p(r[i])
  {
    if s == [] then []
    else Filtrar(s[..|s| - 1], p) + (if p(s[|s| - 1]) then [s[|s| - 1]] else [])
  }

  /** What is kept comes from `s`, and every element of `s` that passes is kept. */
  lemma {:induction false} FiltrarMiembros<T>(s: seq<T>, p: T -> bool)
    ensures forall x :: x in Filtrar(s, p) <==> x in s && p(x)
    ensures forall i :: 0 <= i < |Filtrar(s, p)| ==> Filtrar(s, p)[i] in s
  {
    if s != [] {
      FiltrarMiembros(s[..|s| - 1], p);
      assert s == s[..|s| - 1] + [s[|s| - 1]];
    }
  }

  lemma FiltrarAgregar<T>(s: seq<T>, x: T, p: T -> bool)
    ensures Filtrar(s + [x], p) == Filtrar(s, p) + (if p(x) then [x] else [])
  {
    assert (s + [x])[..|s|] == s;
  }

  lemma {:induction false} FiltrarConcatenar<T>(s: seq<T>, t: seq<T>, p: T -> bool)
    ensures Filtrar(s + t, p) == Filtrar(s, p) + Filtrar(t, p)
    decreases |t|
  {
    if t == [] {
      assert s + t == s;
    } else {
      var init, last := t[..|t| - 1], t[|t| - 1];
      assert t == init + [last];
      assert s + t == (s + init) + [last];
      FiltrarAgregar(s + init, last, p);
      FiltrarAgregar(init, last, p);
      FiltrarConcatenar(s, init, p);
    }
  }

  /** Filtering keeps an element exactly as many times as it occurs when it
      satisfies the predicate, and drops it otherwise. */
  lemma {:induction false} FiltrarMultiset<T>(s: seq<T>, p: T -> bool, x: T)
    ensures multiset(Filtrar(s, p))[x] == if p(x) then multiset(s)[x] else 0
  {
    if s != [] {
      var init := s[..|s| - 1];
      assert s == init + [s[|s| - 1]];
      FiltrarMultiset(init, p, x);
    }
  }

  /** Two filters in a row are one filter by the conjunction. */
  lemma {:induction false} FiltrarFiltrar<T>(s: seq<T>, p: T -> bool, q: T -> bool, pq: T -> bool)
    requires forall x :: pq(x) == (p(x) && q(x))
    ensures Filtrar(Filtrar(s, p), q) == Filtrar(s, pq)
  {
    if s != [] {
      var init, last := s[..|s| - 1], s[|s| - 1];
      assert s == init + [last];
      FiltrarFiltrar(init, p, q, pq);
      var fp := Filtrar(init, p);
      assert Filtrar(s, p) == fp + (if p(last) then [last] else []);
      assert Filtrar(s, pq) == Filtrar(init, pq) + (if pq(last) then [last] else []);
      if p(last) {
        FiltrarAgregar(fp, last, q);
      } else {
        assert Filtrar(s, p) == fp;
      }
    }
  }

  /** Filtering depends only on which elements pass. */
  lemma {:induction false} FiltrarEquivalentes<T>(s: seq<T>, p: T -> bool, q: T -> bool)
    requires forall x :: p(x) == q(x)
    ensures Filtrar(s, p) == Filtrar(s, q)
  {
    if s != [] {
      FiltrarEquivalentes(s[..|s| - 1], p, q);
    }
  }

  /** Filtering with a predicate that holds nowhere leaves nothing. */
  lemma {:induction false} FiltrarNinguno<T>(s: seq<T>, p: T -> bool)
    requires forall i :: 0 <= i < |s| ==> !p(s[i])
    ensures Filtrar(s, p) == []
  {
    if s != [] {
      FiltrarNinguno(s[..|s| - 1], p);
    }
  }

  /** Filtering with a predicate that holds everywhere changes nothing. */
  lemma {:induction false} FiltrarTodo<T>(s: seq<T>, p: T -> bool)
    requires forall x :: x in s ==> p(x)
    ensures Filtrar(s, p) == s
  {
    if s != [] {
      assert s == s[..|s| - 1] + [s[|s| - 1]];
      FiltrarTodo(s[..|s| - 1], p);
    }
  }

  /** The same, with the hypothesis stated position by position. */
  lemma {:induction false} FiltrarCadaUno<T>(s: seq<T>, p: T -> bool)
    requires forall i :: 0 <= i < |s| ==> p(s[i])
    ensures Filtrar(s, p) == s
  {
    if s != [] {
      assert s == s[..|s| - 1] + [s[|s| - 1]];
      FiltrarCadaUno(s[..|s| - 1], p);
    }
  }

  /** Filtering by a predicate and by its complement splits the sequence: the
      lengths add up and together the two halves hold every element. */
  lemma {:induction false} FiltrarComplemento<T>(s: seq<T>, p: T -> bool, q: T -> bool)
    requires forall x :: q(x) == !p(x)
    ensures |Filtrar(s, p)| + |Filtrar(s, q)| == |s|
    ensures multiset(Filtrar(s, p)) + multiset(Filtrar(s, q)) == multiset(s)
  {
    if s != [] {
      var init, last := s[..|s| - 1], s[|s| - 1];
      assert s == init + [last];
      FiltrarComplemento(init, p, q);
    }
  }

  /** When exactly the element at `k` fails the test, filtering drops just it. */
  lemma {:induction false} FiltrarUnico<T>(s: seq<T>, p: T -> bool, k: nat)
    requires k < |s| && !p(s[k])
    requires forall j :: 0 <= j < |s| && j != k ==> p(s[j])
    ensures Filtrar(s, p) == s[..k] + s[k + 1..]
  {
    var init, last := s[..|s| - 1], s[|s| - 1];
    if k == |s| - 1 {
      assert forall i :: 0 <= i < |init| ==> p(init[i]) by {
        forall i | 0 <= i < |init| ensures p(init[i]) {
          assert init[i] == s[i];
        }
      }
      FiltrarCadaUno(init, p);
      assert s[..k] == init && s[k + 1..] == [];
    } else {
      assert forall j :: 0 <= j < |init| && j != k ==> p(init[j]) by {
        forall j | 0 <= j < |init| && j != k ensures p(init[j]) {
          assert init[j] == s[j];
        }
      }
      FiltrarUnico(init, p, k);
      assert p(last);
      assert init[..k] == s[..k];
      assert init[k + 1..] + [last] == s[k + 1..];
    }
  }
}
