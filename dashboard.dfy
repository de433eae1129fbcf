/** The statistics of `frontend/src/components/dashboard/Dashboard.jsx`,
    computed in `fetchDashboardData` from the sales and products lists. Dates
    are the strings the server sends and they are compared as strings, as the
    source does; "today" and "a week ago" are parameters, as is the instant
    `new Date(fecha_venta)` parses each sale date to. Amounts are cents. */
module Dashboard {
  import opened Comun
  import opened Ordenacion

  /** A sale as the dashboard reads it. `instante` is `new Date(fecha_venta)`. */
  datatype VentaD = VentaD(idVenta: int, fechaVenta: string, instante: int, total: int,
                           idCliente: Option<int>)

  datatype ProductoD = ProductoD(stock: int, stockMinimo: int)

  /** One point of the chart series. */
  datatype Punto = Punto(fecha: string, total: int, id: int)

  datatype Estadisticas = Estadisticas(ventasHoy: int, ventasSemana: int,
                                       productosPocoStock: nat, totalClientes: nat)

  // ---------------------------------------------------------------------------
  // Strings

  predicate EmpiezaCon(s: string, prefijo: string)
  {
    |prefijo| <= |s| && s[..|prefijo|] == prefijo
  }

  /** JavaScript's `a < b` on strings: code unit by code unit, a proper prefix
      coming first. */
  predicate Menor(a: string, b: string)
  {
    if a == [] then b != []
    else if b == [] then false
    else if a[0] != b[0] then a[0] < b[0]
    else Menor(a[1..], b[1..])
  }

  predicate MenorIgual(a: string, b: string)
  {
    a == b || Menor(a, b)
  }

  /** A string comes strictly after each of its proper prefixes. */
  lemma {:induction false} PrefijoMenor(a: string, s: string)
    requires s != []
    ensures Menor(a, a + s) && !MenorIgual(a + s, a)
  {
    if a != [] {
      assert (a + s)[1..] == a[1..] + s;
      PrefijoMenor(a[1..], s);
    }
  }

  /** `s.split('T')[0]`: the text before the first `T`. */
  function AntesDeT(s: string): (r: string)
    ensures |r| <= |s| && r == s[..|r|]
    ensures 'T' !in r
    ensures |r| < |s| ==> s[|r|] == 'T'
  {
    if s == [] then []
    else if s[0] == 'T' then []
    else [s[0]] + AntesDeT(s[1..])
  }

  // ---------------------------------------------------------------------------
  // The figures

  function Totales(vs: seq<VentaD>): seq<int>
  {
    seq(|vs|, i requires 0 <= i < |vs| => vs[i].total)
  }

  function DeHoy(hoy: string): VentaD -> bool
  {
    (v: VentaD) => EmpiezaCon(v.fechaVenta, hoy)
  }

  /** The week test as written: `unaSemanaAtras <= fecha_venta && fecha_venta <= hoy`. */
  function EnSemana(desde: string, hoy: string): VentaD -> bool
  {
    (v: VentaD) => MenorIgual(desde, v.fechaVenta) && MenorIgual(v.fechaVenta, hoy)
  }

  function VentasHoy(vs: seq<VentaD>, hoy: string): int
  {
    Suma(Totales(Filtrar(vs, DeHoy(hoy))))
  }

  function VentasSemana(vs: seq<VentaD>, desde: string, hoy: string): int
  {
    Suma(Totales(Filtrar(vs, EnSemana(desde, hoy))))
  }

  function PocoStock(): ProductoD -> bool
  {
    (p: ProductoD) => p.stock < p.stockMinimo
  }

  /** `productosPocoStock`. */
  function ProductosPocoStock(ps: seq<ProductoD>): nat
  {
    |Filtrar(ps, PocoStock())|
  }

  /** The `Set` the `reduce` fills with `id_cliente`, a missing client included. */
  function Clientes(vs: seq<VentaD>): set<Option<int>>
  {
    if vs == [] then {}
    else Clientes(vs[..|vs| - 1]) + {vs[|vs| - 1].idCliente}
  }

  /** `totalClientes`. */
  function TotalClientes(vs: seq<VentaD>): nat
  {
    |Clientes(vs)|
  }

  /** The four figures; `porDia` selects the corrected week test. */
  function Calcular(vs: seq<VentaD>, ps: seq<ProductoD>, hoy: string, desde: string, porDia: bool): Estadisticas
  {
    Estadisticas(VentasHoy(vs, hoy), if porDia then VentasSemanaPorDia(vs, desde, hoy) else VentasSemana(vs, desde, hoy),
                 ProductosPocoStock(ps), TotalClientes(vs))
  }

  /** Each day's figure adds up sale by sale: a new sale adds its total exactly
      when its date starts with today's. */
  lemma VentasHoyAgregar(vs: seq<VentaD>, v: VentaD, hoy: string)
    ensures VentasHoy(vs + [v], hoy) == VentasHoy(vs, hoy) + (if EmpiezaCon(v.fechaVenta, hoy) then v.total else 0)
  {
    var f := Filtrar(vs, DeHoy(hoy));
    FiltrarAgregar(vs, v, DeHoy(hoy));
    if EmpiezaCon(v.fechaVenta, hoy) {
      assert Totales(f + [v]) == Totales(f) + [v.total];
      SumaAgregar(Totales(f), v.total);
    } else {
      assert Filtrar(vs + [v], DeHoy(hoy)) == f;
    }
  }

  /** The clients counted are exactly the distinct `id_cliente` values of the
      sales, null being one value. */
  lemma {:induction false} ClientesDistintos(vs: seq<VentaD>)
    ensures Clientes(vs) == set i | 0 <= i < |vs| :: vs[i].idCliente
  {
    if vs != [] {
      var init, v := vs[..|vs| - 1], vs[|vs| - 1];
      ClientesDistintos(init);
      var antes := set i | 0 <= i < |init| :: init[i].idCliente;
      var todos := set i | 0 <= i < |vs| :: vs[i].idCliente;
      forall c | c in todos ensures c in antes || c == v.idCliente {
        var i :| 0 <= i < |vs| && vs[i].idCliente == c;
        if i < |init| {
          assert init[i] == vs[i];
        }
      }
      forall c | c in antes ensures c in todos {
        var i :| 0 <= i < |init| && init[i].idCliente == c;
        assert vs[i] == init[i];
      }
      assert v.idCliente in todos;
    }
  }

  /** There are never more clients than sales. */
  lemma {:induction false} ClientesCota(vs: seq<VentaD>)
    ensures TotalClientes(vs) <= |vs|
  {
    if vs != [] {
      var init := vs[..|vs| - 1];
      ClientesCota(init);
      var c := Clientes(init);
      var x := vs[|vs| - 1].idCliente;
      assert |c + {x}| <= |c| + 1 by {
        if x in c {
          assert c + {x} == c;
        }
      }
    }
  }

  /** The dashboard counts strictly below the minimum, while the backend's
      `necesita_reposicion` also counts stock equal to it: the two counts
      differ by exactly the products sitting on their minimum. */
  lemma {:induction false} PocoStockFrenteAReposicion(ps: seq<ProductoD>)
    ensures ProductosPocoStock(ps) + |Filtrar(ps, (p: ProductoD) => p.stock == p.stockMinimo)|
         == |Filtrar(ps, (p: ProductoD) => p.stock <= p.stockMinimo)|
  {
    if ps != [] {
      var init := ps[..|ps| - 1];
      PocoStockFrenteAReposicion(init);
    }
  }

  // ---------------------------------------------------------------------------
  // The chart series

  /** The comparator `new Date(b.fecha_venta) - new Date(a.fecha_venta)`: most
      recent first. */
  function MasReciente(): VentaD -> int
  {
    (v: VentaD) => -v.instante
  }

  function Invertir<T>(s: seq<T>): (r: seq<T>)
    ensures |r| == |s| && forall i :: 0 <= i < |s| ==> r[i] == s[|s| - 1 - i]
  {
    seq(|s|, i requires 0 <= i < |s| => s[|s| - 1 - i])
  }

  function Puntos(vs: seq<VentaD>): (r: seq<Punto>)
    ensures |r| == |vs|
    ensures forall i :: 0 <= i < |vs| ==> r[i] == Punto(AntesDeT(vs[i].fechaVenta), vs[i].total, vs[i].idVenta)
  {
    seq(|vs|, i requires 0 <= i < |vs| => Punto(AntesDeT(vs[i].fechaVenta), vs[i].total, vs[i].idVenta))
  }

  function Min(a: int, b: int): int { if a <= b then a else b }

  const MAX_SERIE := 30
  const MAX_ULTIMAS := 5

  /** The sales behind `ventasOrdenadas`: sorted newest first, the first 30
      kept, reversed. */
  function Elegidas(vs: seq<VentaD>): seq<VentaD>
  {
    var ordenadas := Ordenar(vs, MasReciente());
    Invertir(ordenadas[..Min(MAX_SERIE, |ordenadas|)])
  }

  /** `ventasOrdenadas`. Mapping to points before or after reversing gives the
      same sequence. */
  function Serie(vs: seq<VentaD>): seq<Punto>
  {
    Puntos(Elegidas(vs))
  }

  /** The series holds at most 30 points and they come from the 30 most recent
      sales: every sale left out is no more recent than any sale kept, and
      together they are all the sales. */
  lemma {:induction false} SerieRecientes(vs: seq<VentaD>)
    ensures var s := Ordenar(vs, MasReciente()); var k := Min(MAX_SERIE, |vs|); var e := Elegidas(vs);
      && |e| == k && |Serie(vs)| == k
      && multiset(e) + multiset(s[k..]) == multiset(vs)
      && (forall i, j :: 0 <= i < k && 0 <= j < |s| - k ==> s[k..][j].instante <= e[i].instante)
  {
    var s := Ordenar(vs, MasReciente());
    var k := Min(MAX_SERIE, |vs|);
    var e := Elegidas(vs);
    assert s == s[..k] + s[k..];
    InvertirMultiset(s[..k]);
    assert multiset(e) + multiset(s[k..]) == multiset(vs);
    TopK(s, k);
  }

  lemma {:induction false} TopK(s: seq<VentaD>, k: nat)
    requires k <= |s| && Ordenada(s, MasReciente())
    ensures forall i, j :: 0 <= i < k && 0 <= j < |s| - k ==> s[k..][j].instante <= Invertir(s[..k])[i].instante
  {
    var e := Invertir(s[..k]);
    forall i, j | 0 <= i < k && 0 <= j < |s| - k ensures s[k..][j].instante <= e[i].instante {
      assert e[i] == s[k - 1 - i];
      assert MasReciente()(s[k - 1 - i]) <= MasReciente()(s[k + j]);
    }
  }

  /** The series is oldest first. */
  lemma {:induction false} SerieAscendente(vs: seq<VentaD>)
    ensures var e := Elegidas(vs);
      forall i, j :: 0 <= i < j < |e| ==> e[i].instante <= e[j].instante
  {
    var s := Ordenar(vs, MasReciente());
    var k := Min(MAX_SERIE, |vs|);
    var e := Elegidas(vs);
    forall i, j | 0 <= i < j < k ensures e[i].instante <= e[j].instante {
      assert e[i] == s[k - 1 - i] && e[j] == s[k - 1 - j];
      assert MasReciente()(s[k - 1 - j]) <= MasReciente()(s[k - 1 - i]);
    }
  }

  lemma {:induction false} InvertirMultiset<T>(s: seq<T>)
    ensures multiset(Invertir(s)) == multiset(s)
  {
    if s != [] {
      var r := Invertir(s);
      InvertirMultiset(s[1..]);
      assert Invertir(s[1..]) == r[..|s| - 1];
      assert r == r[..|s| - 1] + [s[0]];
      assert s == [s[0]] + s[1..];
    }
  }

  /** `ventasRecientes.slice(-5)`. */
  function Ultimas<T>(s: seq<T>): (r: seq<T>)
    ensures |r| == Min(MAX_ULTIMAS, |s|)
    ensures forall i :: 0 <= i < |r| ==> r[i] == s[|s| - |r| + i]
  {
    s[|s| - Min(MAX_ULTIMAS, |s|)..]
  }

  /** The transactions list shows the five most recent sales, still oldest
      first. */
  lemma {:induction false} UltimasRecientes(vs: seq<VentaD>)
    ensures var s := Ordenar(vs, MasReciente()); var n := Min(MAX_ULTIMAS, |vs|);
      Ultimas(Serie(vs)) == Puntos(Invertir(s[..n]))
  {
    var s := Ordenar(vs, MasReciente());
    var k := Min(MAX_SERIE, |vs|);
    var n := Min(MAX_ULTIMAS, |vs|);
    var e := Elegidas(vs);
    assert Ultimas(Puntos(e)) == Puntos(Ultimas(e));
    assert Ultimas(e) == Invertir(s[..k])[k - n..];
    InvertirCola(s, k, n);
  }

  /** The tail of the reversed first `k` is the reversed first `n`. */
  lemma InvertirCola<T>(s: seq<T>, k: nat, n: nat)
    requires n <= k <= |s|
    ensures Invertir(s[..k])[k - n..] == Invertir(s[..n])
  {
    var a, b := Invertir(s[..k])[k - n..], Invertir(s[..n]);
    forall i | 0 <= i < n ensures a[i] == b[i] {
      assert a[i] == s[n - 1 - i];
    }
  }

  // ---------------------------------------------------------------------------
  // Loading

  const ERROR_DASHBOARD := "Error al cargar los datos del dashboard"

  datatype Tablero = Tablero(stats: Estadisticas, ventasRecientes: seq<Punto>, error: Option<string>,
                             loading: bool)

  /** `fetchDashboardData`: when both lists arrive the statistics and the
      series are set; a failure leaves them and sets the error. Without
      `porDia` the week's figure uses the test as written (`VentasSemana`),
      with it the test by calendar day (`VentasSemanaPorDia`). */
  function Cargar(anterior: Tablero, datos: Option<(seq<VentaD>, seq<ProductoD>)>, hoy: string,
                  desde: string, porDia: bool): (r: Tablero)
    ensures !r.loading
    ensures datos.None? ==>
      r.stats == anterior.stats && r.ventasRecientes == anterior.ventasRecientes
      && r.error == Some(ERROR_DASHBOARD)
    ensures datos.Some? ==>
      r.stats.ventasHoy == VentasHoy(datos.value.0, hoy)
      && r.stats.ventasSemana == (if porDia then VentasSemanaPorDia(datos.value.0, desde, hoy)
                                  else VentasSemana(datos.value.0, desde, hoy))
      && r.stats.productosPocoStock == ProductosPocoStock(datos.value.1)
      && r.stats.totalClientes == TotalClientes(datos.value.0)
      && r.ventasRecientes == Serie(datos.value.0) && r.error == anterior.error
  {
    match datos
    case None => anterior.(error := Some(ERROR_DASHBOARD), loading := false)
    case Some((vs, ps)) =>
      anterior.(stats := Calcular(vs, ps, hoy, desde, porDia), ventasRecientes := Serie(vs), loading := false)
  }

  // ---------------------------------------------------------------------------
  // The week figure leaves out today's sales

  /** As written, a sale of today whose date carries a time part, as
      `fecha_venta.split('T')` expects, counts in `ventasHoy` but not in
      `ventasSemana`: the timestamp sorts after the bare date `hoy`. */
  lemma SemanaDejaFueraHoy(v: VentaD, hoy: string, hora: string, desde: string)
    requires v.fechaVenta == hoy + "T" + hora
    ensures DeHoy(hoy)(v) && !EnSemana(desde, hoy)(v)
  {
    assert v.fechaVenta == hoy + ("T" + hora);
    PrefijoMenor(hoy, "T" + hora);
  }

  /** The first `n` characters of `s`, or all of it. */
  function Prefijo(s: string, n: nat): string
  {
    if |s| <= n then s else s[..n]
  }

  /** The week test as intended: the calendar day of the sale lies between the
      two bounds, whatever follows the date. */
  function EnSemanaPorDia(desde: string, hoy: string): VentaD -> bool
  {
    (v: VentaD) => MenorIgual(desde, Prefijo(v.fechaVenta, |hoy|))
                   && MenorIgual(Prefijo(v.fechaVenta, |hoy|), hoy)
  }

  function VentasSemanaPorDia(vs: seq<VentaD>, desde: string, hoy: string): int
  {
    Suma(Totales(Filtrar(vs, EnSemanaPorDia(desde, hoy))))
  }

  /** With the intended test a sale dated today lies in the week. */
  lemma HoyEnSemana(v: VentaD, desde: string, hoy: string)
    requires MenorIgual(desde, hoy)
    ensures EmpiezaCon(v.fechaVenta, hoy) ==> EnSemanaPorDia(desde, hoy)(v)
  {
    if EmpiezaCon(v.fechaVenta, hoy) {
      assert Prefijo(v.fechaVenta, |hoy|) == hoy;
    }
  }

  /** With the intended test, every sale counted today is counted in the week,
      so with non-negative totals today's figure never exceeds the week's. */
  lemma {:induction false} HoyDentroDeSemana(vs: seq<VentaD>, desde: string, hoy: string)
    requires MenorIgual(desde, hoy)
    requires forall i :: 0 <= i < |vs| ==> vs[i].total >= 0
    ensures VentasHoy(vs, hoy) <= VentasSemanaPorDia(vs, desde, hoy)
  {
    if vs != [] {
      var init, v := vs[..|vs| - 1], vs[|vs| - 1];
      assert vs == init + [v];
      HoyDentroDeSemana(init, desde, hoy);
      VentasHoyAgregar(init, v, hoy);
      var f := Filtrar(init, EnSemanaPorDia(desde, hoy));
      FiltrarAgregar(init, v, EnSemanaPorDia(desde, hoy));
      if EnSemanaPorDia(desde, hoy)(v) {
        assert Totales(f + [v]) == Totales(f) + [v.total];
        SumaAgregar(Totales(f), v.total);
      } else {
        assert Filtrar(vs, EnSemanaPorDia(desde, hoy)) == f;
        HoyEnSemana(v, desde, hoy);
      }
    }
  }
}
