/** `cargarVentas` of `frontend/src/components/ventas/ListaVentas.jsx`: the
    request URL with its optional date filter, the checks on the answer, and
    the defaults every sale record is given before it is shown. The stored
    token, the server's answer and the current instant (`new Date()`) are
    parameters. */
module ListaVentas {
  import opened Comun

  const BASE := "http://localhost:8000/api/ventas/"
  const FILTRO := "?fecha="

  const SIN_TOKEN := "No se encontró el token de autenticación"
  const ERROR_CARGA := "Error al cargar las ventas"
  const FORMATO_INVALIDO := "El formato de datos recibido no es válido"

  const NOMBRE_POR_DEFECTO := "Cliente"
  const APELLIDO_POR_DEFECTO := "Desconocido"
  const METODO_POR_DEFECTO := "No especificado"

  // ---------------------------------------------------------------------------
  // The URL

  /** The list URL, with `?fecha=` only when a filter was typed. */
  function Url(filtroFecha: string): (r: string)
    ensures |BASE| <= |r| && r[..|BASE|] == BASE
    ensures filtroFecha == "" <==> r == BASE
  {
    if filtroFecha != "" then BASE + FILTRO + filtroFecha else BASE
  }

  /** Reads the filter back out of a URL built by `Url`. */
  function FiltroDeUrl(url: string): Option<string>
  {
    var n := |BASE + FILTRO|;
    if |url| >= n && url[..n] == BASE + FILTRO then Some(url[n..]) else None
  }

  /** The filter can be read back from the URL, and the URL of an empty filter
      carries none. */
  lemma UrlIda(filtroFecha: string)
    ensures FiltroDeUrl(Url(filtroFecha)) == if filtroFecha == "" then None else Some(filtroFecha)
  {
    var n := |BASE + FILTRO|;
    if filtroFecha != "" {
      assert Url(filtroFecha) == (BASE + FILTRO) + filtroFecha;
      assert Url(filtroFecha)[..n] == BASE + FILTRO;
    } else {
      assert |Url(filtroFecha)| < n;
    }
  }

  /** Different filters request different URLs. */
  lemma UrlInyectiva(f: string, g: string)
    requires Url(f) == Url(g)
    ensures f == g
  {
    UrlIda(f);
    UrlIda(g);
  }

  // ---------------------------------------------------------------------------
  // One record

  datatype ClienteCrudo = ClienteCrudo(nombre: Option<string>, apellido: Option<string>)

  /** `total` as received: a JavaScript number, or anything else (a decimal the
      server sends as a string, `null`, a missing field). */
  datatype TotalCrudo = Numero(valor: int) | NoNumero

  /** A sale as it arrives; every field may be missing. */
  datatype VentaCruda = VentaCruda(idVenta: Option<int>, cliente: Option<ClienteCrudo>,
                                   fechaVenta: Option<string>, total: TotalCrudo,
                                   metodoPago: Option<string>)

  /** A sale as the list shows it. */
  datatype VentaLista = VentaLista(idVenta: Option<int>, nombre: string, apellido: string,
                                   fechaVenta: string, total: int, metodoPago: string)

  /** `a || b` for an optional string. */
  function O(a: Option<string>, b: string): (r: string)
    ensures NoVacio(a) ==> r == a.value
    ensures !NoVacio(a) ==> r == b
  {
    if NoVacio(a) then a.value else b
  }

  /** The body of the `map` in `cargarVentas`; `ahora` is
      `new Date().toISOString()`. */
  function Validar(v: VentaCruda, ahora: string): (r: VentaLista)
    ensures r.idVenta == v.idVenta
    ensures r.nombre == if v.cliente.Some? && NoVacio(v.cliente.value.nombre)
                        then v.cliente.value.nombre.value else NOMBRE_POR_DEFECTO
    ensures r.apellido == if v.cliente.Some? && NoVacio(v.cliente.value.apellido)
                          then v.cliente.value.apellido.value else APELLIDO_POR_DEFECTO
    ensures r.fechaVenta == if NoVacio(v.fechaVenta) then v.fechaVenta.value else ahora
    ensures r.total == if v.total.Numero? then v.total.valor else 0
    ensures r.metodoPago == if NoVacio(v.metodoPago) then v.metodoPago.value else METODO_POR_DEFECTO
    ensures r.nombre != "" && r.apellido != "" && r.metodoPago != ""
    ensures ahora != "" ==> r.fechaVenta != ""
  {
    var nombre := if v.cliente.Some? then v.cliente.value.nombre else None;
    var apellido := if v.cliente.Some? then v.cliente.value.apellido else None;
    VentaLista(v.idVenta, O(nombre, NOMBRE_POR_DEFECTO), O(apellido, APELLIDO_POR_DEFECTO),
               O(v.fechaVenta, ahora), if v.total.Numero? then v.total.valor else 0,
               O(v.metodoPago, METODO_POR_DEFECTO))
  }

  /** A shown record, sent back as it is shown. */
  function Crudo(l: VentaLista): VentaCruda
  {
    VentaCruda(l.idVenta, Some(ClienteCrudo(Some(l.nombre), Some(l.apellido))), Some(l.fechaVenta),
               Numero(l.total), Some(l.metodoPago))
  }

  /** The defaults are a fixed point: a record already validated comes out of
      validation unchanged, whatever the instant. */
  lemma ValidarIdempotente(v: VentaCruda, ahora: string, despues: string)
    requires ahora != ""
    ensures Validar(Crudo(Validar(v, ahora)), despues) == Validar(v, ahora)
  {
  }

  /** `data.map(...)`. */
  function Normalizar(data: seq<VentaCruda>, ahora: string): (r: seq<VentaLista>)
    ensures |r| == |data|
    ensures forall i :: 0 <= i < |data| ==> r[i] == Validar(data[i], ahora)
  {
    seq(|data|, i requires 0 <= i < |data| => Validar(data[i], ahora))
  }

  /** Normalising a normalised list changes nothing. */
  lemma {:induction false} NormalizarIdempotente(data: seq<VentaCruda>, ahora: string, despues: string)
    requires ahora != ""
    ensures var l := Normalizar(data, ahora);
      Normalizar(seq(|l|, i requires 0 <= i < |l| => Crudo(l[i])), despues) == l
  {
    var l := Normalizar(data, ahora);
    var c := seq(|l|, i requires 0 <= i < |l| => Crudo(l[i]));
    forall i | 0 <= i < |l| ensures Normalizar(c, despues)[i] == l[i] {
      ValidarIdempotente(data[i], ahora, despues);
    }
  }

  // ---------------------------------------------------------------------------
  // Loading

  /** A body that parsed as JSON: an array of sales, or some other value. */
  datatype Cuerpo = Lista(ventas: seq<VentaCruda>) | NoLista

  /** What `fetch` brought back: a network failure, or an answer whose body is
      JSON or not (the error's message is a parameter). */
  datatype Respuesta =
    | FalloRed(mensaje: string)
    | Http(ok: bool, mensajeError: Option<string>, cuerpo: Result<Cuerpo>)

  datatype Estado = Estado(ventas: seq<VentaLista>, error: Option<string>, loading: bool)

  /** `cargarVentas`: the URL it requests (none without a token) and the state
      it leaves. */
  function Cargar(token: Option<string>, filtroFecha: string, respuesta: Respuesta, ahora: string)
    : (r: (Option<string>, Estado))
    ensures !r.1.loading
    ensures !NoVacio(token) ==> r.0 == None && r.1 == Estado([], Some(SIN_TOKEN), false)
    ensures NoVacio(token) ==> r.0 == Some(Url(filtroFecha))
    ensures r.1.error.Some? ==> r.1.ventas == [] && r.1.error.value != ""
    ensures r.1.error.None? <==>
      NoVacio(token) && respuesta.Http? && respuesta.ok && respuesta.cuerpo.Ok?
      && respuesta.cuerpo.value.Lista?
    ensures r.1.error.None? ==> r.1.ventas == Normalizar(respuesta.cuerpo.value.ventas, ahora)
    ensures NoVacio(token) && respuesta.Http? && !respuesta.ok ==>
      r.1.error == Some(O(respuesta.mensajeError, ERROR_CARGA))
    ensures NoVacio(token) && respuesta.Http? && respuesta.ok && respuesta.cuerpo.Ok?
            && respuesta.cuerpo.value.NoLista? ==>
      r.1.error == Some(FORMATO_INVALIDO)
  {
    if !NoVacio(token) then (None, Estado([], Some(SIN_TOKEN), false))
    else
      var url := Url(filtroFecha);
      var resultado: Result<seq<VentaLista>> :=
        match respuesta
        case FalloRed(m) => Err(m)
        case Http(ok, mensajeError, cuerpo) =>
          if !ok then Err(O(mensajeError, ERROR_CARGA))
          else match cuerpo
            case Err(m) => Err(m)
            case Ok(NoLista) => Err(FORMATO_INVALIDO)
            case Ok(Lista(data)) => Ok(Normalizar(data, ahora));
      match resultado
      case Ok(vs) => (Some(url), Estado(vs, None, false))
      case Err(m) => (Some(url), Estado([], Some(O(Some(m), ERROR_CARGA)), false))
  }
}
