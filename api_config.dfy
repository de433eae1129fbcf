/** The axios set-up of `frontend/src/services/api/config.js`: the endpoint
    paths, the request interceptor that attaches the bearer token, and the
    response interceptor that coordinates token refreshes. The module-level
    `isRefreshing` flag and `failedQueue` array become the fields of
    `Interceptor`; the promises become a sequential event machine: a failed
    response is one event, the end of the refresh call another. What a settled
    waiter does next is the pure function `Continuar`. */
module ApiConfig {
  import opened Comun

  // ---------------------------------------------------------------------------
  // Endpoints

  const LOGIN := "/api/token/"
  const REFRESH := "/api/token/refresh/"
  const ME := "/api/usuarios/me/"
  const LOGOUT := "/api/auth/logout/"
  const CLIENTES := "/api/clientes/"
  const VENTAS := "/api/ventas/"
  const PRODUCTOS := "/api/inventario/productos/"

  /** The path of one record of a collection: `${coleccion}${id}/`. */
  function Recurso(coleccion: string, id: string): (r: string)
    ensures |r| == |coleccion| + |id| + 1
    ensures r[..|coleccion|] == coleccion && r[|coleccion|..|r| - 1] == id && r[|r| - 1] == '/'
  {
    coleccion + id + "/"
  }

  /** `endpoints.cliente(id)`. */
  function Cliente(id: string): string { Recurso(CLIENTES, id) }

  /** `endpoints.venta(id)`. */
  function Venta(id: string): string { Recurso(VENTAS, id) }

  /** `endpoints.producto(id)`. */
  function ProductoRuta(id: string): string { Recurso(PRODUCTOS, id) }

  /** Recovers the id from a record path of a collection, when it is one. */
  function IdDeRecurso(coleccion: string, ruta: string): (r: Option<string>)
    ensures r.Some? ==> Recurso(coleccion, r.value) == ruta
  {
    if |ruta| > |coleccion| && ruta[..|coleccion|] == coleccion && ruta[|ruta| - 1] == '/' then
      var id := ruta[|coleccion|..|ruta| - 1];
      assert ruta == coleccion + id + "/";
      Some(id)
    else None
  }

  /** Every record path reads back as its id, so distinct ids give distinct paths. */
  lemma RecursoIda(coleccion: string, id: string)
    ensures IdDeRecurso(coleccion, Recurso(coleccion, id)) == Some(id)
  {
    var r := Recurso(coleccion, id);
    assert r[..|coleccion|] == coleccion;
    assert r[|coleccion|..|r| - 1] == id;
  }

  lemma RecursoInyectivo(coleccion: string, a: string, b: string)
    requires Recurso(coleccion, a) == Recurso(coleccion, b)
    ensures a == b
  {
    RecursoIda(coleccion, a);
    RecursoIda(coleccion, b);
  }

  // ---------------------------------------------------------------------------
  // Requests, settlements and what follows them

  /** A request config as the interceptors see it: `_retry` and the
      `Authorization` header. */
  datatype Peticion = Peticion(id: nat, retry: bool, authorization: Option<string>)

  /** The text of `` `Bearer ${token}` ``; a null token prints as "null". */
  function Bearer(token: Option<string>): string
  {
    "Bearer " + (if token.Some? then token.value else "null")
  }

  /** The request interceptor: the header is set from the stored access token
      only when that token is truthy. */
  function AlEnviar(p: Peticion, token: Option<string>): (r: Peticion)
    ensures r.id == p.id && r.retry == p.retry
    ensures NoVacio(token) ==> r.authorization == Some("Bearer " + token.value)
    ensures !NoVacio(token) ==> r == p
  {
    if NoVacio(token) then p.(authorization := Some(Bearer(token))) else p
  }

  /** How `processQueue` settled one waiter. */
  datatype Liquidacion =
    | Resuelta(peticion: Peticion, token: Option<string>)
    | Rechazada(peticion: Peticion, error: string)

  /** What a request that got a 401 ends in: replayed with new headers, or the
      rejection of an error. */
  datatype Desenlace = Reenviar(peticion: Peticion) | Rechazo(error: string)

  /** The settlements `processQueue(error, token)` makes, one per waiter, in queue
      order: all rejected when an error is given, all resolved with the token
      otherwise. */
  function Liquidaciones(cola: seq<Peticion>, error: Option<string>, token: Option<string>): (r: seq<Liquidacion>)
  {
    if cola == [] then []
    else
      Liquidaciones(cola[..|cola| - 1], error, token)
      + [if error.Some? then Rechazada(cola[|cola| - 1], error.value)
         else Resuelta(cola[|cola| - 1], token)]
  }

  /** Each waiter is settled once, in the position it was queued, and the kind
      of settlement follows `error`. */
  lemma {:induction false} LiquidacionesOrden(cola: seq<Peticion>, error: Option<string>, token: Option<string>)
    ensures var r := Liquidaciones(cola, error, token);
      && |r| == |cola|
      && forall i :: 0 <= i < |r| ==>
           r[i].peticion == cola[i]
           && (error.Some? ==> r[i] == Rechazada(cola[i], error.value))
           && (error.None? ==> r[i] == Resuelta(cola[i], token))
  {
    if cola != [] {
      LiquidacionesOrden(cola[..|cola| - 1], error, token);
    }
  }

  /** Settling two queues one after the other settles their concatenation. */
  lemma {:induction false} LiquidacionesConcatenar(a: seq<Peticion>, b: seq<Peticion>,
                                                  error: Option<string>, token: Option<string>)
    ensures Liquidaciones(a + b, error, token)
         == Liquidaciones(a, error, token) + Liquidaciones(b, error, token)
    decreases |b|
  {
    if b == [] {
      assert a + b == a;
    } else {
      var init := b[..|b| - 1];
      assert b == init + [b[|b| - 1]];
      assert (a + b)[..|a + b| - 1] == a + init;
      LiquidacionesConcatenar(a, init, error, token);
    }
  }

  /** The waiter's `.then`/`.catch`: a resolved waiter replays its request with
      `Bearer token`, a rejected one passes the error on. */
  function Continuar(l: Liquidacion): (d: Desenlace)
    ensures l.Resuelta? ==> d == Reenviar(l.peticion.(authorization := Some(Bearer(l.token))))
    ensures l.Rechazada? ==> d == Rechazo(l.error)
    ensures d.Reenviar? ==> d.peticion.id == l.peticion.id && d.peticion.retry == l.peticion.retry
  {
    match l
    case Resuelta(p, t) => Reenviar(p.(authorization := Some(Bearer(t))))
    case Rechazada(_, e) => Rechazo(e)
  }

  /** What the response interceptor returned right away for a failed response. */
  datatype Reaccion =
    | Encolada            // a refresh is in flight: wait for it in `failedQueue`
    | RefrescoIniciado    // this request started the refresh
    | Rechazar(error: string)

  /** How `TokenService.refreshAccessToken()` ended. */
  datatype ResultadoRefresco = NuevoToken(token: string) | FalloRefresco(error: string)

  /** The 401 test of the response interceptor. */
  predicate EntraEnRefresco(estado: Option<int>, p: Peticion)
  {
    estado == Some(401) && !p.retry
  }

  class Interceptor {
    var isRefreshing: bool
    var failedQueue: seq<Peticion>
    /** The stored access token, as `TokenService` keeps it. */
    var accessToken: Option<string>
    /** The request that started the refresh now in flight, marked `_retry`. */
    var enCurso: Option<Peticion>
    /** How many times `refreshAccessToken` was called. */
    var refrescos: nat
    /** Every settlement made by `processQueue`, in order. */
    var liquidadas: seq<Liquidacion>

    /** Waiters exist only while a refresh is in flight, and a refresh is in
        flight exactly when the flag is up. */
    ghost predicate Valid()
      reads this
    {
      && (isRefreshing <==> enCurso.Some?)
      && (!isRefreshing ==> failedQueue == [])
      && (enCurso.Some? ==> enCurso.value.retry)
    }

    constructor (token: Option<string>)
      ensures Valid()
      ensures !isRefreshing && failedQueue == [] && accessToken == token
      ensures enCurso == None && refrescos == 0 && liquidadas == []
    {
      isRefreshing := false;
      failedQueue := [];
      accessToken := token;
      enCurso := None;
      refrescos := 0;
      liquidadas := [];
    }

    /** `processQueue`: settles every waiter in order, then empties the queue. */
    method ProcesarCola(error: Option<string>, token: Option<string>)
      modifies this
      ensures liquidadas == old(liquidadas) + Liquidaciones(old(failedQueue), error, token)
      ensures failedQueue == []
      ensures isRefreshing == old(isRefreshing) && accessToken == old(accessToken)
      ensures enCurso == old(enCurso) && refrescos == old(refrescos)
    {
      var i := 0;
      while i < |failedQueue|
        invariant 0 <= i <= |failedQueue|
        invariant failedQueue == old(failedQueue)
        invariant liquidadas == old(liquidadas) + Liquidaciones(failedQueue[..i], error, token)
        invariant isRefreshing == old(isRefreshing) && accessToken == old(accessToken)
        invariant enCurso == old(enCurso) && refrescos == old(refrescos)
      {
        var prom := failedQueue[i];
        assert failedQueue[..i + 1][..i] == failedQueue[..i];
        if error.Some? {
          liquidadas := liquidadas + [Rechazada(prom, error.value)];
        } else {
          liquidadas := liquidadas + [Resuelta(prom, token)];
        }
        i := i + 1;
      }
      assert failedQueue[..i] == failedQueue;
      failedQueue := [];
    }

    /** The response interceptor's error handler. Only a 401 on a request not yet
        retried enters the refresh path: while a refresh is in flight it only
        queues the request; otherwise the request is marked `_retry`, the flag is
        raised and one refresh is started. Any other error is rejected as it is. */
    method AlFallarRespuesta(p: Peticion, estado: Option<int>, error: string) returns (r: Reaccion)
      requires Valid()
      modifies this
      ensures Valid()
      ensures !EntraEnRefresco(estado, p) ==>
        r == Rechazar(error) && isRefreshing == old(isRefreshing) && failedQueue == old(failedQueue)
        && enCurso == old(enCurso) && refrescos == old(refrescos)
      ensures EntraEnRefresco(estado, p) && old(isRefreshing) ==>
        r == Encolada && isRefreshing && failedQueue == old(failedQueue) + [p]
        && enCurso == old(enCurso) && refrescos == old(refrescos)
      ensures EntraEnRefresco(estado, p) && !old(isRefreshing) ==>
        r == RefrescoIniciado && isRefreshing && failedQueue == []
        && enCurso == Some(p.(retry := true)) && refrescos == old(refrescos) + 1
      ensures accessToken == old(accessToken) && liquidadas == old(liquidadas)
    {
      if EntraEnRefresco(estado, p) {
        if isRefreshing {
          failedQueue := failedQueue + [p];
          return Encolada;
        }
        enCurso := Some(p.(retry := true));
        isRefreshing := true;
        refrescos := refrescos + 1;
        return RefrescoIniciado;
      }
      return Rechazar(error);
    }

    /** The end of the refresh call. On a new token, which the token service
        has stored, the waiters are resolved with it and the starting request is
        replayed with `Bearer newToken`; on a
        failure they are rejected with the refresh error, the tokens are removed
        and that error is rejected. Either way the flag comes down. */
    method AlTerminarRefresco(res: ResultadoRefresco) returns (d: Desenlace)
      requires Valid() && isRefreshing
      modifies this
      ensures Valid()
      ensures !isRefreshing && failedQueue == [] && enCurso == None
      ensures refrescos == old(refrescos)
      ensures res.NuevoToken? ==>
        liquidadas == old(liquidadas) + Liquidaciones(old(failedQueue), None, Some(res.token))
        && d == Reenviar(old(enCurso).value.(authorization := Some("Bearer " + res.token)))
        && accessToken == Some(res.token)
      ensures res.FalloRefresco? ==>
        liquidadas == old(liquidadas) + Liquidaciones(old(failedQueue), Some(res.error), None)
        && d == Rechazo(res.error) && accessToken == None
    {
      var original := enCurso.value;
      match res {
        case NuevoToken(t) =>
          accessToken := Some(t);
          ProcesarCola(None, Some(t));
          d := Reenviar(original.(authorization := Some(Bearer(Some(t)))));
        case FalloRefresco(e) =>
          ProcesarCola(Some(e), None);
          accessToken := None;
          d := Rechazo(e);
      }
      isRefreshing := false;
      enCurso := None;
    }
  }

  /** A burst of 401s starts one refresh only: the first request starts it,
      every later one waits in the queue, and when the refresh succeeds each
      waiter is resolved in its turn and replayed with the new token, while the
      first request is replayed too, marked `_retry`. */
  method RafagaUnRefresco(a: Peticion, bs: seq<Peticion>, t: string)
    returns (refrescos: nat, primera: Desenlace, resto: seq<Desenlace>)
    requires !a.retry
    requires forall i :: 0 <= i < |bs| ==> !bs[i].retry
    ensures refrescos == 1
    ensures primera == Reenviar(a.(retry := true, authorization := Some("Bearer " + t)))
    ensures |resto| == |bs|
    ensures forall i :: 0 <= i < |bs| ==> resto[i] == Reenviar(bs[i].(authorization := Some("Bearer " + t)))
  {
    var it := new Interceptor(None);
    var r1 := it.AlFallarRespuesta(a, Some(401), "401");
    var i := 0;
    while i < |bs|
      invariant 0 <= i <= |bs|
      invariant it.Valid() && it.isRefreshing
      invariant it.failedQueue == bs[..i]
      invariant it.enCurso == Some(a.(retry := true)) && it.refrescos == 1
      invariant it.liquidadas == []
    {
      var r := it.AlFallarRespuesta(bs[i], Some(401), "401");
      assert bs[..i + 1] == bs[..i] + [bs[i]];
      i := i + 1;
    }
    assert bs[..i] == bs;
    primera := it.AlTerminarRefresco(NuevoToken(t));
    LiquidacionesOrden(bs, None, Some(t));
    resto := [];
    var j := 0;
    while j < |bs|
      invariant 0 <= j <= |bs|
      invariant |resto| == j
      invariant forall k :: 0 <= k < j ==> resto[k] == Reenviar(bs[k].(authorization := Some("Bearer " + t)))
    {
      resto := resto + [Continuar(it.liquidadas[j])];
      j := j + 1;
    }
    refrescos := it.refrescos;
  }
}
