/** The message board of `frontend/src/components/MessageBoard.jsx`: the tag
    list `handleAddTag` patches onto a message, the `tags_list` of a new message,
    and the handling of an expired token. The stored token (`localStorage`) and
    the lists fetched from the server are fields of `Tablero`; every server
    answer is a parameter. */
module MessageBoard {
  import opened Comun
  import opened MessageList

  const NO_ENCONTRADO := "Message not found"
  const FALLO_ETIQUETA := "Failed to add tag"

  /** `messages.find(m => m.id === id)`, as an index. */
  function BuscarMensaje(ms: seq<Mensaje>, id: int): (r: Option<nat>)
    ensures r.Some? ==> r.value < |ms| && ms[r.value].id == id
    ensures r.Some? ==> forall k :: 0 <= k < r.value ==> ms[k].id != id
    ensures r.None? <==> forall k :: 0 <= k < |ms| ==> ms[k].id != id
  {
    Primero(ms, (x: Mensaje) => x.id == id)
  }


  /** `message.tags.map(tag => tag.nombre)`. */
  function Nombres(tags: seq<Etiqueta>): (r: seq<string>)
    ensures |r| == |tags| && forall i :: 0 <= i < |r| ==> r[i] == tags[i].nombre
  {
    seq(|tags|, i requires 0 <= i < |tags| => tags[i].nombre)
  }

  /** What `handleAddTag` decides before any request. */
  datatype Plan =
    | NoEncontrado              // throws 'Message not found'
    | YaExiste                  // alerts and returns without a request
    | Parche(tagsList: seq<string>)

  /** The tag computation of `handleAddTag`. */
  function PlanAgregar(ms: seq<Mensaje>, id: int, nuevo: string): (r: Plan)
    ensures r == NoEncontrado <==> forall k :: 0 <= k < |ms| ==> ms[k].id != id
    ensures r == YaExiste <==>
      BuscarMensaje(ms, id).Some? && nuevo in Nombres(ms[BuscarMensaje(ms, id).value].tags)
    ensures r.Parche? ==>
      var existentes := Nombres(ms[BuscarMensaje(ms, id).value].tags);
      && nuevo !in existentes
      && |r.tagsList| == |existentes| + 1
      && r.tagsList[..|existentes|] == existentes
      && r.tagsList[|existentes|] == nuevo
  {
    match BuscarMensaje(ms, id)
    case None => NoEncontrado
    case Some(k) =>
      var existingTags := Nombres(ms[k].tags);
      if nuevo in existingTags then YaExiste
      else Parche(existingTags + [nuevo])
  }

  ghost predicate SinRepetidos(s: seq<string>)
  {
    forall i, j :: 0 <= i < j < |s| ==> s[i] != s[j]
  }

  /** A patch never repeats a tag name that the message did not already repeat. */
  lemma ParcheSinRepetidos(ms: seq<Mensaje>, id: int, nuevo: string)
    requires PlanAgregar(ms, id, nuevo).Parche?
    requires SinRepetidos(Nombres(ms[BuscarMensaje(ms, id).value].tags))
    ensures SinRepetidos(PlanAgregar(ms, id, nuevo).tagsList)
  {
    var t := PlanAgregar(ms, id, nuevo).tagsList;
    var e := Nombres(ms[BuscarMensaje(ms, id).value].tags);
    forall i, j | 0 <= i < j < |t| ensures t[i] != t[j] {
      if j == |e| {
        assert t[i] == e[i];
      } else {
        assert t[i] == e[i] && t[j] == e[j];
      }
    }
  }

  /** `newTag ? [newTag] : []`. */
  function TagsNuevoMensaje(newTag: string): (r: seq<string>)
    ensures |r| <= 1
    ensures newTag in r <==> newTag != ""
  {
    if newTag != "" then [newTag] else []
  }

  /** A message stored with that `tags_list` is grouped under the new tag when
      one was given, and under `no_tags` otherwise. */
  lemma NuevoMensajeAgrupado(id: int, contenido: string, newTag: string, tagId: int)
    ensures var nombres := TagsNuevoMensaje(newTag);
      var m := Mensaje(id, contenido, seq(|nombres|, i requires 0 <= i < |nombres| => Etiqueta(tagId, nombres[i])));
      Claves(m) == [if newTag != "" then newTag else SIN_TAGS]
  {
  }

  /** An HTTP answer: its status and, for errors, the `detail` of its body. */
  datatype Respuesta = Respuesta(status: int, detail: Option<string>)

  /** A GET of a list: either it did not get through, or an answer with a body. */
  datatype Lectura<T> = FalloRed | Leida(status: int, datos: seq<T>)

  /** `response.ok`. */
  predicate EsOk(status: int)
  {
    200 <= status < 300
  }

  /** The read was answered with 401, which ends the session. */
  predicate Expira<T>(r: Lectura<T>)
  {
    r.Leida? && r.status == 401
  }

  /** The list a read leaves: its data on an OK answer, `previa` otherwise. */
  function Recibida<T>(r: Lectura<T>, previa: seq<T>): (l: seq<T>)
    ensures l == previa || (r.Leida? && EsOk(r.status) && l == r.datos)
  {
    if r.Leida? && EsOk(r.status) then r.datos else previa
  }

  /** How `handleAddTag` ended. */
  datatype Salida = Lanza(mensaje: string) | Vuelve | Exito

  class Tablero {
    var messages: seq<Mensaje>
    var tags: seq<Etiqueta>
    /** The token kept in `localStorage`. */
    var token: Option<string>
    /** Whether `navigate('/login')` was called. */
    var enLogin: bool

    constructor (t: Option<string>)
      ensures messages == [] && tags == [] && token == t && !enLogin
    {
      messages, tags := [], [];
      token := t;
      enLogin := false;
    }

    /** `handleTokenExpiration`. */
    method Expirar()
      modifies this
      ensures token == None && enLogin
      ensures messages == old(messages) && tags == old(tags)
    {
      token := None;
      enLogin := true;
    }

    /** `fetchMessages`: a 401 removes the token and leaves the list; any other
        failure only alerts; an OK answer replaces the list. */
    method FetchMessages(r: Lectura<Mensaje>)
      modifies this
      ensures r.Leida? && r.status == 401 ==> token == None && enLogin && messages == old(messages)
      ensures r.Leida? && EsOk(r.status) ==> messages == r.datos && token == old(token) && enLogin == old(enLogin)
      ensures (r.FalloRed? || (r.status != 401 && !EsOk(r.status))) ==>
        messages == old(messages) && token == old(token) && enLogin == old(enLogin)
      ensures tags == old(tags)
    {
      match r {
        case FalloRed =>
        case Leida(status, datos) =>
          if status == 401 {
            Expirar();
          } else if EsOk(status) {
            messages := datos;
          }
      }
    }

    /** `fetchTags`, the same handling for the tag list. */
    method FetchTags(r: Lectura<Etiqueta>)
      modifies this
      ensures r.Leida? && r.status == 401 ==> token == None && enLogin && tags == old(tags)
      ensures r.Leida? && EsOk(r.status) ==> tags == r.datos && token == old(token) && enLogin == old(enLogin)
      ensures (r.FalloRed? || (r.status != 401 && !EsOk(r.status))) ==>
        tags == old(tags) && token == old(token) && enLogin == old(enLogin)
      ensures messages == old(messages)
    {
      match r {
        case FalloRed =>
        case Leida(status, datos) =>
          if status == 401 {
            Expirar();
          } else if EsOk(status) {
            tags := datos;
          }
      }
    }

    /** `handleAddTag`: an unknown message throws and a tag already on it returns
        early, both without a request; otherwise the patch is sent and a 401
        removes the token and returns, another failure throws the server's
        `detail` or a default message, and a success reloads the messages. */
    method HandleAddTag(messageId: int, newTag: string, respuesta: Respuesta, recarga: Lectura<Mensaje>)
      returns (enviado: Option<seq<string>>, salida: Salida)
      modifies this
      ensures var plan := PlanAgregar(old(messages), messageId, newTag);
        && (plan == NoEncontrado ==> enviado == None && salida == Lanza(NO_ENCONTRADO))
        && (plan == YaExiste ==> enviado == None && salida == Vuelve)
        && (plan.Parche? ==> enviado == Some(plan.tagsList))
      ensures enviado.None? || (respuesta.status != 401 && !EsOk(respuesta.status)) ==>
        messages == old(messages) && token == old(token) && enLogin == old(enLogin)
      ensures enviado.Some? && respuesta.status == 401 ==>
        salida == Vuelve && token == None && enLogin && messages == old(messages)
      ensures enviado.Some? && respuesta.status != 401 && !EsOk(respuesta.status) ==>
        salida == Lanza(if NoVacio(respuesta.detail) then respuesta.detail.value else FALLO_ETIQUETA)
      ensures enviado.Some? && EsOk(respuesta.status) ==>
        && salida == Exito
        && messages == Recibida(recarga, old(messages))
        && token == (if Expira(recarga) then None else old(token))
        && enLogin == (old(enLogin) || Expira(recarga))
      ensures tags == old(tags)
    {
      var plan := PlanAgregar(messages, messageId, newTag);
      match plan {
        case NoEncontrado =>
          return None, Lanza(NO_ENCONTRADO);
        case YaExiste =>
          return None, Vuelve;
        case Parche(updatedTags) =>
          enviado := Some(updatedTags);
          if respuesta.status == 401 {
            Expirar();
            return enviado, Vuelve;
          }
          if !EsOk(respuesta.status) {
            return enviado, Lanza(if NoVacio(respuesta.detail) then respuesta.detail.value else FALLO_ETIQUETA);
          }
          FetchMessages(recarga);
          return enviado, Exito;
      }
    }

    /** `handleAddMessage`: posts the content with `tags_list`; a 401 removes the
        token, a success reloads messages and tags. */
    method HandleAddMessage(newMessage: string, newTag: string, respuesta: Respuesta,
                            recargaMensajes: Lectura<Mensaje>, recargaTags: Lectura<Etiqueta>)
      returns (tagsList: seq<string>)
      modifies this
      ensures tagsList == TagsNuevoMensaje(newTag)
      ensures respuesta.status == 401 ==>
        token == None && enLogin && messages == old(messages) && tags == old(tags)
      ensures respuesta.status != 401 && !EsOk(respuesta.status) ==>
        token == old(token) && enLogin == old(enLogin) && messages == old(messages) && tags == old(tags)
      ensures EsOk(respuesta.status) ==>
        && messages == Recibida(recargaMensajes, old(messages))
        && tags == Recibida(recargaTags, old(tags))
        && token == (if Expira(recargaMensajes) || Expira(recargaTags) then None else old(token))
        && enLogin == (old(enLogin) || Expira(recargaMensajes) || Expira(recargaTags))
    {
      tagsList := TagsNuevoMensaje(newTag);
      if respuesta.status == 401 {
        Expirar();
        return;
      }
      if !EsOk(respuesta.status) {
        return;
      }
      FetchMessages(recargaMensajes);
      FetchTags(recargaTags);
    }
  }
}
