/** The tag sidebar of `frontend/src/components/TagList.jsx`: tags are sorted by
    their configured order and split into visible and hidden lists; a toggle
    moves one tag between the lists once the server accepted it; a drag
    reorders the visible list and posts the new order. The component's state
    hooks are the fields of `TagList`; the server answers are parameters. */
module TagList {
  import opened Comun
  import opened Ordenacion

  datatype Tag = Tag(id: int, nombre: string)

  /** One entry of `/api/tags/visibility/`. */
  datatype Config = Config(tagId: int, order: int, isHidden: bool)

  /** One entry of the `tag_order` posted after a drag. */
  datatype EntradaOrden = EntradaOrden(tagId: int, order: int)

  /** `visibilityMap.get(id)`: the map is built from the configs in order, so
      the last config of a tag wins. */
  function ConfigDe(configs: seq<Config>, id: int): (r: Option<Config>)
    ensures r.Some? ==> r.value in configs && r.value.tagId == id
    ensures r.None? <==> forall k :: 0 <= k < |configs| ==> configs[k].tagId != id
  {
    if configs == [] then None
    else if configs[|configs| - 1].tagId == id then Some(configs[|configs| - 1])
    else ConfigDe(configs[..|configs| - 1], id)
  }

  /** `visibilityMap.get(t.id)?.order ?? 0`. */
  function Orden(configs: seq<Config>, t: Tag): int
  {
    match ConfigDe(configs, t.id)
    case Some(c) => c.order
    case None => 0
  }

  /** `visibilityMap.get(t.id)?.is_hidden`, with a missing config as not hidden. */
  predicate Oculto(configs: seq<Config>, t: Tag)
  {
    ConfigDe(configs, t.id).Some? && ConfigDe(configs, t.id).value.isHidden
  }

  /** The sort key and the two filter tests, as the values handed to `sort` and
      `filter`. */
  function ClaveOrden(configs: seq<Config>): Tag -> int
  {
    (t: Tag) => Orden(configs, t)
  }

  function EsVisible(configs: seq<Config>): Tag -> bool
  {
    (t: Tag) => !Oculto(configs, t)
  }

  function EsOculto(configs: seq<Config>): Tag -> bool
  {
    (t: Tag) => Oculto(configs, t)
  }

  /** `sortedTags`. */
  function Ordenados(tags: seq<Tag>, configs: seq<Config>): seq<Tag>
  {
    Ordenar(tags, ClaveOrden(configs))
  }

  function Visibles(tags: seq<Tag>, configs: seq<Config>): seq<Tag>
  {
    Filtrar(Ordenados(tags, configs), EsVisible(configs))
  }

  function Ocultos(tags: seq<Tag>, configs: seq<Config>): seq<Tag>
  {
    Filtrar(Ordenados(tags, configs), EsOculto(configs))
  }

  /** The sorted tags are a permutation of the fetched ones, ordered by the
      configured order with a missing config counting as 0. */
  lemma OrdenadosPermutacion(tags: seq<Tag>, configs: seq<Config>)
    ensures var s := Ordenados(tags, configs);
      && multiset(s) == multiset(tags)
      && forall i, j :: 0 <= i < j < |s| ==> Orden(configs, s[i]) <= Orden(configs, s[j])
  {
    var s := Ordenados(tags, configs);
    assert Ordenada(s, ClaveOrden(configs));
    forall i, j | 0 <= i < j < |s| ensures Orden(configs, s[i]) <= Orden(configs, s[j]) {
      assert ClaveOrden(configs)(s[i]) <= ClaveOrden(configs)(s[j]);
    }
  }

  /** Visible and hidden split the sorted tags: the lengths add up, together they
      hold every tag, each keeps the sorted order and each holds only tags of
      its kind. */
  lemma Particion(tags: seq<Tag>, configs: seq<Config>)
    ensures var v, h := Visibles(tags, configs), Ocultos(tags, configs);
      && |v| + |h| == |tags|
      && multiset(v) + multiset(h) == multiset(tags)
      && (forall i :: 0 <= i < |v| ==> !Oculto(configs, v[i]))
      && (forall i :: 0 <= i < |h| ==> Oculto(configs, h[i]))
      && Ordenada(v, ClaveOrden(configs)) && Ordenada(h, ClaveOrden(configs))
  {
    var s := Ordenados(tags, configs);
    FiltrarComplemento(s, EsOculto(configs), EsVisible(configs));
    FiltrarOrdenada(s, EsVisible(configs), ClaveOrden(configs));
    FiltrarOrdenada(s, EsOculto(configs), ClaveOrden(configs));
  }

  /** `find(t => t.id === id)`, as an index. */
  function Posicion(ts: seq<Tag>, id: int): (r: Option<nat>)
    ensures r.Some? ==> r.value < |ts| && ts[r.value].id == id
    ensures r.Some? ==> forall k :: 0 <= k < r.value ==> ts[k].id != id
    ensures r.None? <==> forall k :: 0 <= k < |ts| ==> ts[k].id != id
  {
    Primero(ts, (x: Tag) => x.id == id)
  }


  /** The test `t => t.id !== id`. */
  function DeOtroTag(id: int): Tag -> bool
  {
    (t: Tag) => t.id != id
  }

  ghost predicate IdsDistintos(ts: seq<Tag>)
  {
    forall i, j :: 0 <= i < j < |ts| ==> ts[i].id != ts[j].id
  }

  /** With distinct ids no tag occurs twice. */
  lemma {:induction false} DistintosUnaVez(ts: seq<Tag>, x: Tag)
    requires IdsDistintos(ts)
    ensures multiset(ts)[x] <= 1
  {
    if ts != [] {
      var init, t := ts[..|ts| - 1], ts[|ts| - 1];
      assert ts == init + [t];
      assert IdsDistintos(init) by {
        forall i, j | 0 <= i < j < |init| ensures init[i].id != init[j].id {
          assert init[i] == ts[i] && init[j] == ts[j];
        }
      }
      DistintosUnaVez(init, x);
      assert t !in init by {
        forall i | 0 <= i < |init| ensures init[i] != t {
          assert init[i] == ts[i];
        }
      }
    }
  }

  /** Two positions holding the same tag count it twice. */
  lemma DosVeces(b: seq<Tag>, i: nat, j: nat)
    requires i < j < |b|
    ensures multiset(b)[b[i]] >= if b[i] == b[j] then 2 else 1
  {
    assert b == b[..i] + [b[i]] + b[i + 1..j] + [b[j]] + b[j + 1..];
  }

  /** Tags fetched with distinct ids stay distinct across the two lists. */
  lemma ParticionDistinta(tags: seq<Tag>, configs: seq<Config>)
    requires IdsDistintos(tags)
    ensures IdsDistintos(Visibles(tags, configs) + Ocultos(tags, configs))
  {
    var v, h := Visibles(tags, configs), Ocultos(tags, configs);
    Particion(tags, configs);
    assert multiset(v + h) == multiset(tags);
    DistintosPermutacion(tags, v + h);
  }

  /** Distinct ids survive any rearrangement of the same tags. */
  lemma DistintosPermutacion(a: seq<Tag>, b: seq<Tag>)
    requires multiset(a) == multiset(b) && IdsDistintos(a)
    ensures IdsDistintos(b)
  {
    forall i, j | 0 <= i < j < |b| ensures b[i].id != b[j].id {
      DosVeces(b, i, j);
      DistintosUnaVez(a, b[i]);
      assert b[i] != b[j];
      assert b[i] in multiset(a) && b[j] in multiset(a);
      var p :| 0 <= p < |a| && a[p] == b[i];
      var q :| 0 <= q < |a| && a[q] == b[j];
      assert p != q;
    }
  }

  /** With distinct ids, dropping the tags of the id found at `k` drops just
      that one. */
  lemma {:induction false} QuitarTag(desde: seq<Tag>, id: int, k: nat)
    requires IdsDistintos(desde) && Posicion(desde, id) == Some(k)
    ensures Filtrar(desde, DeOtroTag(id)) == desde[..k] + desde[k + 1..]
  {
    assert forall j :: 0 <= j < |desde| && j != k ==> desde[j].id != id;
    FiltrarUnico(desde, DeOtroTag(id), k);
  }

  /** Moving the element at `k` to the end of another list keeps the combined
      multiset. */
  lemma MoverMultiset(desde: seq<Tag>, hacia: seq<Tag>, k: nat)
    requires k < |desde|
    ensures multiset(hacia + [desde[k]]) + multiset(desde[..k] + desde[k + 1..])
         == multiset(hacia) + multiset(desde)
    ensures multiset(desde[..k] + desde[k + 1..]) + multiset(hacia + [desde[k]])
         == multiset(desde) + multiset(hacia)
  {
    var resto := desde[..k] + desde[k + 1..];
    assert desde == desde[..k] + [desde[k]] + desde[k + 1..];
    assert multiset(desde) == multiset(resto) + multiset{desde[k]};
    assert multiset(hacia + [desde[k]]) == multiset(hacia) + multiset{desde[k]};
  }

  /** `handleDragEnd`'s two splices: take the tag at `origen` out, then insert it
      at `destino`. */
  function Reordenar(s: seq<Tag>, origen: nat, destino: nat): (r: seq<Tag>)
    requires origen < |s| && destino < |s|
    ensures |r| == |s| && r[destino] == s[origen]
    ensures r[..destino] + r[destino + 1..] == s[..origen] + s[origen + 1..]
  {
    var resto := s[..origen] + s[origen + 1..];
    var r := resto[..destino] + [s[origen]] + resto[destino..];
    assert r[..destino] == resto[..destino];
    assert r[destino + 1..] == resto[destino..];
    r
  }

  /** A reorder is a permutation of the visible tags. */
  lemma ReordenarPermutacion(s: seq<Tag>, origen: nat, destino: nat)
    requires origen < |s| && destino < |s|
    ensures multiset(Reordenar(s, origen, destino)) == multiset(s)
  {
    var r := Reordenar(s, origen, destino);
    assert r == r[..destino] + [r[destino]] + r[destino + 1..];
    assert multiset(r) == multiset(r[..destino] + r[destino + 1..]) + multiset{r[destino]};
    assert s == s[..origen] + [s[origen]] + s[origen + 1..];
    assert multiset(s) == multiset(s[..origen] + s[origen + 1..]) + multiset{s[origen]};
  }

  /** `reorderedTags.map((tag, index) => ({ tag_id: tag.id, order: index }))`. */
  function PayloadOrden(s: seq<Tag>): (r: seq<EntradaOrden>)
    ensures |r| == |s|
    ensures forall i :: 0 <= i < |r| ==> r[i].tagId == s[i].id
  {
    seq(|s|, i requires 0 <= i < |s| => EntradaOrden(s[i].id, i))
  }

  /** The configs the server would hold after storing a posted order. */
  function ConfigsDeOrden(e: seq<EntradaOrden>): seq<Config>
  {
    seq(|e|, i requires 0 <= i < |e| => Config(e[i].tagId, e[i].order, false))
  }

  /** The posted order numbers the tags 0..n-1, so loading them again with that
      order gives back the same list, all of it visible. */
  lemma {:induction false} PayloadRecarga(s: seq<Tag>)
    requires IdsDistintos(s)
    ensures var configs := ConfigsDeOrden(PayloadOrden(s));
      Ordenados(s, configs) == s && Visibles(s, configs) == s
  {
    var configs := ConfigsDeOrden(PayloadOrden(s));
    ConfigsDeOrdenDistintos(s);
    forall i | 0 <= i < |s| ensures ConfigDe(configs, s[i].id) == Some(Config(s[i].id, i, false)) {
      ConfigDeUnico(configs, i);
    }
    assert Ordenada(s, ClaveOrden(configs)) by {
      forall i, j | 0 <= i < j < |s| ensures ClaveOrden(configs)(s[i]) <= ClaveOrden(configs)(s[j]) {
        assert Orden(configs, s[i]) == i && Orden(configs, s[j]) == j;
      }
    }
    OrdenarOrdenada(s, ClaveOrden(configs));
    forall x | x in s ensures EsVisible(configs)(x) {
      var i :| 0 <= i < |s| && s[i] == x;
    }
    FiltrarTodo(s, EsVisible(configs));
  }

  /** With distinct ids, the config found for the `i`-th id is the `i`-th. */
  lemma {:induction false} ConfigDeUnico(configs: seq<Config>, i: nat)
    requires i < |configs|
    requires forall a, b :: 0 <= a < b < |configs| ==> configs[a].tagId != configs[b].tagId
    ensures ConfigDe(configs, configs[i].tagId) == Some(configs[i])
    decreases |configs|
  {
    var n := |configs| - 1;
    if i < n {
      assert configs[n].tagId != configs[i].tagId;
      assert configs[..n][i] == configs[i];
      ConfigDeUnico(configs[..n], i);
    }
  }

  lemma ConfigsDeOrdenDistintos(s: seq<Tag>)
    requires IdsDistintos(s)
    ensures var c := ConfigsDeOrden(PayloadOrden(s));
      forall a, b :: 0 <= a < b < |c| ==> c[a].tagId != c[b].tagId
  {
  }

  /** What the server answered to the two loading requests. */
  datatype Carga = Carga(tags: seq<Tag>, configs: seq<Config>)

  class TagList {
    var allTags: seq<Tag>
    var visibleTags: seq<Tag>
    var hiddenTags: seq<Tag>
    var showHidden: bool
    var isLoading: bool

    /** No tag is in both lists, nor twice in one. */
    ghost predicate Valid()
      reads this
    {
      IdsDistintos(visibleTags + hiddenTags)
    }

    constructor ()
      ensures Valid()
      ensures allTags == [] && visibleTags == [] && hiddenTags == []
      ensures !showHidden && isLoading
    {
      allTags, visibleTags, hiddenTags := [], [], [];
      showHidden := false;
      isLoading := true;
    }

    /** `loadTags`: on an answer the three lists are replaced by the sorted tags
        and their partition; a failed request leaves them as they were. The
        loading flag is down afterwards either way. */
    method LoadTags(respuesta: Option<Carga>)
      modifies this
      ensures respuesta.Some? ==>
        var c := respuesta.value;
        allTags == Ordenados(c.tags, c.configs)
        && visibleTags == Visibles(c.tags, c.configs)
        && hiddenTags == Ocultos(c.tags, c.configs)
      ensures respuesta.None? ==>
        allTags == old(allTags) && visibleTags == old(visibleTags) && hiddenTags == old(hiddenTags)
      ensures respuesta.Some? && IdsDistintos(respuesta.value.tags) ==> Valid()
      ensures respuesta.None? ==> Valid() == old(Valid())
      ensures showHidden == old(showHidden) && !isLoading
    {
      isLoading := true;
      match respuesta {
        case Some(c) =>
          if IdsDistintos(c.tags) {
            ParticionDistinta(c.tags, c.configs);
          }
          var sortedTags := Ordenados(c.tags, c.configs);
          allTags := sortedTags;
          visibleTags := Filtrar(sortedTags, EsVisible(c.configs));
          hiddenTags := Filtrar(sortedTags, EsOculto(c.configs));
        case None =>
      }
      isLoading := false;
    }

    /** `handleTagVisibilityToggle`: posts the opposite of the tag's current
        hidden state; once the post succeeds, a hidden tag leaves the hidden list
        and goes to the end of the visible one, and a visible tag does the
        reverse. A failed post changes nothing. The tag is one of the rendered
        rows, so it is in one of the two lists. */
    method Toggle(tagId: int, postOk: bool) returns (enviado: Config)
      requires Posicion(visibleTags, tagId).Some? || Posicion(hiddenTags, tagId).Some?
      modifies this
      ensures var oculto := Posicion(old(hiddenTags), tagId).Some?;
        enviado.tagId == tagId && enviado.isHidden == !oculto
      ensures !postOk ==> visibleTags == old(visibleTags) && hiddenTags == old(hiddenTags)
      ensures postOk && Posicion(old(hiddenTags), tagId).Some? ==>
        var k := Posicion(old(hiddenTags), tagId).value;
        hiddenTags == Filtrar(old(hiddenTags), DeOtroTag(tagId))
        && visibleTags == old(visibleTags) + [old(hiddenTags)[k]]
      ensures postOk && Posicion(old(hiddenTags), tagId).None? ==>
        var k := Posicion(old(visibleTags), tagId).value;
        visibleTags == Filtrar(old(visibleTags), DeOtroTag(tagId))
        && hiddenTags == old(hiddenTags) + [old(visibleTags)[k]]
      ensures old(Valid()) ==> Valid()
      ensures old(Valid()) ==>
        multiset(visibleTags) + multiset(hiddenTags) == multiset(old(visibleTags)) + multiset(old(hiddenTags))
      ensures allTags == old(allTags) && showHidden == old(showHidden) && isLoading == old(isLoading)
    {
      var esOculto := Posicion(hiddenTags, tagId).Some?;
      enviado := Config(tagId, 0, !esOculto);
      if !postOk {
        return;
      }
      if esOculto {
        var k := Posicion(hiddenTags, tagId).value;
        var tagToShow := hiddenTags[k];
        if Valid() {
          AlternarConserva(visibleTags, hiddenTags, tagId, true, k);
        }
        hiddenTags := Filtrar(hiddenTags, DeOtroTag(tagId));
        visibleTags := visibleTags + [tagToShow];
      } else {
        var k := Posicion(visibleTags, tagId).value;
        var tagToHide := visibleTags[k];
        if Valid() {
          AlternarConserva(visibleTags, hiddenTags, tagId, false, k);
        }
        visibleTags := Filtrar(visibleTags, DeOtroTag(tagId));
        hiddenTags := hiddenTags + [tagToHide];
      }
    }

    /** `handleDragEnd`: without a destination nothing happens; otherwise the
        reordered list is posted with each tag's index as its order, and it
        replaces the visible list only once the post succeeded. */
    method DragEnd(origen: nat, destino: Option<nat>, postOk: bool)
      returns (enviado: Option<seq<EntradaOrden>>)
      requires destino.Some? ==> origen < |visibleTags| && destino.value < |visibleTags|
      modifies this
      ensures destino.None? ==> enviado == None && visibleTags == old(visibleTags)
      ensures destino.Some? ==>
        var r := Reordenar(old(visibleTags), origen, destino.value);
        enviado == Some(PayloadOrden(r))
        && visibleTags == if postOk then r else old(visibleTags)
      ensures hiddenTags == old(hiddenTags) && allTags == old(allTags)
      ensures showHidden == old(showHidden) && isLoading == old(isLoading)
      ensures old(Valid()) ==> Valid()
    {
      if destino.None? {
        return None;
      }
      var reorderedTags := Reordenar(visibleTags, origen, destino.value);
      if Valid() {
        ReordenarPermutacion(visibleTags, origen, destino.value);
        DistintosPermutacion(visibleTags + hiddenTags, reorderedTags + hiddenTags);
      }
      enviado := Some(PayloadOrden(reorderedTags));
      if postOk {
        visibleTags := reorderedTags;
      }
    }
  }

  /** A toggle moves the tag found at `k` from one list to the end of the other:
      the ids stay distinct and the combined multiset is the same. */
  lemma {:induction false} AlternarConserva(v: seq<Tag>, h: seq<Tag>, id: int, deOcultos: bool, k: nat)
    requires IdsDistintos(v + h)
    requires deOcultos ==> Posicion(h, id) == Some(k)
    requires !deOcultos ==> Posicion(v, id) == Some(k)
    ensures deOcultos ==>
      var v', h' := v + [h[k]], Filtrar(h, DeOtroTag(id));
      IdsDistintos(v' + h') && multiset(v') + multiset(h') == multiset(v) + multiset(h)
    ensures !deOcultos ==>
      var v', h' := Filtrar(v, DeOtroTag(id)), h + [v[k]];
      IdsDistintos(v' + h') && multiset(v') + multiset(h') == multiset(v) + multiset(h)
  {
    DistintosPartes(v, h);
    if deOcultos {
      Mostrar(v, h, id, k);
    } else {
      Esconder(v, h, id, k);
    }
  }

  lemma {:induction false} Mostrar(v: seq<Tag>, h: seq<Tag>, id: int, k: nat)
    requires IdsDistintos(v) && IdsDistintos(h) && Posicion(h, id) == Some(k)
    requires forall i, j :: 0 <= i < |h| && 0 <= j < |v| ==> h[i].id != v[j].id
    ensures var v', h' := v + [h[k]], Filtrar(h, DeOtroTag(id));
      IdsDistintos(v' + h') && multiset(v') + multiset(h') == multiset(v) + multiset(h)
  {
    QuitarTag(h, id, k);
    MoverDistintos(h, v, k, true);
    MoverMultiset(h, v, k);
  }

  lemma {:induction false} Esconder(v: seq<Tag>, h: seq<Tag>, id: int, k: nat)
    requires IdsDistintos(v) && IdsDistintos(h) && Posicion(v, id) == Some(k)
    requires forall i, j :: 0 <= i < |v| && 0 <= j < |h| ==> v[i].id != h[j].id
    ensures var v', h' := Filtrar(v, DeOtroTag(id)), h + [v[k]];
      IdsDistintos(v' + h') && multiset(v') + multiset(h') == multiset(v) + multiset(h)
  {
    QuitarTag(v, id, k);
    MoverDistintos(v, h, k, false);
    MoverMultiset(v, h, k);
  }

  /** Distinct ids over two joined lists are distinct in each, and no id is in
      both. */
  lemma DistintosPartes(a: seq<Tag>, b: seq<Tag>)
    requires IdsDistintos(a + b)
    ensures IdsDistintos(a) && IdsDistintos(b)
    ensures forall i, j :: 0 <= i < |a| && 0 <= j < |b| ==> a[i].id != b[j].id
  {
    forall i, j | 0 <= i < j < |a| ensures a[i].id != a[j].id {
      assert (a + b)[i] == a[i] && (a + b)[j] == a[j];
    }
    forall i, j | 0 <= i < j < |b| ensures b[i].id != b[j].id {
      assert (a + b)[|a| + i] == b[i] && (a + b)[|a| + j] == b[j];
    }
    forall i, j | 0 <= i < |a| && 0 <= j < |b| ensures a[i].id != b[j].id {
      assert (a + b)[i] == a[i] && (a + b)[|a| + j] == b[j];
    }
  }

  /** After a move the two lists still have distinct ids. */
  lemma {:induction false} MoverDistintos(desde: seq<Tag>, hacia: seq<Tag>, k: nat, desdeOcultos: bool)
    requires k < |desde| && IdsDistintos(desde) && IdsDistintos(hacia)
    requires forall i, j :: 0 <= i < |desde| && 0 <= j < |hacia| ==> desde[i].id != hacia[j].id
    ensures var d, h := desde[..k] + desde[k + 1..], hacia + [desde[k]];
      if desdeOcultos then IdsDistintos(h + d) else IdsDistintos(d + h)
  {
    var d, h := desde[..k] + desde[k + 1..], hacia + [desde[k]];
    assert forall i :: 0 <= i < |d| ==> d[i] == desde[if i < k then i else i + 1];
    assert forall i :: 0 <= i < |d| ==> d[i].id != desde[k].id;
    assert forall i, j :: 0 <= i < j < |d| ==> d[i].id != d[j].id;
    if desdeOcultos {
      var t := h + d;
      forall i, j | 0 <= i < j < |t| ensures t[i].id != t[j].id {
        if j < |h| {
        } else if i < |h| {
          assert t[j] == d[j - |h|];
        } else {
          assert t[i] == d[i - |h|] && t[j] == d[j - |h|];
        }
      }
    } else {
      var t := d + h;
      forall i, j | 0 <= i < j < |t| ensures t[i].id != t[j].id {
        if j < |d| {
        } else if i < |d| {
          assert t[i] == d[i];
        } else {
          assert t[i] == h[i - |d|] && t[j] == h[j - |d|];
        }
      }
    }
  }
}
