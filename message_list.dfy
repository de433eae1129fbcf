/** The grouping of `frontend/src/components/MessageList.jsx`: the `reduce`
    walks the messages in order and pushes each one onto the list of every one
    of its tag names, or onto `no_tags` when it has none, creating a list the
    first time a key is seen. The walk is `Agrupar`, a pair of loops over a
    dictionary; it is specified by the sequence of pushes it makes. */
module MessageList {
  import opened Comun

  datatype Etiqueta = Etiqueta(id: int, nombre: string)

  datatype Mensaje = Mensaje(id: int, contenido: string, tags: seq<Etiqueta>)

  const SIN_TAGS := "no_tags"

  /** One `acc[k].push(message)`. */
  datatype Empuje = Empuje(clave: string, mensaje: Mensaje)

  /** The keys one message is pushed under, in the order of the pushes. */
  function Claves(m: Mensaje): (r: seq<string>)
    ensures |r| == if |m.tags| == 0 then 1 else |m.tags|
  {
    if |m.tags| == 0 then [SIN_TAGS]
    else seq(|m.tags|, i requires 0 <= i < |m.tags| => m.tags[i].nombre)
  }

  function EmpujesDe(m: Mensaje, claves: seq<string>): seq<Empuje>
  {
    seq(|claves|, i requires 0 <= i < |claves| => Empuje(claves[i], m))
  }

  /** Every push the `reduce` makes, in order. */
  function Empujes(ms: seq<Mensaje>): seq<Empuje>
  {
    if ms == [] then []
    else Empujes(ms[..|ms| - 1]) + EmpujesDe(ms[|ms| - 1], Claves(ms[|ms| - 1]))
  }

  /** The dictionary a sequence of pushes leaves, starting from `acc`. */
  function Aplicar(acc: map<string, seq<Mensaje>>, log: seq<Empuje>): map<string, seq<Mensaje>>
  {
    if log == [] then acc
    else
      var previo := Aplicar(acc, log[..|log| - 1]);
      var e := log[|log| - 1];
      previo[e.clave := (if e.clave in previo then previo[e.clave] else []) + [e.mensaje]]
  }

  /** The dictionary a sequence of pushes leaves, starting from `{}`. */
  function Indice(log: seq<Empuje>): map<string, seq<Mensaje>>
  {
    Aplicar(map[], log)
  }

  /** The messages pushed under `k`, in push order. */
  function Grupo(log: seq<Empuje>, k: string): seq<Mensaje>
  {
    if log == [] then []
    else Grupo(log[..|log| - 1], k) + (if log[|log| - 1].clave == k then [log[|log| - 1].mensaje] else [])
  }

  /** The properties every object inherits from `Object.prototype`. Each is
      truthy, so `!acc[k]` is false for them before any push, and none of
      them has a `push`. */
  const HEREDADAS: set<string> := {"constructor", "hasOwnProperty", "isPrototypeOf", "propertyIsEnumerable",
    "toLocaleString", "toString", "valueOf", "__defineGetter__", "__defineSetter__", "__lookupGetter__",
    "__lookupSetter__", "__proto__"}

  /** Some push of the log, started on `acc`, reaches a key that `acc` only
      inherits, and so throws a `TypeError`. */
  ghost predicate Lanza(acc: map<string, seq<Mensaje>>, log: seq<Empuje>)
  {
    exists n :: 0 <= n < |log| && log[n].clave in HEREDADAS && log[n].clave !in acc
  }

  /** `groupedMessages`: the dictionary, or `None` when the `reduce` throws. */
  method Agrupar(messages: seq<Mensaje>) returns (r: Option<map<string, seq<Mensaje>>>)
    ensures r.None? <==> Lanza(map[], Empujes(messages))
    ensures r.Some? ==> r.value == Indice(Empujes(messages))
  {
    var acc := map[];
    var i := 0;
    while i < |messages|
      invariant 0 <= i <= |messages|
      invariant acc == Indice(Empujes(messages[..i])) && !Lanza(map[], Empujes(messages[..i]))
    {
      assert messages[..i + 1] == messages[..i] + [messages[i]];
      var propios := EmpujesDe(messages[i], Claves(messages[i]));
      EmpujesConcatenar(messages[..i], messages[i]);
      AplicarConcatenar(map[], Empujes(messages[..i]), propios);
      LanzaConcatenar(map[], Empujes(messages[..i]), propios);
      var paso := AgruparMensaje(acc, messages[i]);
      if paso.None? {
        LanzaPrefijo(map[], Empujes(messages[..i + 1]), Empujes(messages), messages, i + 1);
        return None;
      }
      acc := paso.value;
      i := i + 1;
    }
    assert messages[..i] == messages;
    r := Some(acc);
  }

  /** The body of the `reduce` callback for one message. */
  method AgruparMensaje(acc: map<string, seq<Mensaje>>, message: Mensaje)
    returns (r: Option<map<string, seq<Mensaje>>>)
    ensures r.None? <==> Lanza(acc, EmpujesDe(message, Claves(message)))
    ensures r.Some? ==> r.value == Aplicar(acc, EmpujesDe(message, Claves(message)))
  {
    var claves := Claves(message);
    if |message.tags| == 0 {
      assert EmpujesDe(message, claves) == [Empuje(SIN_TAGS, message)];
      AplicarPaso(acc, [], Empuje(SIN_TAGS, message));
      r := Empujar(acc, SIN_TAGS, message);
    } else {
      var m := acc;
      var j := 0;
      assert EmpujesDe(message, claves[..0]) == [];
      while j < |message.tags|
        invariant 0 <= j <= |message.tags|
        invariant m == Aplicar(acc, EmpujesDe(message, claves[..j])) && !Lanza(acc, EmpujesDe(message, claves[..j]))
      {
        var tag := message.tags[j];
        var e := Empuje(tag.nombre, message);
        EmpujesDePaso(message, claves, j);
        AplicarPaso(acc, EmpujesDe(message, claves[..j]), e);
        LanzaPaso(acc, EmpujesDe(message, claves[..j]), e);
        var paso := Empujar(m, tag.nombre, message);
        if paso.None? {
          var full := EmpujesDe(message, claves);
          assert full[j] == e;
          return None;
        }
        m := paso.value;
        j := j + 1;
      }
      assert claves[..j] == claves;
      r := Some(m);
    }
  }

  /** `if (!acc[k]) acc[k] = []; acc[k].push(m)`: `None` when `k` is only
      inherited, for then the `push` of the inherited value throws. */
  method Empujar(acc: map<string, seq<Mensaje>>, k: string, m: Mensaje)
    returns (r: Option<map<string, seq<Mensaje>>>)
    ensures r.None? <==> k !in acc && k in HEREDADAS
    ensures r.Some? ==> r.value == acc[k := (if k in acc then acc[k] else []) + [m]]
  {
    var d := acc;
    if k !in d {
      if k in HEREDADAS {
        return None;
      }
      d := d[k := []];
    }
    r := Some(d[k := d[k] + [m]]);
  }

  /** The keys after a log are those before it and those it pushed under. */
  lemma {:induction false} ClavesAplicar(acc: map<string, seq<Mensaje>>, log: seq<Empuje>, k: string)
    ensures k in Aplicar(acc, log) <==> k in acc || Empujado(log, k)
  {
    if log != [] {
      var init := log[..|log| - 1];
      ClavesAplicar(acc, init, k);
      if Empujado(init, k) {
        var n :| 0 <= n < |init| && init[n].clave == k;
        assert log[n] == init[n];
      }
      if Empujado(log, k) && log[|log| - 1].clave != k {
        var n :| 0 <= n < |log| && log[n].clave == k;
        assert init[n] == log[n];
      }
    }
  }

  /** One more push throws exactly when it reaches an inherited key that the
      dictionary built so far does not hold. */
  lemma LanzaPaso(acc: map<string, seq<Mensaje>>, log: seq<Empuje>, e: Empuje)
    ensures Lanza(acc, log + [e]) <==>
      Lanza(acc, log) || (e.clave in HEREDADAS && e.clave !in Aplicar(acc, log))
  {
    var t := log + [e];
    assert t[|log|] == e;
    ClavesAplicar(acc, log, e.clave);
    if Lanza(acc, t) {
      var n :| 0 <= n < |t| && t[n].clave in HEREDADAS && t[n].clave !in acc;
      if n < |log| { assert log[n] == t[n]; }
    }
    if Lanza(acc, log) {
      var n :| 0 <= n < |log| && log[n].clave in HEREDADAS && log[n].clave !in acc;
      assert t[n] == log[n];
    }
    if !Lanza(acc, log) && e.clave in HEREDADAS && Empujado(log, e.clave) {
      var n :| 0 <= n < |log| && log[n].clave == e.clave;
      assert e.clave in acc;
    }
  }

  /** A log throws exactly when its first part does or its second part does
      on the dictionary the first part leaves. */
  lemma {:induction false} LanzaConcatenar(acc: map<string, seq<Mensaje>>, a: seq<Empuje>, b: seq<Empuje>)
    ensures Lanza(acc, a + b) <==> Lanza(acc, a) || Lanza(Aplicar(acc, a), b)
    decreases |b|
  {
    if b == [] {
      assert a + b == a;
      assert !Lanza(Aplicar(acc, a), b);
    } else {
      var init, e := b[..|b| - 1], b[|b| - 1];
      assert a + b == (a + init) + [e];
      assert b == init + [e];
      LanzaConcatenar(acc, a, init);
      LanzaPaso(acc, a + init, e);
      LanzaPaso(Aplicar(acc, a), init, e);
      AplicarConcatenar(acc, a, init);
    }
  }

  /** A prefix of the messages that throws makes the whole walk throw. */
  lemma LanzaPrefijo(acc: map<string, seq<Mensaje>>, p: seq<Empuje>, log: seq<Empuje>, ms: seq<Mensaje>, i: nat)
    requires i <= |ms| && p == Empujes(ms[..i]) && log == Empujes(ms) && Lanza(acc, p)
    ensures Lanza(acc, log)
  {
    EmpujesPrefijo(ms, i);
    var n :| 0 <= n < |p| && p[n].clave in HEREDADAS && p[n].clave !in acc;
    assert log[n] == p[n];
  }

  lemma {:induction false} EmpujesPrefijo(ms: seq<Mensaje>, i: nat)
    requires i <= |ms|
    ensures Empujes(ms[..i]) <= Empujes(ms)
    decreases |ms| - i
  {
    if i < |ms| {
      EmpujesPrefijo(ms, i + 1);
      assert ms[..i + 1][..i] == ms[..i];
      assert ms[..i + 1] == ms[..i] + [ms[i]];
      EmpujesConcatenar(ms[..i], ms[i]);
    } else {
      assert ms[..i] == ms;
    }
  }

  /** The walk throws exactly when some message carries a tag named like an
      inherited property. */
  lemma LanzaSiHeredada(ms: seq<Mensaje>)
    ensures Lanza(map[], Empujes(ms)) <==> exists k :: k in HEREDADAS && Aparece(ms, k)
  {
    var log := Empujes(ms);
    if Lanza(map[], log) {
      var n :| 0 <= n < |log| && log[n].clave in HEREDADAS;
      ClaveEmpujada(ms, log[n].clave);
    }
    if exists k :: k in HEREDADAS && Aparece(ms, k) {
      var k :| k in HEREDADAS && Aparece(ms, k);
      ClaveEmpujada(ms, k);
      var n :| 0 <= n < |log| && log[n].clave == k;
    }
  }

  /** One more push updates the dictionary at its key only. */
  lemma AplicarPaso(acc: map<string, seq<Mensaje>>, log: seq<Empuje>, e: Empuje)
    ensures var previo := Aplicar(acc, log);
      Aplicar(acc, log + [e]) == previo[e.clave := (if e.clave in previo then previo[e.clave] else []) + [e.mensaje]]
  {
    assert (log + [e])[..|log|] == log;
  }

  /** Applying two logs one after the other applies their concatenation. */
  lemma {:induction false} AplicarConcatenar(acc: map<string, seq<Mensaje>>, a: seq<Empuje>, b: seq<Empuje>)
    ensures Aplicar(acc, a + b) == Aplicar(Aplicar(acc, a), b)
    decreases |b|
  {
    if b == [] {
      assert a + b == a;
    } else {
      var init := b[..|b| - 1];
      assert (a + b)[..|a + b| - 1] == a + init;
      AplicarConcatenar(acc, a, init);
    }
  }

  lemma EmpujesDePaso(m: Mensaje, c: seq<string>, j: nat)
    requires j < |c|
    ensures EmpujesDe(m, c[..j + 1]) == EmpujesDe(m, c[..j]) + [Empuje(c[j], m)]
  {
  }

  // ---------------------------------------------------------------------------
  // What the grouping means

  /** The dictionary holds exactly the keys pushed under, each with its group. */
  lemma {:induction false} IndiceGrupos(log: seq<Empuje>, k: string)
    ensures k in Indice(log) <==> Empujado(log, k)
    ensures k in Indice(log) ==> Indice(log)[k] == Grupo(log, k) && Indice(log)[k] != []
    ensures k !in Indice(log) ==> Grupo(log, k) == []
  {
    if log != [] {
      var init := log[..|log| - 1];
      IndiceGrupos(init, k);
      if k in Indice(init) {
        var n :| 0 <= n < |init| && init[n].clave == k;
        assert log[n] == init[n];
      }
      if Empujado(log, k) {
        var n :| 0 <= n < |log| && log[n].clave == k;
        if n < |init| {
          assert init[n] == log[n];
        }
      }
    }
  }

  /** Pushes of a message all carry it, one per key. */
  lemma {:induction false} EmpujesConcatenar(ms: seq<Mensaje>, m: Mensaje)
    ensures Empujes(ms + [m]) == Empujes(ms) + EmpujesDe(m, Claves(m))
  {
    assert (ms + [m])[..|ms|] == ms;
  }

  /** The number of grouped entries is the sum over the messages of the number
      of their tags, counting an untagged message once. */
  lemma {:induction false} TotalEntradas(ms: seq<Mensaje>)
    ensures |Empujes(ms)| == Entradas(ms)
  {
    if ms != [] {
      TotalEntradas(ms[..|ms| - 1]);
    }
  }

  function Entradas(ms: seq<Mensaje>): nat
  {
    if ms == [] then 0
    else Entradas(ms[..|ms| - 1]) + Max1(|ms[|ms| - 1].tags|)
  }

  function Max1(n: nat): nat { if n == 0 then 1 else n }

  lemma {:induction false} GrupoConcatenar(a: seq<Empuje>, b: seq<Empuje>, k: string)
    ensures Grupo(a + b, k) == Grupo(a, k) + Grupo(b, k)
    decreases |b|
  {
    if b == [] {
      assert a + b == a;
    } else {
      var init := b[..|b| - 1];
      assert (a + b)[..|a + b| - 1] == a + init;
      GrupoConcatenar(a, init, k);
    }
  }

  /** The group under `k` of one message's pushes holds only that message, and
      is non-empty exactly when `k` is one of its keys. */
  lemma {:induction false} GrupoDe(m: Mensaje, claves: seq<string>, k: string)
    ensures var g := Grupo(EmpujesDe(m, claves), k);
      (forall i :: 0 <= i < |g| ==> g[i] == m) && (|g| > 0 <==> k in claves)
    decreases |claves|
  {
    if claves != [] {
      var init := claves[..|claves| - 1];
      assert EmpujesDe(m, claves)[..|claves| - 1] == EmpujesDe(m, init);
      GrupoDe(m, init, k);
      assert claves == init + [claves[|claves| - 1]];
    }
  }

  /** Adding a message only appends copies of it to the groups, so every group
      keeps the input order; it is appended to a group exactly when the key is
      one of its tag names, or `no_tags` for an untagged message. */
  lemma {:induction false} AgregarMensaje(ms: seq<Mensaje>, m: Mensaje, k: string)
    ensures var antes, despues := Grupo(Empujes(ms), k), Grupo(Empujes(ms + [m]), k);
      && antes <= despues
      && (forall i :: |antes| <= i < |despues| ==> despues[i] == m)
      && (|despues| > |antes| <==> k in Claves(m))
    ensures |m.tags| == 0 ==>
      Grupo(Empujes(ms + [m]), k) == Grupo(Empujes(ms), k) + (if k == SIN_TAGS then [m] else [])
    ensures |m.tags| > 0 && (forall i :: 0 <= i < |m.tags| ==> m.tags[i].nombre != k) ==>
      Grupo(Empujes(ms + [m]), k) == Grupo(Empujes(ms), k)
  {
    var propios := EmpujesDe(m, Claves(m));
    EmpujesConcatenar(ms, m);
    GrupoConcatenar(Empujes(ms), propios, k);
    GrupoDe(m, Claves(m), k);
    var antes, g := Grupo(Empujes(ms), k), Grupo(propios, k);
    assert Grupo(Empujes(ms + [m]), k) == antes + g;
    assert forall i :: |antes| <= i < |antes + g| ==> (antes + g)[i] == g[i - |antes|];
    if |m.tags| == 0 {
      assert propios == [Empuje(SIN_TAGS, m)];
      assert g == Grupo([], k) + (if k == SIN_TAGS then [m] else []);
    } else if forall i :: 0 <= i < |m.tags| ==> m.tags[i].nombre != k {
      assert k !in Claves(m);
      assert g == [];
    }
  }

  /** Some push of the log is under `k`. */
  ghost predicate Empujado(log: seq<Empuje>, k: string)
  {
    exists n :: 0 <= n < |log| && log[n].clave == k
  }

  /** Some message is pushed under `k`. */
  ghost predicate Aparece(ms: seq<Mensaje>, k: string)
  {
    exists i :: 0 <= i < |ms| && k in Claves(ms[i])
  }

  /** Every group in the result is non-empty, and the keys are exactly the tag
      names that occur plus `no_tags` when some message is untagged. */
  lemma ClavesResultado(ms: seq<Mensaje>, k: string)
    ensures k in Indice(Empujes(ms)) ==> Indice(Empujes(ms))[k] != []
    ensures k in Indice(Empujes(ms)) <==> Aparece(ms, k)
  {
    IndiceGrupos(Empujes(ms), k);
    ClaveEmpujada(ms, k);
  }

  lemma EmpujadoConcatenar(a: seq<Empuje>, b: seq<Empuje>, k: string)
    ensures Empujado(a + b, k) <==> Empujado(a, k) || Empujado(b, k)
  {
    if Empujado(a + b, k) {
      var n :| 0 <= n < |a + b| && (a + b)[n].clave == k;
      if n < |a| { assert a[n] == (a + b)[n]; } else { assert b[n - |a|] == (a + b)[n]; }
    }
    if Empujado(a, k) {
      var n :| 0 <= n < |a| && a[n].clave == k;
      assert (a + b)[n] == a[n];
    }
    if Empujado(b, k) {
      var n :| 0 <= n < |b| && b[n].clave == k;
      assert (a + b)[|a| + n] == b[n];
    }
  }

  lemma EmpujadoDe(m: Mensaje, c: seq<string>, k: string)
    ensures Empujado(EmpujesDe(m, c), k) <==> k in c
  {
    var e := EmpujesDe(m, c);
    if k in c {
      var j :| 0 <= j < |c| && c[j] == k;
      assert e[j].clave == k;
    }
  }

  lemma ApareceAgregar(ms: seq<Mensaje>, m: Mensaje, k: string)
    ensures Aparece(ms + [m], k) <==> Aparece(ms, k) || k in Claves(m)
  {
    var t := ms + [m];
    if Aparece(t, k) {
      var i :| 0 <= i < |t| && k in Claves(t[i]);
      if i < |ms| { assert t[i] == ms[i]; }
    }
    if Aparece(ms, k) {
      var i :| 0 <= i < |ms| && k in Claves(ms[i]);
      assert t[i] == ms[i];
    }
    if k in Claves(m) {
      assert t[|ms|] == m;
    }
  }

  lemma {:induction false} ClaveEmpujada(ms: seq<Mensaje>, k: string)
    ensures Empujado(Empujes(ms), k) <==> Aparece(ms, k)
  {
    if ms != [] {
      var init, m := ms[..|ms| - 1], ms[|ms| - 1];
      ClaveEmpujada(init, k);
      assert ms == init + [m];
      EmpujesConcatenar(init, m);
      EmpujadoConcatenar(Empujes(init), EmpujesDe(m, Claves(m)), k);
      EmpujadoDe(m, Claves(m), k);
      ApareceAgregar(init, m, k);
    }
  }
}
