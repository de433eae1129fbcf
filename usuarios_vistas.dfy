/** `backend/apps/usuarios/views.py`: the owner-or-staff object rule and the
    rows each user may list. */
module UsuariosVistas {
  import opened Comun
  import opened Permisos

  /** `IsOwnerOrAdmin.has_object_permission`; users are compared by key. */
  predicate PropioOStaff(u: Usuario, idObjeto: int)
  {
    idObjeto == u.id || u.isStaff
  }

  function DeId(id: int): Usuario -> bool
  {
    (v: Usuario) => v.id == id
  }

  /** `UsuarioViewSet.get_queryset`. */
  function UsuariosVisibles(todos: seq<Usuario>, u: Usuario): (r: seq<Usuario>)
    ensures u.isStaff ==> r == todos
    ensures !u.isStaff ==> r == Filtrar(todos, DeId(u.id))
  {
    if u.isStaff then todos else Filtrar(todos, DeId(u.id))
  }

  /** Everything a user can list also passes the object rule, and a user who
      is not staff lists nothing but their own row. */
  lemma VisiblesPermitidos(todos: seq<Usuario>, u: Usuario)
    ensures forall i :: 0 <= i < |UsuariosVisibles(todos, u)| ==>
      PropioOStaff(u, UsuariosVisibles(todos, u)[i].id)
    ensures !u.isStaff ==> forall v :: v in UsuariosVisibles(todos, u) ==> v.id == u.id
    ensures forall v :: v in todos && PropioOStaff(u, v.id) ==> v in UsuariosVisibles(todos, u)
  {
    var r := UsuariosVisibles(todos, u);
    FiltrarMiembros(todos, DeId(u.id));
    forall i | 0 <= i < |r| ensures PropioOStaff(u, r[i].id) {
      if !u.isStaff {
        assert DeId(u.id)(r[i]);
      }
    }
    forall v | v in todos && PropioOStaff(u, v.id) ensures v in r {
      if !u.isStaff {
        assert DeId(u.id)(v);
      }
    }
  }

  datatype Persona = Persona(idPersona: int, usuario: int)

  function DeUsuario(id: int): Persona -> bool
  {
    (p: Persona) => p.usuario == id
  }

  /** `PersonaViewSet.get_queryset`. */
  function PersonasVisibles(todas: seq<Persona>, u: Usuario): (r: seq<Persona>)
    ensures u.isStaff ==> r == todas
    ensures !u.isStaff ==> forall p :: p in r <==> p in todas && p.usuario == u.id
  {
    if u.isStaff then todas
    else
      var r := Filtrar(todas, DeUsuario(u.id));
      assert forall p :: p in r <==> p in todas && p.usuario == u.id by {
        FiltrarMiembros(todas, DeUsuario(u.id));
        forall p ensures p in r <==> p in todas && p.usuario == u.id {
          assert DeUsuario(u.id)(p) == (p.usuario == u.id);
        }
      }
      r
  }

  /** `me`: the requesting user, who always passes the object rule. */
  function Me(u: Usuario): (r: Usuario)
    ensures r == u && PropioOStaff(u, r.id)
  {
    u
  }
}
