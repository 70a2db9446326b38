/**
 * The users tab of the admin panel (src/frontend/src/components/admin/tabs/AdminUsersTab.jsx):
 * the list narrowed by role and by active/inactive state, the create form's submit, and the
 * status button that asks for a copy of the user with its state flipped.
 */
module AdminUsersTab {
  import opened Wrappers
  import opened Listas

  datatype Usuario = Usuario(id: int, nombre: string, email: string, rol: string, estado: bool)

  /** `filtroRol` (`todos` or a role), then `filtroEstado` (`todos`, `activo` or `inactivo`). */
  predicate Pasa(filtroRol: string, filtroEstado: string, u: Usuario)
  {
    (filtroRol == "todos" || u.rol == filtroRol)
    && (filtroEstado == "activo" ==> u.estado)
    && (filtroEstado == "inactivo" ==> !u.estado)
  }

  function Filtro(filtroRol: string, filtroEstado: string): Usuario -> bool
  {
    (u: Usuario) => Pasa(filtroRol, filtroEstado, u)
  }

  /** `(usuarios || []).filter(...)`; `None` stands for a null list. */
  function UsuariosFiltrados(usuarios: Option<seq<Usuario>>, filtroRol: string, filtroEstado: string): seq<Usuario>
  {
    Filtrar(usuarios.GetOr([]), Filtro(filtroRol, filtroEstado))
  }

  /**
   * A user is listed exactly when it has the chosen role (or the role filter is `todos`) and the
   * chosen state; the list keeps the given order; `todos`/`todos` lists every user, and a null
   * list lists none.
   */
  lemma UsuariosFiltradosEfecto(usuarios: Option<seq<Usuario>>, filtroRol: string, filtroEstado: string)
    ensures var r := UsuariosFiltrados(usuarios, filtroRol, filtroEstado);
      forall x :: x in r <==>
        && usuarios.Some? && x in usuarios.value
        && (filtroRol == "todos" || x.rol == filtroRol)
        && (filtroEstado == "activo" ==> x.estado)
        && (filtroEstado == "inactivo" ==> !x.estado)
    ensures Subsecuencia(UsuariosFiltrados(usuarios, filtroRol, filtroEstado), usuarios.GetOr([]))
    ensures usuarios.Some? ==> UsuariosFiltrados(usuarios, "todos", "todos") == usuarios.value
    ensures usuarios.None? ==> UsuariosFiltrados(usuarios, filtroRol, filtroEstado) == []
  {
    var s := usuarios.GetOr([]);
    forall x ensures x in UsuariosFiltrados(usuarios, filtroRol, filtroEstado) <==> x in s && Pasa(filtroRol, filtroEstado, x) {
      FiltrarMiembro(s, Filtro(filtroRol, filtroEstado), x);
    }
    FiltrarSubsecuencia(s, Filtro(filtroRol, filtroEstado));
    FiltrarTodos(s, Filtro("todos", "todos"));
  }

  // ----- the status button -----

  /** `{...usuario, estado: !usuario.estado}`. */
  function Alternado(u: Usuario): Usuario { u.(estado := !u.estado) }

  /**
   * The copy differs from the user in its state only; flipping twice gives the user back; an
   * active user's copy is what the `inactivo` filter keeps, and the other way round.
   */
  lemma AlternadoEfecto(u: Usuario, filtroRol: string)
    ensures Alternado(u).estado == !u.estado
    ensures Alternado(u).(estado := u.estado) == u
    ensures Alternado(Alternado(u)) == u
    ensures Pasa(filtroRol, "activo", u) <==> Pasa(filtroRol, "inactivo", Alternado(u))
  {
  }

  // ----- the create form -----

  datatype Formulario = Formulario(nombre: string, email: string, password: string, rol: string,
                                   telefono: string, direccion: string, imagen: Option<string>)

  /** The form the tab starts with and returns to after a submit. */
  const Inicial: Formulario := Formulario("", "", "", "cliente", "", "", None)

  /** The browser submits only when the `required` name, e-mail and password are filled in. */
  predicate Completo(f: Formulario)
  {
    f.nombre != "" && f.email != "" && f.password != ""
  }

  /** What `handleSubmit` does: the form given to `onCreate`, the new form, and whether it is shown. */
  datatype Envio = Envio(creado: Formulario, form: Formulario, showForm: bool)

  /** A submit: `None` when the browser blocks it, otherwise what the handler does. */
  function HandleSubmit(form: Formulario): (r: Option<Envio>)
    ensures r.Some? <==> Completo(form)
    ensures r.Some? ==> r.value.creado == form && !r.value.showForm
  {
    if Completo(form) then Some(Envio(form, Inicial, false)) else None
  }

  /**
   * A complete form is handed over as typed; afterwards the form is hidden and holds empty
   * fields, the `cliente` role and no picture, which the browser will not submit until name,
   * e-mail and password are typed again.
   */
  lemma HandleSubmitEfecto(form: Formulario)
    requires Completo(form)
    ensures HandleSubmit(form).Some? && HandleSubmit(form).value.creado == form
    ensures var f := HandleSubmit(form).value.form;
      f.nombre == "" && f.email == "" && f.password == "" && f.rol == "cliente" && f.imagen.None?
    ensures HandleSubmit(HandleSubmit(form).value.form).None?
    ensures HandleSubmit(Inicial).None?
  {
  }
}
