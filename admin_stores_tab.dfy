/**
 * The stores tab of the admin panel (src/frontend/src/components/admin/tabs/AdminStoresTab.jsx):
 * the list narrowed by state, and the create form's submit.
 */
module AdminStoresTab {
  import opened Wrappers
  import opened Listas

  datatype Tienda = Tienda(id: int, nombre: string, activa: bool)

  /** `activas` drops inactive stores, `inactivas` drops active ones, any other value drops none. */
  predicate Pasa(filtroEstado: string, t: Tienda)
  {
    (filtroEstado == "activas" ==> t.activa) && (filtroEstado == "inactivas" ==> !t.activa)
  }

  function Filtro(filtroEstado: string): Tienda -> bool { (t: Tienda) => Pasa(filtroEstado, t) }

  /**
   * `tiendas.filter(...)`. Unlike the other tabs this one has no `|| []`, so a null list
   * (`None`) makes the render throw, which is `None` here.
   */
  function TiendasFiltradas(tiendas: Option<seq<Tienda>>, filtroEstado: string): Option<seq<Tienda>>
  {
    if tiendas.None? then None else Some(Filtrar(tiendas.value, Filtro(filtroEstado)))
  }

  /**
   * `activas` lists exactly the active stores, `inactivas` exactly the inactive ones, and any
   * other value every store; the list keeps the given order; a null list throws.
   */
  lemma TiendasFiltradasEfecto(tiendas: Option<seq<Tienda>>, filtroEstado: string)
    ensures tiendas.None? <==> TiendasFiltradas(tiendas, filtroEstado).None?
    ensures tiendas.Some? ==> var r := TiendasFiltradas(tiendas, filtroEstado).value;
      && Subsecuencia(r, tiendas.value)
      && (filtroEstado == "activas" ==> forall x :: x in r <==> x in tiendas.value && x.activa)
      && (filtroEstado == "inactivas" ==> forall x :: x in r <==> x in tiendas.value && !x.activa)
      && (filtroEstado !in {"activas", "inactivas"} ==> r == tiendas.value)
  {
    if tiendas.Some? {
      var s := tiendas.value;
      forall x ensures x in Filtrar(s, Filtro(filtroEstado)) <==> x in s && Pasa(filtroEstado, x) {
        FiltrarMiembro(s, Filtro(filtroEstado), x);
      }
      FiltrarSubsecuencia(s, Filtro(filtroEstado));
      if filtroEstado !in {"activas", "inactivas"} {
        FiltrarTodos(s, Filtro(filtroEstado));
      }
    }
  }

  /** Every store is listed under exactly one of `activas` and `inactivas`. */
  lemma ActivasInactivas(s: seq<Tienda>)
    ensures |TiendasFiltradas(Some(s), "activas").value| + |TiendasFiltradas(Some(s), "inactivas").value| == |s|
  {
    Particion(s, Filtro("activas"), Filtro("inactivas"));
  }

  // ----- the create form -----

  datatype Formulario = Formulario(nombre: string, direccion: string, telefono: string)

  const Inicial: Formulario := Formulario("", "", "")

  /** The browser submits only when all three `required` fields are filled in. */
  predicate Completo(f: Formulario)
  {
    f.nombre != "" && f.direccion != "" && f.telefono != ""
  }

  /** What `handleSubmit` does: the form given to `onCreate`, the new form, and whether it is shown. */
  datatype Envio = Envio(creado: Formulario, form: Formulario, showForm: bool)

  /** A submit: `None` when the browser blocks it, otherwise what the handler does. */
  function HandleSubmit(form: Formulario): (r: Option<Envio>)
    ensures r.Some? <==> Completo(form)
    ensures r.Some? ==> r.value.creado == form && !r.value.showForm
  {
    if Completo(form) then Some(Envio(form, Inicial, false)) else None
  }

  /**
   * A complete form is handed over as typed; afterwards the form is hidden and every field is
   * empty, so the next submit waits for all three again.
   */
  lemma HandleSubmitEfecto(form: Formulario)
    requires Completo(form)
    ensures HandleSubmit(form).Some? && HandleSubmit(form).value.creado == form
    ensures var f := HandleSubmit(form).value.form; f.nombre == "" && f.direccion == "" && f.telefono == ""
    ensures HandleSubmit(HandleSubmit(form).value.form).None?
    ensures HandleSubmit(Inicial).None?
  {
  }
}
