/**
 * The products tab of the admin panel (src/frontend/src/components/admin/tabs/AdminProductsTab.jsx):
 * the list narrowed by a search on name and description, the stock badge, and the create
 * form's submit.
 */
module AdminProductsTab {
  import opened Wrappers
  import opened Text
  import opened Listas

  /** A product as listed; `descripcion` and `stock` may be null. */
  datatype Producto = Producto(id: int, nombre: string, descripcion: Option<string>, stock: Option<int>, esBasico: bool)

  /** `term` is the lower-cased search term. */
  predicate Coincide(t: string, p: Producto)
  {
    Includes(ToLower(p.nombre), t) || (p.descripcion.Some? && Includes(ToLower(p.descripcion.value), t))
  }

  function Busqueda(t: string): Producto -> bool { (p: Producto) => Coincide(t, p) }

  /**
   * The filter reaches `p.descripcion.toLowerCase()` only when the name does not match; on a
   * null description that call throws and the whole render fails.
   */
  predicate Arroja(t: string, p: Producto) { !Includes(ToLower(p.nombre), t) && p.descripcion.None? }

  /** The filter's walk over the list with a non-empty term: `None` when some product throws. */
  function Recorrer(ps: seq<Producto>, t: string): (r: Option<seq<Producto>>)
    ensures r.None? <==> exists i :: 0 <= i < |ps| && Arroja(t, ps[i])
    ensures r.Some? ==> r.value == Filtrar(ps, Busqueda(t))
  {
    if ps == [] then Some([])
    else
      var resto := Recorrer(ps[1..], t);
      assert forall i :: 1 <= i < |ps| ==> ps[i] == ps[1..][i - 1];
      if Arroja(t, ps[0]) then None
      else if resto.None? then None
      else if Coincide(t, ps[0]) then Some([ps[0]] + resto.value)
      else resto
  }

  /** `(productos || []).filter(...)`: an empty term keeps everything, otherwise the walk above. */
  function ProductosFiltrados(productos: Option<seq<Producto>>, searchTerm: string): Option<seq<Producto>>
  {
    if searchTerm == "" then Some(productos.GetOr([])) else Recorrer(productos.GetOr([]), ToLower(searchTerm))
  }

  /**
   * An empty term lists every product. With a term, when every product has a description or
   * a matching name, the list holds exactly the products whose name or description contains
   * the term regardless of case, in the given order; otherwise the render throws.
   */
  lemma ProductosFiltradosEfecto(productos: Option<seq<Producto>>, searchTerm: string)
    ensures searchTerm == "" ==> ProductosFiltrados(productos, searchTerm) == Some(productos.GetOr([]))
    ensures searchTerm != "" && (forall p :: p in productos.GetOr([]) ==> p.descripcion.Some?) ==>
      && ProductosFiltrados(productos, searchTerm).Some?
      && var r := ProductosFiltrados(productos, searchTerm).value;
      && Subsecuencia(r, productos.GetOr([]))
      && forall x :: x in r <==> x in productos.GetOr([]) && CoincideContiene(ToLower(searchTerm), x)
  {
    var s := productos.GetOr([]);
    var t := ToLower(searchTerm);
    if searchTerm != "" && (forall p :: p in s ==> p.descripcion.Some?) {
      FiltrarSubsecuencia(s, Busqueda(t));
      forall x ensures x in Filtrar(s, Busqueda(t)) <==> x in s && CoincideContiene(t, x) {
        FiltrarMiembro(s, Busqueda(t), x);
        CoincideEsContiene(t, x);
      }
    }
  }

  /** `Coincide` with `Contains` in place of the executable substring test. */
  ghost predicate CoincideContiene(t: string, x: Producto)
  {
    Contains(ToLower(x.nombre), t) || (x.descripcion.Some? && Contains(ToLower(x.descripcion.value), t))
  }

  lemma CoincideEsContiene(t: string, x: Producto)
    ensures Coincide(t, x) <==> CoincideContiene(t, x)
  {
    IncludesIsContains(ToLower(x.nombre), t);
    if x.descripcion.Some? {
      IncludesIsContains(ToLower(x.descripcion.value), t);
    }
  }

  /** A product with no description and a name without the term makes a searching render throw. */
  lemma SinDescripcionArroja(productos: seq<Producto>, searchTerm: string, k: int)
    requires searchTerm != "" && 0 <= k < |productos|
    requires productos[k].descripcion.None? && !Includes(ToLower(productos[k].nombre), ToLower(searchTerm))
    ensures ProductosFiltrados(Some(productos), searchTerm).None?
  {
    assert Arroja(ToLower(searchTerm), productos[k]);
  }

  // ----- the stock badge -----

  /** `producto.stock < 10 ? 'danger' : 'success'`; a null stock compares as 0. */
  function Insignia(p: Producto): string { if p.stock.GetOr(0) < 10 then "danger" else "success" }

  /** The badge is `danger` exactly for a stock below 10 or a null stock, and `success` otherwise. */
  lemma InsigniaEfecto(p: Producto)
    ensures Insignia(p) == "danger" <==> p.stock.None? || p.stock.value < 10
    ensures Insignia(p) in {"danger", "success"}
    ensures p.stock == Some(10) ==> Insignia(p) == "success"
  {
  }

  // ----- the create form -----

  /**
   * The form's state. `proveedor` is `None` while the key is missing: the initial state and the
   * reset after a submit leave it out, and only picking a provider adds it.
   */
  datatype Formulario = Formulario(nombre: string, descripcion: string, precio: string, stock: string,
                                   tienda: string, proveedor: Option<string>, esBasico: bool, categoria: string)

  const Inicial: Formulario := Formulario("", "", "", "", "", None, true, "general")

  /**
   * The browser submits only when every `required` control has a value: name, price, stock,
   * store and provider; a select whose value is missing shows its empty first option.
   */
  predicate Completo(f: Formulario)
  {
    f.nombre != "" && f.precio != "" && f.stock != "" && f.tienda != "" && f.proveedor.Some? && f.proveedor.value != ""
  }

  /** What `handleSubmit` does: the form given to `onCreate`, the new form, and whether it is shown. */
  datatype Envio = Envio(creado: Formulario, form: Formulario, showForm: bool)

  /** A submit: `None` when the browser blocks it, otherwise what the handler does. */
  function HandleSubmit(form: Formulario): (r: Option<Envio>)
    ensures r.Some? <==> Completo(form)
    ensures r.Some? ==> r.value.creado == form && !r.value.showForm
  {
    if Completo(form) then Some(Envio(form, Inicial, false)) else None
  }

  /**
   * A complete form is handed over as typed; afterwards the form is hidden and holds empty
   * texts, no provider, a basic product and the `general` category, so it cannot be submitted
   * again until it is filled in, provider included.
   */
  lemma HandleSubmitEfecto(form: Formulario)
    requires Completo(form)
    ensures HandleSubmit(form).Some? && HandleSubmit(form).value.creado == form
    ensures var f := HandleSubmit(form).value.form;
      f.nombre == "" && f.precio == "" && f.proveedor.None? && f.esBasico && f.categoria == "general"
    ensures HandleSubmit(HandleSubmit(form).value.form).None?
    ensures HandleSubmit(Inicial).None?
  {
  }

  /** Filling every required text and the store is not enough: without a provider the submit is blocked. */
  lemma SinProveedorNoEnvia(form: Formulario)
    requires form.proveedor.None?
    ensures HandleSubmit(form).None?
  {
  }
}
