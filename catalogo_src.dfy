/**
 * The product catalogue of src/frontend/src/components/productos/Catalogo.jsx: `aplicarFiltros`
 * narrows the loaded products step by step (name search, category, section, price range, basic
 * products) and then sorts them by price; an effect runs it whenever the products, the filters or
 * the sections change. The cart grows without a stock cap.
 */
module CatalogoSrc {
  import opened Wrappers
  import opened Text
  import opened Listas
  import opened Carrito
  import Sorting

  /**
   * A bound of the price range as typed: empty (the filter is off), text `parseFloat` cannot
   * read (`NaN`, which no comparison passes), or an amount in cents.
   */
  datatype Cota = SinCota | NoNumero | Centavos(v: int)

  /** A section and the `productos` list it may carry. */
  datatype Seccion = Seccion(id: int, productos: Option<seq<int>>)

  /**
   * How `GET /productos/secciones/` ends: an array (under `results` or bare), some other value,
   * or a failed call.
   */
  datatype RespuestaSecciones = Secciones(ss: seq<Seccion>) | NoArreglo | FallaSecciones

  datatype Filtros = Filtros(busqueda: string, categoria: string, seccion: string,
                             precioMin: Cota, precioMax: Cota, orden: Orden, mostrarBasicos: bool)

  /** The filters the page starts with and `limpiarFiltros` restores. */
  const Iniciales: Filtros := Filtros("", "todos", "", SinCota, SinCota, SinOrden, false)

  /** `secciones.find(s => s.id === parseInt(seccion))`; a `NaN` id matches nothing. */
  function BuscarSeccion(secciones: seq<Seccion>, id: Option<int>): (r: Option<Seccion>)
    ensures r.Some? ==> r.value in secciones && Some(r.value.id) == id
    ensures r.None? ==> forall i :: 0 <= i < |secciones| ==> Some(secciones[i].id) != id
  {
    if secciones == [] then None
    else if Some(secciones[0].id) == id then Some(secciones[0])
    else BuscarSeccion(secciones[1..], id)
  }

  /** The id list the section filter uses: only a section that is found and carries a list. */
  function ListaSeccion(f: Filtros, secciones: seq<Seccion>): Option<seq<int>>
  {
    if f.seccion == "" then None
    else
      var s := BuscarSeccion(secciones, ParseInt(f.seccion));
      if s.Some? then s.value.productos else None
  }

  // ----- the reference: each active filter, as a test on one product -----

  predicate PasaBusqueda(f: Filtros, p: Producto)
  {
    f.busqueda == "" || Includes(ToLower(p.nombre), ToLower(f.busqueda))
  }

  predicate PasaCategoria(f: Filtros, p: Producto) { f.categoria == "todos" || p.categoria == f.categoria }

  predicate PasaSeccion(lista: Option<seq<int>>, p: Producto) { lista.None? || p.id in lista.value }

  predicate PasaMin(c: Cota, p: Producto)
  {
    match c
    case SinCota => true
    case NoNumero => false
    case Centavos(v) => p.precio >= v
  }

  predicate PasaMax(c: Cota, p: Producto)
  {
    match c
    case SinCota => true
    case NoNumero => false
    case Centavos(v) => p.precio <= v
  }

  predicate PasaBasico(f: Filtros, p: Producto) { !f.mostrarBasicos || p.esBasico }

  /** A product is shown exactly when it passes every active filter. */
  predicate Pasa(f: Filtros, secciones: seq<Seccion>, p: Producto)
  {
    && PasaBusqueda(f, p) && PasaCategoria(f, p) && PasaSeccion(ListaSeccion(f, secciones), p)
    && PasaMin(f.precioMin, p) && PasaMax(f.precioMax, p) && PasaBasico(f, p)
  }

  /** The first `k` tests of `aplicarFiltros`, in its order. */
  predicate Hasta(k: nat, f: Filtros, lista: Option<seq<int>>, p: Producto)
  {
    && (k >= 1 ==> PasaBusqueda(f, p)) && (k >= 2 ==> PasaCategoria(f, p)) && (k >= 3 ==> PasaSeccion(lista, p))
    && (k >= 4 ==> PasaMin(f.precioMin, p)) && (k >= 5 ==> PasaMax(f.precioMax, p)) && (k >= 6 ==> PasaBasico(f, p))
  }

  function Etapas(k: nat, f: Filtros, lista: Option<seq<int>>): Producto -> bool
  {
    (p: Producto) => Hasta(k, f, lista, p)
  }

  /** Whether step `k` of `aplicarFiltros` runs at all. */
  predicate Guarda(k: nat, f: Filtros, lista: Option<seq<int>>)
  {
    if k == 1 then f.busqueda != ""
    else if k == 2 then f.categoria != "todos"
    else if k == 3 then lista.Some?
    else if k == 4 then !f.precioMin.SinCota?
    else if k == 5 then !f.precioMax.SinCota?
    else f.mostrarBasicos
  }

  /** The test step `k` of `aplicarFiltros` filters by when it runs. */
  function Prueba(k: nat, f: Filtros, lista: Option<seq<int>>): Producto -> bool
  {
    if k == 1 then (p: Producto) => Includes(ToLower(p.nombre), ToLower(f.busqueda))
    else if k == 2 then (p: Producto) => p.categoria == f.categoria
    else if k == 3 then (p: Producto) => lista.Some? && p.id in lista.value
    else if k == 4 then (p: Producto) => PasaMin(f.precioMin, p)
    else if k == 5 then (p: Producto) => PasaMax(f.precioMax, p)
    else (p: Producto) => p.esBasico
  }

  /** Step `k` turns the filter by the first `k - 1` tests into the filter by the first `k`. */
  lemma Paso(k: nat, productos: seq<Producto>, f: Filtros, lista: Option<seq<int>>, filtrados: seq<Producto>)
    requires 1 <= k <= 6 && filtrados == Filtrar(productos, Etapas(k - 1, f, lista))
    ensures (if Guarda(k, f, lista) then Filtrar(filtrados, Prueba(k, f, lista)) else filtrados)
      == Filtrar(productos, Etapas(k, f, lista))
  {
    FiltrarSi(productos, Etapas(k - 1, f, lista), Guarda(k, f, lista), Prueba(k, f, lista), Etapas(k, f, lista), filtrados);
  }

  /** The six steps together are the reference test. */
  lemma TodasLasEtapas(productos: seq<Producto>, secciones: seq<Seccion>, f: Filtros)
    ensures Filtrar(productos, Etapas(6, f, ListaSeccion(f, secciones))) == Filtrar(productos, PasaTodo(f, secciones))
  {
    FiltrarExt(productos, Etapas(6, f, ListaSeccion(f, secciones)), PasaTodo(f, secciones));
  }

  function PasaTodo(f: Filtros, secciones: seq<Seccion>): Producto -> bool
  {
    (p: Producto) => Pasa(f, secciones, p)
  }

  /** What the page shows: the products that pass, in the chosen price order. */
  function Catalogo(productos: seq<Producto>, secciones: seq<Seccion>, f: Filtros): seq<Producto>
  {
    Ordenar(Filtrar(productos, PasaTodo(f, secciones)), f.orden)
  }

  // ----- aplicarFiltros, step by step -----

  /** `aplicarFiltros`: one filter after another on a copy of the products, then the sort. */
  method AplicarFiltros(productos: seq<Producto>, secciones: seq<Seccion>, f: Filtros) returns (filtrados: seq<Producto>)
    ensures filtrados == Catalogo(productos, secciones, f)
  {
    var lista := ListaSeccion(f, secciones);
    filtrados := productos;
    FiltrarTodos(productos, Etapas(0, f, lista));
    filtrados := Etapa(1, productos, f, lista, filtrados, f.busqueda != "");
    filtrados := Etapa(2, productos, f, lista, filtrados, f.categoria != "todos");
    var conLista := HaySeccion(f, secciones);
    filtrados := Etapa(3, productos, f, lista, filtrados, conLista);
    filtrados := Etapa(4, productos, f, lista, filtrados, !f.precioMin.SinCota?);
    filtrados := Etapa(5, productos, f, lista, filtrados, !f.precioMax.SinCota?);
    filtrados := Etapa(6, productos, f, lista, filtrados, f.mostrarBasicos);
    TodasLasEtapas(productos, secciones, f);
    filtrados := OrdenarPorPrecio(filtrados, f.orden);
  }

  /**
   * One `if (...) filtrados = filtrados.filter(...)` of `aplicarFiltros`: step `k` filters by its
   * test when its guard holds and otherwise passes the list on.
   */
  method Etapa(k: nat, productos: seq<Producto>, f: Filtros, lista: Option<seq<int>>, filtrados: seq<Producto>, aplica: bool)
    returns (r: seq<Producto>)
    requires 1 <= k <= 6 && aplica == Guarda(k, f, lista)
    requires filtrados == Filtrar(productos, Etapas(k - 1, f, lista))
    ensures r == Filtrar(productos, Etapas(k, f, lista))
  {
    Paso(k, productos, f, lista, filtrados);
    r := filtrados;
    if aplica {
      r := Filtrar(filtrados, Prueba(k, f, lista));
    }
  }

  /** The guard of the section step: a section is selected, found, and carries a product list. */
  method HaySeccion(f: Filtros, secciones: seq<Seccion>) returns (b: bool)
    ensures b <==> ListaSeccion(f, secciones).Some?
  {
    b := false;
    if f.seccion != "" {
      var s := BuscarSeccion(secciones, ParseInt(f.seccion));
      b := s.Some? && s.value.productos.Some?;
    }
  }

  /** The `sort` at the end of `aplicarFiltros`, by price up or down, or none. */
  method OrdenarPorPrecio(s: seq<Producto>, o: Orden) returns (r: seq<Producto>)
    ensures r == Ordenar(s, o)
  {
    r := s;
    if o == Asc {
      r := Sorting.Sort(s, PrecioAsc);
    } else if o == Desc {
      r := Sorting.Sort(s, PrecioDesc);
    }
  }

  // ----- properties -----

  /** A product is shown exactly when it was loaded and passes every active filter. */
  lemma CatalogoMiembro(productos: seq<Producto>, secciones: seq<Seccion>, f: Filtros, x: Producto)
    ensures x in Catalogo(productos, secciones, f) <==> x in productos && Pasa(f, secciones, x)
  {
    var r := Filtrar(productos, PasaTodo(f, secciones));
    OrdenarEfecto(r, f.orden);
    assert x in Catalogo(productos, secciones, f) <==> x in multiset(r);
    FiltrarMiembro(productos, PasaTodo(f, secciones), x);
  }

  /**
   * Each shown product satisfies every filter that is on: its name contains the search term
   * regardless of case, its category matches, it belongs to the selected section when that
   * section is found with a product list, its price lies within the bounds, both inclusive, and
   * it is basic when only basic products are asked for.
   */
  lemma CatalogoFiltrosActivos(productos: seq<Producto>, secciones: seq<Seccion>, f: Filtros, x: Producto)
    requires x in Catalogo(productos, secciones, f)
    ensures x in productos
    ensures f.busqueda != "" ==> Contains(ToLower(x.nombre), ToLower(f.busqueda))
    ensures f.categoria != "todos" ==> x.categoria == f.categoria
    ensures ListaSeccion(f, secciones).Some? ==> x.id in ListaSeccion(f, secciones).value
    ensures f.precioMin.Centavos? ==> f.precioMin.v <= x.precio
    ensures f.precioMax.Centavos? ==> x.precio <= f.precioMax.v
    ensures f.mostrarBasicos ==> x.esBasico
  {
    CatalogoMiembro(productos, secciones, f, x);
    IncludesIsContains(ToLower(x.nombre), ToLower(f.busqueda));
  }

  /** A bound that is not a number hides every product. */
  lemma CotaNoNumero(productos: seq<Producto>, secciones: seq<Seccion>, f: Filtros)
    requires f.precioMin == NoNumero || f.precioMax == NoNumero
    ensures Catalogo(productos, secciones, f) == []
  {
    var r := Catalogo(productos, secciones, f);
    if r != [] {
      CatalogoMiembro(productos, secciones, f, r[0]);
      assert false;
    }
  }

  /** With no price order the shown list is the loaded one with some products dropped. */
  lemma CatalogoSinOrden(productos: seq<Producto>, secciones: seq<Seccion>, f: Filtros)
    requires f.orden == SinOrden
    ensures Subsecuencia(Catalogo(productos, secciones, f), productos)
  {
    FiltrarSubsecuencia(productos, PasaTodo(f, secciones));
  }

  /** `asc` and `desc` show the same products as no order, sorted by price. */
  lemma CatalogoOrdenado(productos: seq<Producto>, secciones: seq<Seccion>, f: Filtros)
    ensures multiset(Catalogo(productos, secciones, f)) == multiset(Catalogo(productos, secciones, f.(orden := SinOrden)))
    ensures var r := Catalogo(productos, secciones, f);
      f.orden == Asc ==> forall i, j :: 0 <= i < j < |r| ==> r[i].precio <= r[j].precio
    ensures var r := Catalogo(productos, secciones, f);
      f.orden == Desc ==> forall i, j :: 0 <= i < j < |r| ==> r[i].precio >= r[j].precio
  {
    var s := Filtrar(productos, PasaTodo(f, secciones));
    OrdenarEfecto(s, f.orden);
    var g := f.(orden := SinOrden);
    assert ListaSeccion(g, secciones) == ListaSeccion(f, secciones);
    FiltrarExt(productos, PasaTodo(g, secciones), PasaTodo(f, secciones));
  }

  /**
   * A section id that is not found, or a section without a product list, filters nothing: the
   * page shows what it shows with no section selected.
   */
  lemma SeccionSinLista(productos: seq<Producto>, secciones: seq<Seccion>, f: Filtros)
    requires var s := BuscarSeccion(secciones, ParseInt(f.seccion)); s.None? || s.value.productos.None?
    ensures Catalogo(productos, secciones, f) == Catalogo(productos, secciones, f.(seccion := ""))
  {
    assert ListaSeccion(f, secciones).None?;
    FiltrarExt(productos, PasaTodo(f, secciones), PasaTodo(f.(seccion := ""), secciones));
  }

  /** Under the filters `limpiarFiltros` restores every loaded product is shown, in its order. */
  lemma LimpiarMuestraTodo(productos: seq<Producto>, secciones: seq<Seccion>)
    ensures Catalogo(productos, secciones, Iniciales) == productos
  {
    FiltrarTodos(productos, PasaTodo(Iniciales, secciones));
  }

  // ----- the page -----

  /** The page's state; the effect keeps `productosFiltrados` equal to what the filters select. */
  class Pagina {
    var productos: seq<Producto>
    var secciones: seq<Seccion>
    var filtros: Filtros
    var productosFiltrados: seq<Producto>
    var carrito: seq<Item>

    predicate Valido()
      reads this
    {
      IdsUnicos(carrito) && productosFiltrados == Catalogo(productos, secciones, filtros)
    }

    constructor ()
      ensures Valido() && productos == [] && secciones == [] && filtros == Iniciales && carrito == []
    {
      productos, secciones, filtros, productosFiltrados, carrito := [], [], Iniciales, [], [];
    }

    /** The effect on `[productos, filtros, secciones]`. */
    method Actualizar()
      modifies this
      ensures Valido() || !IdsUnicos(carrito)
      ensures productosFiltrados == Catalogo(productos, secciones, filtros)
      ensures productos == old(productos) && secciones == old(secciones) && filtros == old(filtros)
      ensures carrito == old(carrito)
    {
      productosFiltrados := AplicarFiltros(productos, secciones, filtros);
    }

    /** `cargarProductos`: a reply that is not an array, and a failed call, leave no products. */
    method CargarProductos(c: Carga)
      requires Valido()
      modifies this
      ensures Valido() && secciones == old(secciones) && filtros == old(filtros) && carrito == old(carrito)
      ensures productos == (if c.Lista? then c.ps else [])
    {
      productos := if c.Lista? then c.ps else [];
      Actualizar();
    }

    /**
     * `cargarSecciones`: an array reply replaces the sections and one that is not an array
     * empties them; a failed call is only logged, so the sections stay as they were. The section
     * filter then works on the new list.
     */
    method CargarSecciones(r: RespuestaSecciones)
      requires Valido()
      modifies this
      ensures Valido() && productos == old(productos) && filtros == old(filtros) && carrito == old(carrito)
      ensures secciones == (match r case Secciones(ss) => ss case NoArreglo => [] case FallaSecciones => old(secciones))
    {
      match r {
        case Secciones(ss) => secciones := ss;
        case NoArreglo => secciones := [];
        case FallaSecciones =>
      }
      Actualizar();
    }

    method CambiarFiltros(f: Filtros)
      requires Valido()
      modifies this
      ensures Valido() && filtros == f
      ensures productos == old(productos) && secciones == old(secciones) && carrito == old(carrito)
    {
      filtros := f;
      Actualizar();
    }

    /** `limpiarFiltros`: the initial filters, under which every product is shown. */
    method LimpiarFiltros()
      requires Valido()
      modifies this
      ensures Valido() && filtros == Iniciales && productosFiltrados == productos
      ensures productos == old(productos) && secciones == old(secciones) && carrito == old(carrito)
    {
      CambiarFiltros(Iniciales);
      LimpiarMuestraTodo(productos, secciones);
    }

    method AgregarAlCarrito(p: Producto)
      requires Valido()
      modifies this
      ensures Valido() && carrito == AgregarLibre(old(carrito), p)
      ensures productos == old(productos) && secciones == old(secciones) && filtros == old(filtros)
      ensures productosFiltrados == old(productosFiltrados)
    {
      AgregarLibreEfecto(carrito, p);
      carrito := AgregarLibre(carrito, p);
    }
  }
}
