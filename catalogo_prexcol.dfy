/**
 * The product catalogue of prexcol/frontend/src/components/productos/Catalogo.jsx: the products of
 * one store (or every visible product), narrowed by a name search that always runs, a category
 * and the basic-products switch, then sorted by price; an uncapped cart, and an order request
 * whose reply empties the cart only when it carries an id.
 */
module CatalogoPrexcol {
  import opened Wrappers
  import opened Text
  import opened Listas
  import opened Carrito
  import PedidoLineas
  import Sorting

  datatype Filtros = Filtros(busqueda: string, categoria: string, orden: Orden, mostrarBasicos: bool)

  /** The filters the page starts with. */
  const Iniciales: Filtros := Filtros("", "todos", SinOrden, false)

  // ----- the reference: one test per product -----

  predicate PasaNombre(f: Filtros, p: Producto) { Includes(ToLower(p.nombre), ToLower(f.busqueda)) }

  predicate PasaCategoria(f: Filtros, p: Producto) { f.categoria == "todos" || p.categoria == f.categoria }

  predicate PasaBasico(f: Filtros, p: Producto) { !f.mostrarBasicos || p.esBasico }

  predicate Pasa(f: Filtros, p: Producto) { PasaNombre(f, p) && PasaCategoria(f, p) && PasaBasico(f, p) }

  function PorNombre(f: Filtros): Producto -> bool { (p: Producto) => PasaNombre(f, p) }

  function NombreYCategoria(f: Filtros): Producto -> bool { (p: Producto) => PasaNombre(f, p) && PasaCategoria(f, p) }

  function PasaTodo(f: Filtros): Producto -> bool { (p: Producto) => Pasa(f, p) }

  function DeCategoria(c: string): Producto -> bool { (p: Producto) => p.categoria == c }

  function Basico(): Producto -> bool { (p: Producto) => p.esBasico }

  /** What the page shows: the products that pass, in the chosen price order. */
  function Catalogo(productos: seq<Producto>, f: Filtros): seq<Producto>
  {
    Ordenar(Filtrar(productos, PasaTodo(f)), f.orden)
  }

  // ----- aplicarFiltros, step by step -----

  /** `aplicarFiltros`: the search filter, the category and basic filters when on, then the sort. */
  method AplicarFiltros(productos: seq<Producto>, f: Filtros) returns (filtrados: seq<Producto>)
    ensures filtrados == Catalogo(productos, f)
  {
    filtrados := Filtrar(productos, PorNombre(f));
    FiltrarSi(productos, PorNombre(f), f.categoria != "todos", DeCategoria(f.categoria), NombreYCategoria(f), filtrados);
    if f.categoria != "todos" {
      filtrados := Filtrar(filtrados, DeCategoria(f.categoria));
    }
    FiltrarSi(productos, NombreYCategoria(f), f.mostrarBasicos, Basico(), PasaTodo(f), filtrados);
    if f.mostrarBasicos {
      filtrados := Filtrar(filtrados, Basico());
    }
    if f.orden == Asc {
      filtrados := Sorting.Sort(filtrados, PrecioAsc);
    } else if f.orden == Desc {
      filtrados := Sorting.Sort(filtrados, PrecioDesc);
    }
  }

  // ----- properties -----

  /** A product is shown exactly when it was loaded and passes the three filters. */
  lemma CatalogoMiembro(productos: seq<Producto>, f: Filtros, x: Producto)
    ensures x in Catalogo(productos, f) <==> x in productos && Pasa(f, x)
  {
    var r := Filtrar(productos, PasaTodo(f));
    OrdenarEfecto(r, f.orden);
    assert x in Catalogo(productos, f) <==> x in multiset(r);
    FiltrarMiembro(productos, PasaTodo(f), x);
  }

  /**
   * Each shown product has the search term in its name regardless of case, the chosen category
   * unless that is `todos`, and is basic when only basic products are asked for.
   */
  lemma CatalogoFiltrosActivos(productos: seq<Producto>, f: Filtros, x: Producto)
    requires x in Catalogo(productos, f)
    ensures x in productos
    ensures Contains(ToLower(x.nombre), ToLower(f.busqueda))
    ensures f.categoria != "todos" ==> x.categoria == f.categoria
    ensures f.mostrarBasicos ==> x.esBasico
  {
    CatalogoMiembro(productos, f, x);
    IncludesIsContains(ToLower(x.nombre), ToLower(f.busqueda));
  }

  /** With no price order the shown list is the loaded one with some products dropped. */
  lemma CatalogoSinOrden(productos: seq<Producto>, f: Filtros)
    requires f.orden == SinOrden
    ensures Subsecuencia(Catalogo(productos, f), productos)
  {
    FiltrarSubsecuencia(productos, PasaTodo(f));
  }

  /** An empty search term keeps every product: the search step returns the list unchanged. */
  lemma BusquedaVacia(productos: seq<Producto>, f: Filtros)
    requires f.busqueda == ""
    ensures Filtrar(productos, PorNombre(f)) == productos
    ensures f.categoria == "todos" && !f.mostrarBasicos && f.orden == SinOrden ==> Catalogo(productos, f) == productos
  {
    forall i | 0 <= i < |productos|
      ensures PasaNombre(f, productos[i]) && Pasa(f, productos[i]) == (PasaCategoria(f, productos[i]) && PasaBasico(f, productos[i]))
    {
      IncludesEmpty(ToLower(productos[i].nombre));
    }
    FiltrarTodos(productos, PorNombre(f));
    if f.categoria == "todos" && !f.mostrarBasicos {
      FiltrarTodos(productos, PasaTodo(f));
    }
  }

  /** `asc` and `desc` show the same products as no order, sorted by price. */
  lemma CatalogoOrdenado(productos: seq<Producto>, f: Filtros)
    ensures multiset(Catalogo(productos, f)) == multiset(Catalogo(productos, f.(orden := SinOrden)))
    ensures var r := Catalogo(productos, f);
      f.orden == Asc ==> forall i, j :: 0 <= i < j < |r| ==> r[i].precio <= r[j].precio
    ensures var r := Catalogo(productos, f);
      f.orden == Desc ==> forall i, j :: 0 <= i < j < |r| ==> r[i].precio >= r[j].precio
  {
    var s := Filtrar(productos, PasaTodo(f));
    OrdenarEfecto(s, f.orden);
    FiltrarExt(productos, PasaTodo(f.(orden := SinOrden)), PasaTodo(f));
  }

  // ----- the page -----

  /** Where `cargarProductos` reads: the provider's own products for store 0, else one store's. */
  datatype Fuente = MisProductos | DeTienda(tienda: int)

  /**
   * How `api.crearPedido` ends: a 2xx reply whose body may carry an `id`, or a thrown error
   * (which `crearPedido` does not catch).
   */
  datatype Envio = Cuerpo(id: Option<int>) | Lanza

  /** `response.id` is truthy: present and not 0. */
  predicate ConIdentificador(e: Envio) { e.Cuerpo? && e.id.Some? && e.id.value != 0 }

  class Pagina {
    var productos: seq<Producto>
    var productosFiltrados: seq<Producto>
    var carrito: seq<Item>
    var tiendaId: int
    var filtros: Filtros

    /** The cart names each product once and the shown list is what the filters select. */
    predicate Valido()
      reads this
    {
      IdsUnicos(carrito) && productosFiltrados == Catalogo(productos, filtros)
    }

    constructor ()
      ensures Valido() && productos == [] && carrito == [] && tiendaId == 1 && filtros == Iniciales
    {
      productos, productosFiltrados, carrito, tiendaId, filtros := [], [], [], 1, Iniciales;
    }

    /** The effect on `[productos, busqueda, categoriaFiltro, ordenPrecio, mostrarBasicos]`. */
    method Actualizar()
      modifies this
      ensures productosFiltrados == Catalogo(productos, filtros)
      ensures productos == old(productos) && filtros == old(filtros) && carrito == old(carrito) && tiendaId == old(tiendaId)
    {
      productosFiltrados := AplicarFiltros(productos, filtros);
    }

    /**
     * `cargarProductos`: the source follows `tiendaId`; a reply that is not an array and a
     * failed call both leave no products. The cart is kept.
     */
    method CargarProductos(c: Carga) returns (fuente: Fuente)
      requires Valido()
      modifies this
      ensures Valido() && filtros == old(filtros) && carrito == old(carrito) && tiendaId == old(tiendaId)
      ensures fuente == (if tiendaId == 0 then MisProductos else DeTienda(tiendaId))
      ensures productos == (if c.Lista? then c.ps else [])
    {
      fuente := if tiendaId == 0 then MisProductos else DeTienda(tiendaId);
      productos := if c.Lista? then c.ps else [];
      Actualizar();
    }

    /** Choosing a store in the selector: the effect on `[tiendaId]` reloads from the new source. */
    method CambiarTienda(t: int, c: Carga) returns (fuente: Fuente)
      requires Valido()
      modifies this
      ensures Valido() && tiendaId == t && filtros == old(filtros) && carrito == old(carrito)
      ensures fuente == (if t == 0 then MisProductos else DeTienda(t))
      ensures productos == (if c.Lista? then c.ps else [])
    {
      tiendaId := t;
      fuente := CargarProductos(c);
    }

    method CambiarFiltros(f: Filtros)
      requires Valido()
      modifies this
      ensures Valido() && filtros == f
      ensures productos == old(productos) && carrito == old(carrito) && tiendaId == old(tiendaId)
    {
      filtros := f;
      Actualizar();
    }

    /** `agregarAlCarrito`: append with quantity 1 or add one, with no stock cap. */
    method AgregarAlCarrito(p: Producto)
      requires Valido()
      modifies this
      ensures Valido() && carrito == AgregarLibre(old(carrito), p)
      ensures productos == old(productos) && productosFiltrados == old(productosFiltrados)
      ensures filtros == old(filtros) && tiendaId == old(tiendaId)
    {
      AgregarLibreEfecto(carrito, p);
      carrito := AgregarLibre(carrito, p);
    }

    /**
     * `crearPedido`: the handler itself does not check for an empty cart (the page disables its
     * button while the cart is empty), so a call sends one detail per entry, whatever their
     * number; the cart is emptied only when the reply carries a truthy `id`.
     */
    method CrearPedido(e: Envio) returns (enviado: seq<PedidoLineas.Linea>)
      requires Valido()
      modifies this
      ensures Valido() && enviado == Detalles(old(carrito))
      ensures carrito == (if ConIdentificador(e) then [] else old(carrito))
      ensures productos == old(productos) && productosFiltrados == old(productosFiltrados)
      ensures filtros == old(filtros) && tiendaId == old(tiendaId)
    {
      enviado := Detalles(carrito);
      if e.Lanza? {
        return;
      }
      if e.id.Some? && e.id.value != 0 {
        carrito := [];
      }
    }
  }
}
