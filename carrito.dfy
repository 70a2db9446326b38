/**
 * The shopping cart the store's browser panels keep in React state: a list of entries, each the
 * product's fields spread into a new object plus `cantidad`. The panels compute a new list with
 * `find`, `map`, `filter` and spread and commit it with `setCarrito`; the transforms are defined
 * here once, in the two flavours the panels use (with and without a stock cap on increments).
 * Prices are integer cents.
 */
module Carrito {
  import opened Wrappers
  import opened Listas
  import PedidoLineas
  import Inventory
  import Serializers
  import Sorting

  /** A product as the catalogue and the shopping panels receive it. */
  datatype Producto = Producto(id: int, nombre: string, categoria: string, precio: int, stock: int, esBasico: bool)

  /** A cart entry: `{ ...producto, cantidad }`. */
  datatype Item = Item(producto: Producto, cantidad: int)

  /** No product appears in two entries. */
  predicate IdsUnicos(c: seq<Item>)
  {
    forall i, j :: 0 <= i < j < |c| ==> c[i].producto.id != c[j].producto.id
  }

  /** Every entry holds between one unit and the stock its product had when it was added. */
  predicate Acotado(c: seq<Item>)
  {
    forall i :: 0 <= i < |c| ==> 1 <= c[i].cantidad <= c[i].producto.stock
  }

  function ConId(id: int): Item -> bool { (it: Item) => it.producto.id == id }

  function SinId(id: int): Item -> bool { (it: Item) => it.producto.id != id }

  /** `Math.min`. */
  function Min(a: int, b: int): int { if a <= b then a else b }

  /** `carrito.find(p => p.id === id)`, as the position of the first entry for that product. */
  function Posicion(c: seq<Item>, id: int): (r: Option<nat>)
    ensures r.Some? ==> r.value < |c| && c[r.value].producto.id == id
    ensures r.Some? ==> forall j :: 0 <= j < r.value ==> c[j].producto.id != id
    ensures r.None? ==> forall j :: 0 <= j < |c| ==> c[j].producto.id != id
  {
    if c == [] then None
    else if c[0].producto.id == id then Some(0)
    else
      var r := Posicion(c[1..], id);
      if r.Some? then Some(r.value + 1) else None
  }

  function Mas1(id: int): Item -> Item
  {
    (it: Item) => if it.producto.id == id then it.(cantidad := it.cantidad + 1) else it
  }

  function Fijar(id: int, n: int): Item -> Item
  {
    (it: Item) => if it.producto.id == id then it.(cantidad := Min(n, it.producto.stock)) else it
  }

  /** `agregarAlCarrito` without a cap: one more unit of a product already there, else a new entry of one. */
  function AgregarLibre(c: seq<Item>, p: Producto): seq<Item>
  {
    if Posicion(c, p.id).Some? then Mapear(c, Mas1(p.id)) else c + [Item(p, 1)]
  }

  /**
   * `agregarAlCarrito` with a cap: an entry already there grows only while its quantity is below
   * the stock of the product being added; a new product comes in with one unit.
   */
  function AgregarConTope(c: seq<Item>, p: Producto): seq<Item>
  {
    match Posicion(c, p.id)
    case Some(k) => if c[k].cantidad < p.stock then Mapear(c, Mas1(p.id)) else c
    case None => c + [Item(p, 1)]
  }

  /** `eliminarDelCarrito`. */
  function Eliminar(c: seq<Item>, id: int): seq<Item>
  {
    Filtrar(c, SinId(id))
  }

  /** `actualizarCantidad`: a quantity of zero or less removes the entry; any other is capped by the entry's stock. */
  function ActualizarCantidad(c: seq<Item>, id: int, n: int): seq<Item>
  {
    if n <= 0 then Eliminar(c, id) else Mapear(c, Fijar(id, n))
  }

  function Subtotal(it: Item): int { it.producto.precio * it.cantidad }

  /** `carrito.reduce((sum, item) => sum + item.precio * item.cantidad, 0)`. */
  function Total(c: seq<Item>): int { Sumar(c, Subtotal) }

  function ALinea(it: Item): PedidoLineas.Linea { PedidoLineas.Linea(it.producto.id, it.cantidad) }

  /** `carrito.map(p => ({ producto: p.id, cantidad: p.cantidad }))`. */
  function Detalles(c: seq<Item>): seq<PedidoLineas.Linea> { Mapear(c, ALinea) }

  // ----- what the panels receive -----

  /**
   * How a product load ends: the reply is an array, or it is some other value (which
   * `Array.isArray(data) ? data : []` turns into an empty list), or the call throws.
   */
  datatype Carga = Lista(ps: seq<Producto>) | NoLista | Falla

  /** How the `api.crearPedido` call ends: the created order's id, or the text of the error shown. */
  datatype Respuesta = Creado(id: nat) | Fallo(mensaje: string)

  /** The message every panel shows for an empty cart. */
  const CarritoVacio: string := "El carrito está vacío"

  // ----- the listing filters the panels share -----

  /** The category filter of the client panels: `basicos`, `no_basicos`, anything else keeps all. */
  function PorCategoria(ps: seq<Producto>, filtro: string): seq<Producto>
  {
    Filtrar(ps, EnCategoria(filtro))
  }

  function EnCategoria(filtro: string): Producto -> bool
  {
    (p: Producto) => if filtro == "basicos" then p.esBasico else if filtro == "no_basicos" then !p.esBasico else true
  }

  /** The price order of the catalogues: `asc`, `desc`, or their order as loaded. */
  datatype Orden = Asc | Desc | SinOrden

  function PrecioAsc(a: Producto, b: Producto): bool { a.precio <= b.precio }

  function PrecioDesc(a: Producto, b: Producto): bool { b.precio <= a.precio }

  /** `filtrados.sort((a, b) => a.precio - b.precio)` and its reverse, a stable sort. */
  function Ordenar(s: seq<Producto>, o: Orden): seq<Producto>
  {
    match o
    case Asc => Sorting.Sort(s, PrecioAsc)
    case Desc => Sorting.Sort(s, PrecioDesc)
    case SinOrden => s
  }

  // ----- properties -----

  /**
   * `basicos` and `no_basicos` split the list between them, each in the loaded order; `todos`
   * (or any other value) keeps the list as it is.
   */
  lemma PorCategoriaParticion(ps: seq<Producto>, otro: string)
    requires otro != "basicos" && otro != "no_basicos"
    ensures forall x :: x in PorCategoria(ps, "basicos") <==> x in ps && x.esBasico
    ensures forall x :: x in PorCategoria(ps, "no_basicos") <==> x in ps && !x.esBasico
    ensures multiset(PorCategoria(ps, "basicos")) + multiset(PorCategoria(ps, "no_basicos")) == multiset(ps)
    ensures PorCategoria(ps, otro) == ps
  {
    forall x ensures x in PorCategoria(ps, "basicos") <==> x in ps && x.esBasico {
      FiltrarMiembro(ps, EnCategoria("basicos"), x);
    }
    forall x ensures x in PorCategoria(ps, "no_basicos") <==> x in ps && !x.esBasico {
      FiltrarMiembro(ps, EnCategoria("no_basicos"), x);
    }
    Particion(ps, EnCategoria("basicos"), EnCategoria("no_basicos"));
    FiltrarTodos(ps, EnCategoria(otro));
  }

  /** Sorting by price orders the list by price and keeps its elements; no order keeps it as it is. */
  lemma OrdenarEfecto(s: seq<Producto>, o: Orden)
    ensures multiset(Ordenar(s, o)) == multiset(s)
    ensures o == Asc ==> forall i, j :: 0 <= i < j < |s| ==> Ordenar(s, o)[i].precio <= Ordenar(s, o)[j].precio
    ensures o == Desc ==> forall i, j :: 0 <= i < j < |s| ==> Ordenar(s, o)[i].precio >= Ordenar(s, o)[j].precio
    ensures o == SinOrden ==> Ordenar(s, o) == s
  {
    match o
    case Asc => Sorting.SortSorted(s, PrecioAsc);
    case Desc => Sorting.SortSorted(s, PrecioDesc);
    case SinOrden =>
  }

  /** Raising the quantity of the one entry for `id` leaves every other entry as it was. */
  lemma Incremento(c: seq<Item>, id: int, k: nat)
    requires IdsUnicos(c) && k < |c| && c[k].producto.id == id
    ensures var r := Mapear(c, Mas1(id));
      && |r| == |c| && IdsUnicos(r)
      && r[k] == c[k].(cantidad := c[k].cantidad + 1)
      && (forall j :: 0 <= j < |c| && j != k ==> r[j] == c[j])
      && Total(r) == Total(c) + c[k].producto.precio
  {
    var r := Mapear(c, Mas1(id));
    assert forall j :: 0 <= j < |c| ==> r[j].producto == c[j].producto;
    SumarCambioUno(c, r, k, Subtotal);
  }

  lemma Nuevo(c: seq<Item>, p: Producto)
    requires IdsUnicos(c) && Posicion(c, p.id).None?
    ensures var r := c + [Item(p, 1)]; IdsUnicos(r) && Total(r) == Total(c) + p.precio
  {
    SumarConcat(c, [Item(p, 1)], Subtotal);
  }

  /**
   * Adding without a cap: a product already in the cart gets exactly one more unit and nothing
   * else changes; a new one is appended with one unit. Ids stay unique and the total grows by
   * one unit's price.
   */
  lemma AgregarLibreEfecto(c: seq<Item>, p: Producto)
    requires IdsUnicos(c)
    ensures var r := AgregarLibre(c, p);
      && IdsUnicos(r)
      && (Posicion(c, p.id).None? ==> r == c + [Item(p, 1)] && Total(r) == Total(c) + p.precio)
      && (Posicion(c, p.id).Some? ==>
            var k := Posicion(c, p.id).value;
            && |r| == |c| && r[k].cantidad == c[k].cantidad + 1 && r[k].producto == c[k].producto
            && (forall j :: 0 <= j < |c| && j != k ==> r[j] == c[j])
            && Total(r) == Total(c) + c[k].producto.precio)
  {
    match Posicion(c, p.id)
    case Some(k) => Incremento(c, p.id, k);
    case None => Nuevo(c, p);
  }

  /**
   * Adding with a cap: as without one, except that an entry whose quantity has reached the stock
   * of the product being added stays as it is, and then the cart is unchanged.
   */
  lemma AgregarConTopeEfecto(c: seq<Item>, p: Producto)
    requires IdsUnicos(c)
    ensures var r := AgregarConTope(c, p);
      && IdsUnicos(r)
      && (Posicion(c, p.id).None? ==> r == c + [Item(p, 1)])
      && (Posicion(c, p.id).Some? ==>
            var k := Posicion(c, p.id).value;
            if c[k].cantidad < p.stock then
              && |r| == |c| && r[k] == c[k].(cantidad := c[k].cantidad + 1)
              && (forall j :: 0 <= j < |c| && j != k ==> r[j] == c[j])
            else r == c)
  {
    match Posicion(c, p.id)
    case Some(k) => if c[k].cantidad < p.stock { Incremento(c, p.id, k); }
    case None => Nuevo(c, p);
  }

  /**
   * With the cap, and with the button disabled for a product without stock, no entry ever holds
   * more units than its product's stock (the entries of one store's page hold that page's
   * products, so the product being added is the one its entry copied).
   */
  lemma AgregarConTopeAcota(c: seq<Item>, p: Producto)
    requires IdsUnicos(c) && Acotado(c) && p.stock != 0 && p.stock >= 0
    requires forall i :: 0 <= i < |c| && c[i].producto.id == p.id ==> c[i].producto == p
    ensures Acotado(AgregarConTope(c, p))
  {
    AgregarConTopeEfecto(c, p);
  }

  /** Without the cap the same sequence of clicks can go past the stock. */
  lemma AgregarLibreExcede(p: Producto)
    requires p.stock == 1
    ensures !Acotado(AgregarLibre(AgregarLibre([], p), p))
  {
    var c := AgregarLibre([], p);
    assert c == [Item(p, 1)];
    assert Posicion(c, p.id) == Some(0);
    assert AgregarLibre(c, p)[0].cantidad == 2;
  }

  /** What a filter keeps, with unique ids, still has unique ids. */
  lemma {:induction false} FiltrarUnicos(c: seq<Item>, f: Item -> bool)
    requires IdsUnicos(c)
    ensures IdsUnicos(Filtrar(c, f))
  {
    if c != [] {
      FiltrarUnicos(c[1..], f);
      var r := Filtrar(c[1..], f);
      if f(c[0]) {
        forall j | 0 <= j < |r| ensures r[j].producto.id != c[0].producto.id {
          FiltrarMiembro(c[1..], f, r[j]);
          var m :| 0 <= m < |c[1..]| && c[1..][m] == r[j];
          assert c[m + 1] == r[j];
        }
        var t := [c[0]] + r;
        assert Filtrar(c, f) == t;
        assert forall j :: 1 <= j < |t| ==> t[j] == r[j - 1];
      }
    }
  }

  /**
   * Removing drops exactly the entries of that product and keeps the others in their order; the
   * total loses exactly the subtotal of what was dropped.
   */
  lemma EliminarEfecto(c: seq<Item>, id: int)
    requires IdsUnicos(c)
    ensures var r := Eliminar(c, id);
      && IdsUnicos(r)
      && (forall x :: x in r <==> x in c && x.producto.id != id)
      && Subsecuencia(r, c)
      && Total(r) == Total(c) - Total(Filtrar(c, ConId(id)))
  {
    FiltrarUnicos(c, SinId(id));
    forall x ensures x in Eliminar(c, id) <==> x in c && x.producto.id != id {
      FiltrarMiembro(c, SinId(id), x);
    }
    FiltrarSubsecuencia(c, SinId(id));
    ParticionSuma(c, ConId(id), SinId(id), Subtotal);
  }

  /**
   * Setting a positive quantity caps it by the entry's own stock and touches no other entry; a
   * cart whose entries hold at least one unit of stock stays within its bounds.
   */
  lemma ActualizarCantidadEfecto(c: seq<Item>, id: int, n: int)
    requires IdsUnicos(c)
    ensures n <= 0 ==> ActualizarCantidad(c, id, n) == Eliminar(c, id)
    ensures IdsUnicos(ActualizarCantidad(c, id, n))
    ensures n > 0 ==> var r := ActualizarCantidad(c, id, n);
      && |r| == |c|
      && forall j :: 0 <= j < |c| ==>
           r[j] == (if c[j].producto.id == id then c[j].(cantidad := Min(n, c[j].producto.stock)) else c[j])
    ensures n > 0 && Acotado(c) ==> Acotado(ActualizarCantidad(c, id, n))
  {
    if n <= 0 {
      EliminarEfecto(c, id);
    } else {
      var r := Mapear(c, Fijar(id, n));
      assert forall j :: 0 <= j < |c| ==> r[j].producto == c[j].producto;
    }
  }

  /** The order body holds one detail per entry, in order, and names no product twice. */
  lemma DetallesEfecto(c: seq<Item>)
    requires IdsUnicos(c)
    ensures var d := Detalles(c);
      && |d| == |c|
      && (forall i :: 0 <= i < |c| ==> d[i].producto == c[i].producto.id && d[i].cantidad == c[i].cantidad)
      && (forall i, j :: 0 <= i < j < |d| ==> d[i].producto != d[j].producto)
  {
  }

  /**
   * Since the cart never names a product twice, an order sent from it that the order serializer
   * accepts can be served in full by the view's detail loop.
   */
  lemma CarritoAdmisible(c: seq<Item>, tiendas: set<int>, ps: map<int, Inventory.Producto>, tienda: int)
    requires IdsUnicos(c)
    requires Serializers.ValidarPedido(tiendas, ps, tienda, Detalles(c)).Ok?
    ensures PedidoLineas.Admisibles(ps, Detalles(c))
  {
    DetallesEfecto(c);
    Serializers.ValidoYDistintoEsAdmisible(tiendas, ps, tienda, Detalles(c));
  }
}
