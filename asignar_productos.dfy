/**
 * The assignment of products to providers (frontend/src/components/admin/AsignarProductos.jsx):
 * the list filtered by whether a product has a provider, the per-row choice of provider and
 * its Asignar button, and `handleAsignar`, which records the new provider on that one product.
 */
module AsignarProductos {
  import opened Wrappers
  import opened Listas

  /**
   * A product row's data. Provider ids are numbers from the server and numeric texts from the
   * selector; truthiness and the loose `==` of the page treat both alike, so one `int` stands
   * for either.
   */
  datatype Producto = Producto(id: int, nombre: string, proveedor: Option<int>, proveedorNombre: Option<string>)

  /** The members of the product service's default export (frontend/src/services/productosService.js:271-298). */
  const ServicioProductos: set<string> := {
    "getTiendas", "getMisTiendas", "crearTienda", "actualizarTienda", "eliminarTienda",
    "getProductos", "getProductosPorTienda", "getProducto", "crearProducto", "actualizarProducto", "eliminarProducto",
    "getMisPedidos", "getPedidos", "getPedido", "crearPedido", "cambiarEstadoPedido",
    "getPedidosPendientes", "getPedidosEnPreparacion", "getMetodosPago"
  }

  /** The selector's value: `''` (nothing chosen) or a provider id. */
  datatype Seleccion = Ninguna | Id(v: int)

  /** `p.proveedor` is truthy: present and not 0. */
  predicate ConProveedor(p: Producto) { p.proveedor.Some? && p.proveedor.value != 0 }

  /** `'con_proveedor'`, `'sin_proveedor'`, or any other value, which keeps every product. */
  predicate PasaFiltro(filtro: string, p: Producto)
  {
    (filtro == "con_proveedor" ==> ConProveedor(p)) && (filtro == "sin_proveedor" ==> !ConProveedor(p))
  }

  function Filtro(filtro: string): Producto -> bool { (p: Producto) => PasaFiltro(filtro, p) }

  function ProductosFiltrados(ps: seq<Producto>, filtro: string): seq<Producto> { Filtrar(ps, Filtro(filtro)) }

  /**
   * `con_proveedor` keeps exactly the products with a provider, `sin_proveedor` exactly the
   * others; the two counts on the buttons add up to the count on `Todos`, which lists every
   * product in order.
   */
  lemma FiltrosParticion(ps: seq<Producto>)
    ensures forall x :: x in ProductosFiltrados(ps, "con_proveedor") <==> x in ps && ConProveedor(x)
    ensures forall x :: x in ProductosFiltrados(ps, "sin_proveedor") <==> x in ps && !ConProveedor(x)
    ensures |ProductosFiltrados(ps, "con_proveedor")| + |ProductosFiltrados(ps, "sin_proveedor")| == |ps|
    ensures ProductosFiltrados(ps, "todos") == ps
  {
    forall x ensures x in ProductosFiltrados(ps, "con_proveedor") <==> x in ps && ConProveedor(x) {
      FiltrarMiembro(ps, Filtro("con_proveedor"), x);
    }
    forall x ensures x in ProductosFiltrados(ps, "sin_proveedor") <==> x in ps && !ConProveedor(x) {
      FiltrarMiembro(ps, Filtro("sin_proveedor"), x);
    }
    Particion(ps, Filtro("con_proveedor"), Filtro("sin_proveedor"));
    FiltrarTodos(ps, Filtro("todos"));
  }

  // ----- a row -----

  /** The row's first selection: `producto.proveedor || ''`. */
  function Inicial(p: Producto): Seleccion { if ConProveedor(p) then Id(p.proveedor.value) else Ninguna }

  /** `disabled={!selectedProveedor || selectedProveedor == producto.proveedor}`. */
  predicate Deshabilitado(s: Seleccion, p: Producto)
  {
    s.Ninguna? || (s.Id? && s.v == 0) || (s.Id? && p.proveedor == Some(s.v))
  }

  /**
   * A row as first drawn has its button disabled; an enabled button always passes a chosen
   * provider that differs from the current one.
   */
  lemma BotonEfecto(s: Seleccion, p: Producto)
    ensures Deshabilitado(Inicial(p), p)
    ensures !Deshabilitado(s, p) ==> s.Id? && s.v != 0 && p.proveedor != Some(s.v)
  {
  }

  // ----- the handler -----

  /** The reply of `asignarProveedor`: a body, a `null` body, or an error reply. */
  datatype Respuesta = Exito(mensaje: Option<string>, proveedorNombre: Option<string>)
                     | Nulo
                     | Falla(error: Option<string>)

  /** `a || b` on an optional text. */
  function O(a: Option<string>, b: string): string { if a.Some? && a.value != "" then a.value else b }

  function Asignado(productoId: int, proveedorId: int, nombre: Option<string>): Producto -> Producto
  {
    (p: Producto) => if p.id == productoId then p.(proveedor := Some(proveedorId), proveedorNombre := nombre) else p
  }

  function Asignar(ps: seq<Producto>, productoId: int, proveedorId: int, nombre: Option<string>): seq<Producto>
  {
    Mapear(ps, Asignado(productoId, proveedorId, nombre))
  }

  /** Only the products with that id change, and only in their provider and its name. */
  lemma AsignarEfecto(ps: seq<Producto>, productoId: int, proveedorId: int, nombre: Option<string>)
    ensures var r := Asignar(ps, productoId, proveedorId, nombre);
      && |r| == |ps|
      && (forall i :: 0 <= i < |ps| && ps[i].id != productoId ==> r[i] == ps[i])
      && (forall i :: 0 <= i < |ps| && ps[i].id == productoId ==>
            r[i] == ps[i].(proveedor := Some(proveedorId), proveedorNombre := nombre))
      && (proveedorId != 0 ==> forall i :: 0 <= i < |ps| && ps[i].id == productoId ==> ConProveedor(r[i]))
  {
  }

  class Pagina {
    var productos: seq<Producto>
    var mensaje: string
    var error: string
    var filtro: string

    constructor ()
      ensures productos == [] && mensaje == "" && error == "" && filtro == "todos"
    {
      productos, mensaje, error, filtro := [], "", "", "todos";
    }

    /**
     * `handleAsignar`: with nothing chosen it shows "Selecciona un proveedor" and sends nothing.
     * Otherwise the request goes out; a reply shows its message and records the provider on
     * that product only; a `null` reply throws before the list is touched and, like an error
     * reply, shows the error.
     */
    method HandleAsignar(productoId: int, s: Seleccion, r: Respuesta) returns (enviado: Option<(int, int)>)
      modifies this
      ensures (s.Ninguna? || s.v == 0) ==>
        enviado == None && error == "Selecciona un proveedor" && productos == old(productos) && mensaje == old(mensaje)
      ensures s.Id? && s.v != 0 ==> enviado == Some((productoId, s.v))
      ensures s.Id? && s.v != 0 && r.Exito? ==>
        && productos == Asignar(old(productos), productoId, s.v, r.proveedorNombre)
        && mensaje == O(r.mensaje, "Proveedor asignado correctamente") && error == old(error)
      ensures s.Id? && s.v != 0 && r.Nulo? ==>
        productos == old(productos) && mensaje == old(mensaje) && error == "Error al asignar proveedor"
      ensures s.Id? && s.v != 0 && r.Falla? ==>
        productos == old(productos) && mensaje == old(mensaje) && error == O(r.error, "Error al asignar proveedor")
      ensures filtro == old(filtro)
    {
      if s.Ninguna? || s.v == 0 {
        error := "Selecciona un proveedor";
        return None;
      }
      enviado := Some((productoId, s.v));
      match r {
        case Exito(m, nombre) =>
          mensaje := O(m, "Proveedor asignado correctamente");
          productos := Asignar(productos, productoId, s.v, nombre);
        case Nulo =>
          error := "Error al asignar proveedor";
        case Falla(e) =>
          error := O(e, "Error al asignar proveedor");
      }
    }

    /**
     * `handleAsignar` as the page runs it: the default export of the product service has no
     * `asignarProveedor`, so once a provider is chosen the call throws a `TypeError` before any
     * request goes out, and the catch shows its fallback text (the error has no `response`).
     */
    method HandleAsignarTalCual(productoId: int, s: Seleccion) returns (enviado: Option<(int, int)>)
      modifies this
      ensures (s.Ninguna? || s.v == 0) ==>
        enviado == None && error == "Selecciona un proveedor" && productos == old(productos) && mensaje == old(mensaje)
      ensures s.Id? && s.v != 0 ==>
        enviado == None && error == "Error al asignar proveedor" && productos == old(productos) && mensaje == old(mensaje)
      ensures filtro == old(filtro)
    {
      if s.Ninguna? || s.v == 0 {
        error := "Selecciona un proveedor";
        return None;
      }
      assert "asignarProveedor" !in ServicioProductos;
      error := "Error al asignar proveedor";
      enviado := None;
    }

    /** `cargarDatos`: an array replaces the products, another value empties them, a failure keeps them. */
    method CargarDatos(l: Option<Option<seq<Producto>>>)
      modifies this
      ensures l == None ==> productos == old(productos) && error == "Error al cargar los datos"
      ensures l.Some? ==> productos == l.value.GetOr([]) && error == old(error)
      ensures mensaje == old(mensaje) && filtro == old(filtro)
    {
      match l {
        case None => error := "Error al cargar los datos";
        case Some(d) => productos := d.GetOr([]);
      }
    }
  }
}
