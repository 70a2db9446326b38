/**
 * The client's panel of frontend/src/components/clientes/PanelCliente.jsx: the products of the
 * selected store shown through the category filter, a cart without a stock cap, and order
 * creation from the cart. The React state the handlers commit is the fields of `Panel`.
 */
module PanelCliente {
  import opened Wrappers
  import opened Carrito
  import PedidoLineas

  const PedidoCreado: string := "✓ Pedido creado exitosamente"

  /**
   * How one run of `cargarDatos` ends, reply by reply: `getMisPedidos` fails; it answers (an
   * array of order keys, or `None` for anything else) and then `getTiendas` fails; or both answer
   * and, when the stores are a non-empty array, the products of the first one load as `productos`.
   */
  datatype Datos =
    | FallaPedidos(mensaje: string)
    | FallaTiendas(pedidos: Option<seq<int>>, mensaje: string)
    | Cargados(pedidos: Option<seq<int>>, tiendas: Option<seq<int>>, productos: Carga)

  /** An array reply, or the empty list Array.isArray falls back to. */
  function ArregloO<T>(o: Option<seq<T>>): seq<T>
  {
    if o.Some? then o.value else []
  }

  /** The React state of the panel, as one value. */
  datatype Vista = Vista(pedidos: seq<int>, productos: seq<Producto>, tiendas: seq<int>, carrito: seq<Item>,
                         tiendaSeleccionada: Option<int>, filtroCategoria: string, error: string, exito: string,
                         loading: bool)

  /** `cargarProductosPorTienda` on the state: its own catch turns a failure into a message. */
  function TrasCargarProductos(v: Vista, c: Carga): Vista
  {
    match c
    case Falla => v.(error := "Error cargando productos")
    case Lista(ps) => v.(productos := ps, carrito := [])
    case NoLista => v.(productos := [], carrito := [])
  }

  /**
   * `cargarDatos` on the state: the orders are set once their reply is in, the stores once theirs
   * is; a non-empty store list loads the first store's products and then selects it; a failed
   * call shows "Error al cargar datos: …" and leaves what was not yet set; `finally` clears
   * `loading`.
   */
  function TrasCargarDatos(v: Vista, d: Datos): Vista
  {
    match d
    case FallaPedidos(m) => v.(error := "Error al cargar datos: " + m, loading := false)
    case FallaTiendas(ps, m) => v.(pedidos := ArregloO(ps), error := "Error al cargar datos: " + m, loading := false)
    case Cargados(ps, ts, c) =>
      var w := v.(pedidos := ArregloO(ps), tiendas := ArregloO(ts));
      if ts.Some? && |ts.value| > 0 then
        TrasCargarProductos(w, c).(tiendaSeleccionada := Some(ts.value[0]), loading := false)
      else w.(loading := false)
  }

  /** A reload never puts entries into the cart: it keeps it or empties it, and clears `loading`. */
  lemma RecargaNoLlenaCarrito(v: Vista, d: Datos)
    ensures TrasCargarDatos(v, d).carrito in {v.carrito, []}
    ensures !TrasCargarDatos(v, d).loading
    ensures TrasCargarDatos(v, d).filtroCategoria == v.filtroCategoria && TrasCargarDatos(v, d).exito == v.exito
  {
  }

  /**
   * A reload that gets a non-empty store list selects its first store, and shows that store's
   * products when they load; a failed product load keeps the previous products and cart.
   */
  lemma RecargaSeleccionaPrimera(v: Vista, ps: Option<seq<int>>, ts: seq<int>, c: Carga)
    requires ts != []
    ensures var r := TrasCargarDatos(v, Cargados(ps, Some(ts), c));
      && r.tiendaSeleccionada == Some(ts[0]) && r.tiendas == ts && r.pedidos == ArregloO(ps)
      && (c.Lista? ==> r.productos == c.ps && r.carrito == [])
      && (c.Falla? ==> r.productos == v.productos && r.carrito == v.carrito && r.error == "Error cargando productos")
  {
  }

  /**
   * A reload whose store list is empty or not an array empties the list but keeps the store
   * selected before, and the products and cart with it; an order placed next still names that
   * store.
   */
  lemma RecargaSinTiendasConservaSeleccion(v: Vista, ps: Option<seq<int>>, ts: Option<seq<int>>, c: Carga)
    requires ts.None? || ts.value == []
    ensures var r := TrasCargarDatos(v, Cargados(ps, ts, c));
      && r.tiendas == [] && r.tiendaSeleccionada == v.tiendaSeleccionada
      && r.productos == v.productos && r.carrito == v.carrito && r.error == v.error
  {
  }

  /**
   * The default export of frontend/src/services/api.js:123 is the bare axios instance: of the
   * calls the panel makes, none is one of its members.
   */
  const MiembrosAxios: set<string> := {
    "request", "get", "delete", "head", "options", "post", "put", "patch", "postForm", "putForm", "patchForm",
    "getUri", "defaults", "interceptors", "create"
  }

  /** The body `api.crearPedido` sends: the selected store and one detail per cart entry. */
  datatype Cuerpo = Cuerpo(tienda: Option<int>, detalles: seq<PedidoLineas.Linea>)

  class Panel {
    var pedidos: seq<int>
    var productos: seq<Producto>
    var tiendas: seq<int>
    var carrito: seq<Item>
    var tiendaSeleccionada: Option<int>
    var filtroCategoria: string
    var loading: bool
    var error: string
    var exito: string

    /** The cart never names a product twice. */
    predicate Valido()
      reads this
    {
      IdsUnicos(carrito)
    }

    /** The panel's state as one value. */
    function V(): Vista
      reads this
    {
      Vista(pedidos, productos, tiendas, carrito, tiendaSeleccionada, filtroCategoria, error, exito, loading)
    }

    constructor ()
      ensures Valido() && V() == Vista([], [], [], [], None, "todos", "", "", false)
    {
      pedidos, productos, tiendas, carrito := [], [], [], [];
      tiendaSeleccionada, filtroCategoria, loading, error, exito := None, "todos", false, "", "";
    }

    /**
     * `cargarProductosPorTienda`: a completed load replaces the products and empties the cart; a
     * failed one keeps them and shows "Error cargando productos".
     */
    method CargarProductos(c: Carga)
      requires Valido()
      modifies this
      ensures Valido() && V() == TrasCargarProductos(old(V()), c)
      ensures c.Falla? ==> productos == old(productos) && carrito == old(carrito) && error == "Error cargando productos"
      ensures c.Lista? ==> productos == c.ps && carrito == [] && error == old(error)
      ensures c.NoLista? ==> productos == [] && carrito == [] && error == old(error)
    {
      if c.Falla? {
        error := "Error cargando productos";
        return;
      }
      productos := if c.Lista? then c.ps else [];
      carrito := [];
    }

    /** `cargarDatos`, with the replies it gets as `d`: the state becomes `TrasCargarDatos`. */
    method CargarDatos(d: Datos)
      requires Valido()
      modifies this
      ensures Valido() && V() == TrasCargarDatos(old(V()), d) && !loading
    {
      loading := true;
      match d {
        case FallaPedidos(m) =>
          error := "Error al cargar datos: " + m;
        case FallaTiendas(ps, m) =>
          pedidos := ArregloO(ps);
          error := "Error al cargar datos: " + m;
        case Cargados(ps, ts, c) =>
          pedidos := ArregloO(ps);
          tiendas := ArregloO(ts);
          if ts.Some? && |ts.value| > 0 {
            CargarProductos(c);
            tiendaSeleccionada := Some(ts.value[0]);
          }
      }
      loading := false;
    }

    /**
     * `cargarProductosPorTienda` as the page runs it: `api.getProductosPorTienda` is not a
     * function, so the call throws and only the message changes.
     */
    method CargarProductosTalCual()
      requires Valido()
      modifies this
      ensures Valido() && V() == old(V()).(error := "Error cargando productos")
    {
      assert "getProductosPorTienda" !in MiembrosAxios;
      error := "Error cargando productos";
    }

    /**
     * `cargarDatos` as the page runs it: `api.getMisPedidos` is not a function, so every load
     * ends as a failure of the first call, with `motivo` the `TypeError`'s message (its text is
     * the engine's); orders, stores, products and cart stay as they were.
     */
    method CargarDatosTalCual(motivo: string)
      requires Valido()
      modifies this
      ensures Valido() && V() == TrasCargarDatos(old(V()), FallaPedidos(motivo))
      ensures pedidos == old(pedidos) && tiendas == old(tiendas) && productos == old(productos) && carrito == old(carrito)
      ensures error == "Error al cargar datos: " + motivo && !loading
    {
      assert "getMisPedidos" !in MiembrosAxios;
      CargarDatos(FallaPedidos(motivo));
    }

    method AgregarAlCarrito(p: Producto)
      requires Valido()
      modifies this
      ensures Valido() && carrito == AgregarLibre(old(carrito), p)
      ensures V() == old(V()).(carrito := carrito)
    {
      AgregarLibreEfecto(carrito, p);
      carrito := AgregarLibre(carrito, p);
    }

    method EliminarDelCarrito(id: int)
      requires Valido()
      modifies this
      ensures Valido() && carrito == Eliminar(old(carrito), id)
      ensures V() == old(V()).(carrito := carrito)
    {
      EliminarEfecto(carrito, id);
      carrito := Eliminar(carrito, id);
    }

    /**
     * `crearPedido`: an empty cart is refused with a message and no request. Otherwise the body
     * sent names the selected store and holds one detail per entry; success shows the message,
     * empties the cart and reloads the panel (`recarga`, the replies of that reload); a failed
     * call keeps the cart and shows the error.
     */
    method CrearPedido(exitoso: bool, mensaje: string, recarga: Datos) returns (enviado: Option<Cuerpo>)
      requires Valido()
      modifies this
      ensures Valido()
      ensures old(carrito) == [] ==> enviado == None && V() == old(V()).(error := CarritoVacio)
      ensures old(carrito) != [] ==> enviado == Some(Cuerpo(old(tiendaSeleccionada), Detalles(old(carrito))))
      ensures old(carrito) != [] && exitoso ==>
        V() == TrasCargarDatos(old(V()).(exito := PedidoCreado, carrito := []), recarga)
      ensures old(carrito) != [] && !exitoso ==> V() == old(V()).(error := "Error al crear pedido: " + mensaje)
    {
      if |carrito| == 0 {
        error := CarritoVacio;
        return None;
      }
      enviado := Some(Cuerpo(tiendaSeleccionada, Detalles(carrito)));
      if exitoso {
        exito := PedidoCreado;
        carrito := [];
        CargarDatos(recarga);
      } else {
        error := "Error al crear pedido: " + mensaje;
      }
    }

    /**
     * `crearPedido` as the page runs it: `api.crearPedido` is not a function, so a non-empty cart
     * never sends a request; the cart stays and the error shows the `TypeError`'s message.
     */
    method CrearPedidoTalCual(motivo: string) returns (enviado: Option<Cuerpo>)
      requires Valido()
      modifies this
      ensures Valido() && enviado == None
      ensures old(carrito) == [] ==> V() == old(V()).(error := CarritoVacio)
      ensures old(carrito) != [] ==> V() == old(V()).(error := "Error al crear pedido: " + motivo)
    {
      if |carrito| == 0 {
        error := CarritoVacio;
        return None;
      }
      assert "crearPedido" !in MiembrosAxios;
      error := "Error al crear pedido: " + motivo;
      enviado := None;
    }
  }

  /**
   * Whatever the reload after a successful order gets, the cart is empty, the success message
   * stays, and `loading` is off.
   */
  lemma PedidoCreadoVaciaCarrito(v: Vista, recarga: Datos)
    ensures var r := TrasCargarDatos(v.(exito := PedidoCreado, carrito := []), recarga);
      r.carrito == [] && r.exito == PedidoCreado && !r.loading
  {
    RecargaNoLlenaCarrito(v.(exito := PedidoCreado, carrito := []), recarga);
  }
}
