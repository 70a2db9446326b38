/**
 * The validators of prexcol/productos/serializers.py: the quantity of an order detail, the body
 * of a new order (at least one detail, an existing store, every product of that store and in
 * stock), and the target state of a status change with the limits each role has. They only
 * read the tables.
 */
module Serializers {
  import opened Wrappers
  import opened Inventory
  import opened PedidoLineas

  // ----- DetallePedidoCreateSerializer -----

  /** `validate_cantidad`: a detail must ask for at least one unit. */
  function ValidarCantidad(cantidad: int): (r: Result<int, string>)
    ensures r.Ok? <==> cantidad > 0
    ensures r.Ok? ==> r.value == cantidad
  {
    if cantidad <= 0 then Err("La cantidad debe ser mayor que 0") else Ok(cantidad)
  }

  // ----- PedidoCreateSerializer -----

  datatype PedidoInvalido =
    | ProductoInexistente(producto: int)
    | CantidadInvalida(producto: int)
    | SinDetalles
    | TiendaInexistente(tienda: int)
    | OtraTienda(producto: int)
    | SinExistencias(producto: int, disponible: nat, solicitado: int)

  /**
   * The field checks of one detail: its `producto` key names a stored product (the related
   * field's lookup) and `validate_cantidad` accepts its quantity.
   */
  function ValidarDetalle(ps: map<int, Producto>, d: Linea): (r: Result<(), PedidoInvalido>)
    ensures r.Ok? <==> d.producto in ps && ValidarCantidad(d.cantidad).Ok?
  {
    if d.producto !in ps then Err(ProductoInexistente(d.producto))
    else if ValidarCantidad(d.cantidad).Err? then Err(CantidadInvalida(d.producto))
    else Ok(())
  }

  /** The field checks of every detail, the first refusal reported. */
  function ValidarDetalles(ps: map<int, Producto>, ds: seq<Linea>): (r: Result<(), PedidoInvalido>)
    decreases |ds|
  {
    if ds == [] then Ok(())
    else if ValidarDetalle(ps, ds[0]).Err? then ValidarDetalle(ps, ds[0])
    else ValidarDetalles(ps, ds[1..])
  }

  /**
   * The object-level `validate` loop: each detail's product belongs to the order's store and
   * has at least as many units in stock as the detail asks for.
   */
  function ValidarExistencias(ps: map<int, Producto>, tienda: int, ds: seq<Linea>): (r: Result<(), PedidoInvalido>)
    requires forall i :: 0 <= i < |ds| ==> ds[i].producto in ps
    decreases |ds|
  {
    if ds == [] then Ok(())
    else
      var p := ps[ds[0].producto];
      if p.tienda != tienda then Err(OtraTienda(ds[0].producto))
      else if p.stock < ds[0].cantidad then Err(SinExistencias(ds[0].producto, p.stock, ds[0].cantidad))
      else ValidarExistencias(ps, tienda, ds[1..])
  }

  /**
   * `PedidoCreateSerializer.is_valid()` on the store key and the details: the field checks
   * (every detail, `validate_detalles`, `validate_tienda_id`) and, only when all of them pass,
   * `validate`. `tiendas` is the set of stored store keys.
   */
  function ValidarPedido(tiendas: set<int>, ps: map<int, Producto>, tienda: int, ds: seq<Linea>): (r: Result<(), PedidoInvalido>)
  {
    var campos := ValidarDetalles(ps, ds);
    if campos.Err? then campos
    else if ds == [] then Err(SinDetalles)
    else if tienda !in tiendas then Err(TiendaInexistente(tienda))
    else
      DetallesExisten(ps, ds);
      ValidarExistencias(ps, tienda, ds)
  }

  /** What every detail must satisfy for the order body to be valid. */
  predicate DetalleValido(ps: map<int, Producto>, tienda: int, d: Linea)
  {
    d.producto in ps && d.cantidad > 0 && ps[d.producto].tienda == tienda && d.cantidad <= ps[d.producto].stock
  }

  lemma {:induction false} DetallesExisten(ps: map<int, Producto>, ds: seq<Linea>)
    requires ValidarDetalles(ps, ds).Ok?
    ensures forall i :: 0 <= i < |ds| ==> ds[i].producto in ps && ds[i].cantidad > 0
    decreases |ds|
  {
    if ds != [] {
      DetallesExisten(ps, ds[1..]);
      assert forall i :: 1 <= i < |ds| ==> ds[i] == ds[1..][i - 1];
    }
  }

  lemma {:induction false} ValidarDetallesSpec(ps: map<int, Producto>, ds: seq<Linea>)
    ensures ValidarDetalles(ps, ds).Ok? <==> forall i :: 0 <= i < |ds| ==> ds[i].producto in ps && ds[i].cantidad > 0
    decreases |ds|
  {
    if ds != [] {
      ValidarDetallesSpec(ps, ds[1..]);
      assert forall i :: 1 <= i < |ds| ==> ds[i] == ds[1..][i - 1];
    }
  }

  lemma {:induction false} ValidarExistenciasSpec(ps: map<int, Producto>, tienda: int, ds: seq<Linea>)
    requires forall i :: 0 <= i < |ds| ==> ds[i].producto in ps
    ensures ValidarExistencias(ps, tienda, ds).Ok? <==>
      forall i :: 0 <= i < |ds| ==> ps[ds[i].producto].tienda == tienda && ds[i].cantidad <= ps[ds[i].producto].stock
    decreases |ds|
  {
    if ds != [] {
      ValidarExistenciasSpec(ps, tienda, ds[1..]);
      assert forall i :: 1 <= i < |ds| ==> ds[i] == ds[1..][i - 1];
    }
  }

  /**
   * An order body is valid exactly when it has at least one detail, names a stored store, and
   * every detail asks for a positive quantity of a stored product of that store with enough
   * units in stock.
   */
  lemma ValidarPedidoSpec(tiendas: set<int>, ps: map<int, Producto>, tienda: int, ds: seq<Linea>)
    ensures ValidarPedido(tiendas, ps, tienda, ds).Ok? <==>
      |ds| > 0 && tienda in tiendas && forall i :: 0 <= i < |ds| ==> DetalleValido(ps, tienda, ds[i])
  {
    ValidarDetallesSpec(ps, ds);
    if ValidarDetalles(ps, ds).Ok? {
      ValidarExistenciasSpec(ps, tienda, ds);
    }
  }

  /**
   * The serializer checks each detail on its own, so a valid body whose details name distinct
   * products can be served in full: the detail loop of `crear_pedido` then succeeds.
   */
  lemma ValidoYDistintoEsAdmisible(tiendas: set<int>, ps: map<int, Producto>, tienda: int, ds: seq<Linea>)
    requires ValidarPedido(tiendas, ps, tienda, ds).Ok?
    requires forall i, j :: 0 <= i < j < |ds| ==> ds[i].producto != ds[j].producto
    ensures Admisibles(ps, ds)
  {
    ValidarPedidoSpec(tiendas, ps, tienda, ds);
    forall i | 0 <= i < |ds| ensures DetalleValido(ps, tienda, ds[i]) {
    }
  }

  /**
   * Two details for one product pass the serializer even when together they ask for more than
   * is in stock: the view's loop then refuses the order.
   */
  lemma RepetidoPasaElSerializador(ps: map<int, Producto>, p: int)
    requires p in ps && ps[p].stock == 1 && ps[p].tienda == 7
    ensures ValidarPedido({7}, ps, 7, [Linea(p, 1), Linea(p, 1)]).Ok?
    ensures !Admisibles(ps, [Linea(p, 1), Linea(p, 1)])
  {
    ValidarPedidoSpec({7}, ps, 7, [Linea(p, 1), Linea(p, 1)]);
    assert DetalleValido(ps, 7, Linea(p, 1));
  }

  // ----- PedidoUpdateEstadoSerializer -----

  /** `ESTADOS_VALIDOS`: the states a change may target; `pendiente` is not among them. */
  function EstadoDestino(s: string): (r: Option<Estado>)
    ensures r.Some? ==> r.value != Pendiente && EstadoName(r.value) == s
    ensures r.None? <==> s !in {"preparando", "en_transito", "entregado", "cancelado"}
  {
    if s == "preparando" then Some(Preparando)
    else if s == "en_transito" then Some(EnTransito)
    else if s == "entregado" then Some(Entregado)
    else if s == "cancelado" then Some(Cancelado)
    else None
  }

  datatype EstadoInvalido = NoEsOpcion(valor: string) | SoloPreparando | SoloEnvio | NoAutorizado

  /**
   * The `estado` choice field followed by `validate_estado`. `rol` is `getattr(user, "rol",
   * None)`; `conPedido` says whether the context holds an order, and without one any listed
   * state is accepted. With one, `comprador` may only target `preparando`, `logistica` only
   * `en_transito` or `entregado`, `admin` anything listed, and every other role nothing.
   */
  function ValidarEstado(rol: Option<string>, conPedido: bool, valor: string): (r: Result<Estado, EstadoInvalido>)
    ensures r.Ok? ==> r.value != Pendiente && Some(r.value) == EstadoDestino(valor)
  {
    var e := EstadoDestino(valor);
    if e.None? then Err(NoEsOpcion(valor))
    else if !conPedido then Ok(e.value)
    else if rol == Some("comprador") && e.value != Preparando then Err(SoloPreparando)
    else if rol == Some("logistica") && e.value != EnTransito && e.value != Entregado then Err(SoloEnvio)
    else if rol !in {Some("admin"), Some("comprador"), Some("logistica")} then Err(NoAutorizado)
    else Ok(e.value)
  }

  /** The state a role may move an order to, once the order is known. */
  predicate RolPuede(rol: Option<string>, e: Estado)
  {
    || rol == Some("admin")
    || (rol == Some("comprador") && e == Preparando)
    || (rol == Some("logistica") && (e == EnTransito || e == Entregado))
  }

  /**
   * With an order in the context a listed state is accepted exactly when the role may target
   * it; without one, exactly when it is listed, whatever the role.
   */
  lemma ValidarEstadoSpec(rol: Option<string>, conPedido: bool, valor: string)
    ensures ValidarEstado(rol, conPedido, valor).Ok? <==>
      EstadoDestino(valor).Some? && (!conPedido || RolPuede(rol, EstadoDestino(valor).value))
  {
  }

  /** Only `admin` can ask for a cancellation of a known order; the other roles never can. */
  lemma SoloAdminCancela(rol: Option<string>)
    ensures ValidarEstado(rol, true, "cancelado").Ok? <==> rol == Some("admin")
  {
  }
}
