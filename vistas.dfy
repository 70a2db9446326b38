/**
 * The product and order endpoints that src/backend/apps/productos/views.py and
 * prexcol/backend/productos/views.py share line for line: `ajustar_stock`, the detail loop of
 * `crear_pedido`, and the state change with its restocking loop in `cambiar_estado`. Each
 * endpoint runs on a `Db` (the tables of the product app); a response is an HTTP status with
 * the value the view returns.
 */
module Vistas {
  import opened Wrappers
  import opened Text
  import opened Inventory
  import opened PedidoLineas
  import opened Peticion

  /** The authenticated requester of a view: its key, its `rol` and `is_superuser`. */
  datatype Solicitante = Solicitante(id: int, rol: string, isSuperuser: bool)

  /**
   * `ProductoViewSet.get_queryset`, which `get_object` searches: the active products, and for a
   * provider that is not a superuser only its own. Anyone else, signed in or not, sees every
   * active product.
   */
  predicate ProductoVisible(u: Option<Solicitante>, p: Producto)
  {
    p.activo && (u.Some? && u.value.rol == "proveedor" && !u.value.isSuperuser ==> p.proveedor == u.value.id)
  }

  // ----- the permission check DRF runs before a handler -----

  /**
   * What an action's permission classes admit: anyone (`[]`), any signed-in user
   * (`IsAuthenticated`), or a signed-in user whose `rol` is one of `roles` (`IsAdmin |
   * IsProveedor` and the like).
   */
  datatype Permiso = Publico | Autenticado | Roles(roles: set<string>)

  /**
   * The answer given before the handler runs: `None` when the request is admitted, 401 for an
   * anonymous request that needs a signed-in user (the JWT authentication supplies a challenge
   * header), and 403 for a signed-in user whose role the permission does not list.
   */
  function Rechazo(p: Permiso, u: Option<Solicitante>): (r: Option<int>)
    ensures r.None? <==> p.Publico? || (u.Some? && (p.Roles? ==> u.value.rol in p.roles))
    ensures r == Some(401) <==> !p.Publico? && u.None?
    ensures r.Some? ==> r.value in {401, 403}
  {
    if p.Publico? then None
    else if u.None? then Some(401)
    else if p.Roles? && u.value.rol !in p.roles then Some(403)
    else None
  }

  /**
   * A role permission admits no one `IsAuthenticated` refuses, listing more roles refuses no one
   * more, and who is signed in decides between 401 and 403.
   */
  lemma RechazoMonotono(a: set<string>, b: set<string>, u: Option<Solicitante>)
    requires a <= b
    ensures Rechazo(Roles(a), u).None? ==> Rechazo(Roles(b), u).None? && Rechazo(Autenticado, u).None?
    ensures Rechazo(Autenticado, u).Some? ==> Rechazo(Roles(a), u) == Some(401)
    ensures Rechazo(Publico, u).None?
  {
  }

  /** `ajustar_stock`'s `IsAdmin | IsProveedor`, the same in both variants. */
  const PermisoAjuste: Permiso := Roles({"admin", "proveedor"})

  /** `crear_pedido`'s `IsCliente`, the same in both variants. */
  const PermisoCrearPedido: Permiso := Roles({"cliente"})

  /** Whether `get_object` finds product `id` for `u` (otherwise the view answers 404). */
  predicate Encuentra(ps: map<int, Producto>, u: Option<Solicitante>, id: int)
  {
    id in ps && ProductoVisible(u, ps[id])
  }

  // ----- ajustar_stock -----

  datatype Operacion = OpAumentar | OpReducir

  datatype AjusteError =
    | NoAutenticado
    | Prohibido
    | NoEncontrado
    | CantidadRequerida
    | CantidadNoEntera
    | CantidadNoPositiva
    | OperacionInvalida
    | StockRechazado(e: StockError)
    | ErrorInterno

  /**
   * The HTTP status each refusal is answered with: the permission check's 401 and 403, 404 for
   * a product `get_object` does not find, 500 for an uncaught `TypeError`, and 400 for every
   * refusal of the body or of the stock change.
   */
  function AjusteStatus(e: AjusteError): (s: int)
    ensures s in {400, 401, 403, 404, 500}
    ensures s == 401 <==> e == NoAutenticado
    ensures s == 403 <==> e == Prohibido
    ensures s == 404 <==> e == NoEncontrado
    ensures s == 500 <==> e == ErrorInterno
  {
    match e
    case NoAutenticado => 401
    case Prohibido => 403
    case NoEncontrado => 404
    case ErrorInterno => 500
    case _ => 400
  }

  /** The refusal of the permission check, as the error `ajustar_stock` reports. */
  function ErrorDeRechazo(status: int): (e: AjusteError)
    requires status in {401, 403}
    ensures AjusteStatus(e) == status
  {
    if status == 401 then NoAutenticado else Prohibido
  }

  /**
   * The checks `ajustar_stock` makes on the body, in order: `cantidad` present and not null,
   * `int(cantidad)` succeeds and is positive, and `operacion` (default `"aumentar"`) is one of
   * the two operations.
   */
  function ValidarAjuste(cantidad: Option<Json>, operacion: Option<Json>): (r: Result<(int, Operacion), AjusteError>)
    ensures r.Ok? ==> r.value.0 > 0
  {
    if cantidad.None? || cantidad.value == JNull then Err(CantidadRequerida)
    else
      var n := PyIntJson(cantidad.value);
      if n.Err? then (if n.error == NoEntero then Err(CantidadNoEntera) else Err(ErrorInterno))
      else if n.value <= 0 then Err(CantidadNoPositiva)
      else
        var op := operacion.GetOr(JStr("aumentar"));
        if op == JStr("aumentar") then Ok((n.value, OpAumentar))
        else if op == JStr("reducir") then Ok((n.value, OpReducir))
        else Err(OperacionInvalida)
  }

  /**
   * The body is accepted exactly when `cantidad` converts to a positive integer and `operacion`
   * is absent, `"aumentar"` or `"reducir"`; an absent `operacion` means `"aumentar"`.
   */
  lemma ValidarAjusteSpec(cantidad: Option<Json>, operacion: Option<Json>)
    ensures ValidarAjuste(cantidad, operacion).Ok? <==>
      && cantidad.Some? && PyIntJson(cantidad.value).Ok? && PyIntJson(cantidad.value).value > 0
      && (operacion.None? || operacion.value == JStr("aumentar") || operacion.value == JStr("reducir"))
    ensures ValidarAjuste(cantidad, operacion).Ok? ==>
      && ValidarAjuste(cantidad, operacion).value.0 == PyIntJson(cantidad.value).value
      && (ValidarAjuste(cantidad, operacion).value.1 == OpReducir <==> operacion == Some(JStr("reducir")))
    ensures cantidad.None? ==> ValidarAjuste(cantidad, operacion) == Err(CantidadRequerida)
    ensures (cantidad.Some? && cantidad.value.JStr? && PyInt(cantidad.value.s).None?) ==>
      ValidarAjuste(cantidad, operacion) == Err(CantidadNoEntera)
  {
  }

  /**
   * `ajustar_stock`: only `admin` and `proveedor` accounts get past the permission check (401
   * without a session, 403 for any other role); a refused request changes nothing; an accepted
   * one adds or removes `cantidad` units and answers with the new stock. Removing more than is
   * in stock is refused.
   */
  method AjustarStock(db: Db, u: Option<Solicitante>, id: int, cantidad: Option<Json>, operacion: Option<Json>)
    returns (r: Result<nat, AjusteError>)
    requires db.Valid()
    modifies db
    ensures db.Valid()
    ensures r.Err? ==> db.Snapshot() == old(db.Snapshot())
    ensures Rechazo(PermisoAjuste, u).Some? ==> r.Err? && AjusteStatus(r.error) == Rechazo(PermisoAjuste, u).value
    ensures r.Err? <==>
      || Rechazo(PermisoAjuste, u).Some?
      || !Encuentra(old(db.productos), u, id)
      || ValidarAjuste(cantidad, operacion).Err?
      || (ValidarAjuste(cantidad, operacion).value.1 == OpReducir &&
          old(db.productos[id].stock) < ValidarAjuste(cantidad, operacion).value.0)
    ensures r.Ok? ==>
      var (c, op) := ValidarAjuste(cantidad, operacion).value;
      && r.value as int == (if op == OpAumentar then old(db.productos[id].stock) + c else old(db.productos[id].stock) - c)
      && db.productos == old(db.productos)[id := old(db.productos[id]).(stock := r.value)]
      && db.Snapshot().(productos := old(db.productos)) == old(db.Snapshot())
  {
    var rechazo := Rechazo(PermisoAjuste, u);
    if rechazo.Some? {
      return Err(ErrorDeRechazo(rechazo.value));
    }
    if !Encuentra(db.productos, u, id) {
      return Err(NoEncontrado);
    }
    var v := ValidarAjuste(cantidad, operacion);
    if v.Err? {
      return Err(v.error);
    }
    var (c, op) := v.value;
    var s: Result<nat, StockError>;
    if op == OpAumentar {
      s := db.AumentarStock(id, c);
    } else {
      s := db.ReducirStock(id, c);
    }
    if s.Err? {
      return Err(StockRechazado(s.error));
    }
    return Ok(s.value);
  }

  /** Removing stock and putting the same amount back leaves the product as it was. */
  lemma AjusteIdaYVuelta(p: Producto, c: int)
    requires 0 < c <= p.stock
    ensures Reducir(p, c).Ok? && Aumentar(Reducir(p, c).value, c) == Ok(p)
  {
    ReducirThenAumentar(p, c);
  }

  // ----- the detail loop of crear_pedido -----

  /**
   * The loop over the validated details: fetch the product, `reducir_stock`, create the line
   * priced at the product's price. It stops at the first failure and then leaves the tables
   * part-way, for the caller's transaction to roll back.
   */
  method CrearDetalles(db: Db, pedido: int, items: seq<Linea>) returns (r: Result<(), LineaError>)
    requires db.Valid() && pedido in db.pedidos && SinLineas(db.detalles, pedido)
    modifies db
    ensures db.Valid()
    ensures r.Ok? <==> Lineas(old(db.productos), old(db.detalles), pedido, items).Ok?
    ensures r.Ok? ==> (db.productos, db.detalles) == Lineas(old(db.productos), old(db.detalles), pedido, items).value
    ensures db.pedidos.Keys == old(db.pedidos.Keys)
    ensures forall k :: k in old(db.pedidos) ==> db.pedidos[k] == old(db.pedidos[k]).(total := db.pedidos[k].total)
    ensures db.Snapshot().(productos := old(db.productos), pedidos := old(db.pedidos), detalles := old(db.detalles)) == old(db.Snapshot())
  {
    ghost var ps0, ds0 := db.productos, db.detalles;
    var i := 0;
    while i < |items|
      invariant 0 <= i <= |items|
      invariant db.Valid() && pedido in db.pedidos
      invariant Lineas(ps0, ds0, pedido, items[..i]) == Ok((db.productos, db.detalles))
      invariant db.pedidos.Keys == old(db.pedidos.Keys)
      invariant forall k :: k in old(db.pedidos) ==> db.pedidos[k] == old(db.pedidos[k]).(total := db.pedidos[k].total)
      invariant db.Snapshot().(productos := old(db.productos), pedidos := old(db.pedidos), detalles := old(db.detalles)) == old(db.Snapshot())
    {
      var it := items[i];
      assert items[..i + 1][..i] == items[..i];
      if it.producto !in db.productos {
        assert Lineas(ps0, ds0, pedido, items[..i + 1]).Err?;
        LineasErrPrefix(ps0, ds0, pedido, items, i + 1);
        return Err(ProductoNoExiste(it.producto));
      }
      var precio := db.productos[it.producto].precio;
      var s := db.ReducirStock(it.producto, it.cantidad);
      if s.Err? {
        assert Lineas(ps0, ds0, pedido, items[..i + 1]).Err?;
        LineasErrPrefix(ps0, ds0, pedido, items, i + 1);
        return Err(PedidoLineas.SinStock(s.error));
      }
      var ok := db.CrearDetalle(DetallePedido(pedido, it.producto, it.cantidad, precio));
      if !ok {
        assert Lineas(ps0, ds0, pedido, items[..i + 1]).Err?;
        LineasErrPrefix(ps0, ds0, pedido, items, i + 1);
        return Err(LineaRechazada);
      }
      i := i + 1;
    }
    assert items[..i] == items;
    return Ok(());
  }

  /** Once a prefix of the details fails, the whole loop fails. */
  lemma {:induction false} LineasErrPrefix(ps: map<int, Producto>, ds: seq<DetallePedido>, pedido: int, items: seq<Linea>, n: int)
    requires 0 <= n <= |items| && Lineas(ps, ds, pedido, items[..n]).Err?
    ensures Lineas(ps, ds, pedido, items).Err?
    decreases |items| - n
  {
    if n < |items| {
      assert items[..n + 1][..n] == items[..n];
      LineasErrPrefix(ps, ds, pedido, items, n + 1);
    } else {
      assert items[..n] == items;
    }
  }

  // ----- cambiar_estado after get_object -----

  /**
   * The restocking loop of a cancellation: every line of the order gives its quantity back to
   * its product, and nothing else changes.
   */
  method ReponerStock(db: Db, pedido: int)
    requires db.Valid()
    modifies db
    ensures db.Valid()
    ensures Reponibles(old(db.productos), old(db.detalles), pedido)
    ensures db.productos == Reponer(old(db.productos), old(db.detalles), pedido)
    ensures db.Snapshot().(productos := old(db.productos)) == old(db.Snapshot())
  {
    var i := 0;
    while i < |db.detalles|
      invariant 0 <= i <= |db.detalles|
      invariant db.Valid()
      invariant Reponibles(old(db.productos), db.detalles[..i], pedido)
      invariant db.productos == Reponer(old(db.productos), db.detalles[..i], pedido)
      invariant db.Snapshot().(productos := old(db.productos)) == old(db.Snapshot())
    {
      ReponerLinea(db, pedido, i, old(db.productos));
      i := i + 1;
    }
    assert db.detalles[..i] == db.detalles;
  }

  /** One turn of the cancellation loop: line `i` gives its quantity back when it is of order `pedido`. */
  method ReponerLinea(db: Db, pedido: int, i: int, ghost inicial: map<int, Producto>)
    requires db.Valid() && 0 <= i < |db.detalles|
    requires Reponibles(inicial, db.detalles[..i], pedido)
    requires db.productos == Reponer(inicial, db.detalles[..i], pedido)
    modifies db
    ensures db.Valid() && db.detalles == old(db.detalles)
    ensures Reponibles(inicial, db.detalles[..i + 1], pedido)
    ensures db.productos == Reponer(inicial, db.detalles[..i + 1], pedido)
    ensures db.Snapshot().(productos := old(db.productos)) == old(db.Snapshot())
  {
    ghost var ds, prev := db.detalles, db.productos;
    var d := db.detalles[i];
    assert d.producto in db.productos && d.cantidad >= 0;
    assert prev == Reponer(inicial, ds[..i], pedido);
    ReponerPaso(inicial, ds, i, pedido);
    if d.pedido == pedido {
      ghost var sig := prev[d.producto := prev[d.producto].(stock := prev[d.producto].stock + d.cantidad)];
      assert Reponer(inicial, ds[..i + 1], pedido) == sig;
      var s := db.AumentarStock(d.producto, d.cantidad);
      assert db.detalles == ds;
      assert db.productos == sig;
    } else {
      assert Reponer(inicial, ds[..i + 1], pedido) == prev;
    }
  }

  /** The cancellation over one more line: that line, when it is of the order, adds its quantity. */
  lemma ReponerPaso(ps: map<int, Producto>, ds: seq<DetallePedido>, i: int, pedido: int)
    requires 0 <= i < |ds| && Reponibles(ps, ds[..i], pedido)
    requires ds[i].pedido == pedido ==> ds[i].producto in ps && ds[i].cantidad >= 0
    ensures Reponibles(ps, ds[..i + 1], pedido)
    ensures var prev := Reponer(ps, ds[..i], pedido);
      var d := ds[i];
      Reponer(ps, ds[..i + 1], pedido) ==
        if d.pedido == pedido then prev[d.producto := prev[d.producto].(stock := prev[d.producto].stock + d.cantidad)]
        else prev
  {
    var e := ds[..i + 1];
    assert e[..i] == ds[..i] && e[i] == ds[i];
  }

  datatype CambioError = TransicionInvalida(desde: Estado, hacia: Estado)

  /** The guards of `cambiar_estado`: the three forward targets need their predecessor. */
  predicate Permitido(p: Pedido, nuevo: Estado)
  {
    match nuevo
    case Preparando => PuedeCambiarAPreparando(p)
    case EnTransito => PuedeCambiarAEnTransito(p)
    case Entregado => PuedeCambiarAEntregado(p)
    case _ => true
  }

  /** Cancelling is allowed from every state, including an order already cancelled or delivered. */
  lemma CancelarSiemprePermitido(p: Pedido)
    ensures Permitido(p, Cancelado)
    ensures Permitido(p, Preparando) <==> p.estado == Pendiente
    ensures Permitido(p, EnTransito) <==> p.estado == Preparando
    ensures Permitido(p, Entregado) <==> p.estado == EnTransito
  {
  }

  /**
   * `cambiar_estado` once the order is found and the target state validated: a refused
   * transition changes nothing; otherwise the state is stored, and a cancellation gives every line's
   * quantity back to its product.
   */
  method AplicarEstado(db: Db, id: int, nuevo: Estado) returns (r: Result<Pedido, CambioError>)
    requires db.Valid() && id in db.pedidos
    modifies db
    ensures db.Valid()
    ensures r.Err? <==> !Permitido(old(db.pedidos[id]), nuevo)
    ensures r.Err? ==> db.Snapshot() == old(db.Snapshot())
    ensures r.Ok? ==> r.value == old(db.pedidos[id]).(estado := nuevo) && db.pedidos == old(db.pedidos)[id := r.value]
    ensures r.Ok? ==> db.productos == (if nuevo == Cancelado then Reponer(old(db.productos), old(db.detalles), id) else old(db.productos))
    ensures r.Ok? ==> db.Snapshot().(productos := old(db.productos), pedidos := old(db.pedidos)) == old(db.Snapshot())
  {
    var p := db.pedidos[id];
    if !Permitido(p, nuevo) {
      return Err(TransicionInvalida(p.estado, nuevo));
    }
    var q := p.(estado := nuevo);
    db.pedidos := db.pedidos[id := q];
    assert db.Valid() by {
      forall k | k in db.pedidos ensures k < db.nextPedido && db.pedidos[k].total == Total(db.detalles, k) {
      }
    }
    if nuevo == Cancelado {
      ReponerStock(db, id);
    }
    return Ok(q);
  }

  // ----- crear_pedido -----

  /** The plain `create` route of both order view sets is closed: always 405, nothing stored. */
  method Create(db: Db) returns (status: int)
    ensures status == 405
  {
    return 405;
  }

  /** A fresh order key has no lines in a consistent database. */
  lemma NuevoSinLineas(db: Db)
    requires db.Valid()
    ensures db.nextPedido !in db.pedidos && SinLineas(db.detalles, db.nextPedido)
  {
    forall i | 0 <= i < |db.detalles| ensures db.detalles[i].pedido != db.nextPedido {
      assert db.detalles[i].pedido in db.pedidos;
    }
  }

  /**
   * The order table after the detail loop: the new order's total is the amount of its lines and
   * every other order is as it was, since the loop only recomputes totals and its lines belong
   * to the new order alone.
   */
  lemma PedidosTrasAbrir(ps0: map<int, Producto>, ds0: seq<DetallePedido>, pe0: map<int, Pedido>,
                         pe1: map<int, Pedido>, pe2: map<int, Pedido>, id: int, items: seq<Linea>, nuevo: Pedido)
    requires SinLineas(ds0, id) && Admisibles(ps0, items)
    requires forall k :: k in pe0 ==> pe0[k].total == Total(ds0, k)
    requires pe1 == pe0[id := nuevo] && nuevo.total == 0
    requires pe2.Keys == pe1.Keys
    requires forall k :: k in pe1 ==> pe2[k] == pe1[k].(total := pe2[k].total)
    requires forall k :: k in pe2 ==> pe2[k].total == Total(ds0 + LineasCreadas(ps0, id, items), k)
    ensures pe2 == pe0[id := nuevo.(total := Importe(ps0, items))]
  {
    var creadas := LineasCreadas(ps0, id, items);
    TotalCreadas(ps0, ds0, id, items);
    forall k | k in pe2 && k != id ensures pe2[k] == pe0[k] {
      TotalConcat(ds0, creadas, k);
      CreadasDeOtro(ps0, id, items, k);
    }
  }

  /**
   * The steps both variants of `crear_pedido` take inside the transaction: create a pending
   * order for `cliente` and run the detail loop. On success the order's total is the sum of its lines, every other
   * order is untouched; a failure leaves the tables part-way, to be rolled back.
   */
  method AbrirPedido(db: Db, cliente: int, tienda: int, notas: string, items: seq<Linea>) returns (r: Result<int, LineaError>)
    requires db.Valid()
    modifies db
    ensures db.Valid()
    ensures r.Ok? <==> Admisibles(old(db.productos), items)
    ensures r.Ok? ==>
      && r.value == old(db.nextPedido) && r.value !in old(db.pedidos) && db.nextPedido == r.value + 1
      && Efecto(old(db.productos), db.productos, items)
      && db.detalles == old(db.detalles) + LineasCreadas(old(db.productos), r.value, items)
      && db.pedidos == old(db.pedidos)[r.value := Pedido(cliente, tienda, Pendiente, Importe(old(db.productos), items), notas)]
    ensures r.Ok? ==>
      db.Snapshot().(productos := old(db.productos), detalles := old(db.detalles), pedidos := old(db.pedidos),
                     nextPedido := old(db.nextPedido)) == old(db.Snapshot())
  {
    ghost var ps0, ds0, pe0 := db.productos, db.detalles, db.pedidos;
    NuevoSinLineas(db);
    var id := db.CrearPedido(cliente, tienda, notas);
    ghost var pe1 := db.pedidos;
    LineasSpec(ps0, ds0, id, items);
    var rd := CrearDetalles(db, id, items);
    if rd.Err? {
      return Err(rd.error);
    }
    assert db.detalles == ds0 + LineasCreadas(ps0, id, items);
    PedidosTrasAbrir(ps0, ds0, pe0, pe1, db.pedidos, id, items, Pedido(cliente, tienda, Pendiente, 0, notas));
    return Ok(id);
  }
}
