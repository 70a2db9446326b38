/**
 * The order endpoints of prexcol/backend/productos/views.py. They differ from the src variant in
 * who sees which orders (a `comprador` role exists, `logistica` sees fewer states), in
 * `crear_pedido` (no payment, so no amount to match), and in `cambiar_estado` (a `comprador`
 * may call it). The view imports its serializers from prexcol/backend/productos/serializers.py,
 * plain `ModelSerializer`s over `Pedido`, and is written against the ones of
 * prexcol/productos/serializers.py: each of the two endpoints is modelled as written
 * (`CrearPedidoTalCual`, `CambiarEstadoTalCual`) and with the serializer it is written for
 * (`CrearPedido`, `CambiarEstado`; the first also with the product lookup mended, see there). `por_pedido` lists the lines of one order. `ajustar_stock`
 * and the plain `create` are the shared ones of `Vistas`.
 */
module PrexcolViews {
  import opened Wrappers
  import opened Text
  import opened Inventory
  import opened PedidoLineas
  import opened Vistas
  import opened Serializers
  import opened Peticion
  import SrcViews

  /**
   * `PedidoViewSet.get_queryset`: `admin` and superusers see every order, `cliente` its own,
   * `comprador` the pending and preparing ones, `logistica` the preparing and in-transit ones,
   * anyone else none.
   */
  predicate PedidoVisible(u: Solicitante, p: Pedido)
  {
    if u.rol == "admin" || u.isSuperuser then true
    else if u.rol == "cliente" then p.cliente == u.id
    else if u.rol == "comprador" then p.estado == Pendiente || p.estado == Preparando
    else if u.rol == "logistica" then p.estado == Preparando || p.estado == EnTransito
    else false
  }

  /**
   * The two variants agree for `admin`, superusers and `cliente`; a `logistica` account sees
   * pending and delivered orders only in the src variant, and a `comprador` account sees pending
   * and preparing orders only in this one.
   */
  lemma VisibilidadSegunVariante(u: Solicitante, p: Pedido)
    ensures (u.rol == "admin" || u.isSuperuser || u.rol == "cliente") ==>
      (PedidoVisible(u, p) <==> SrcViews.PedidoVisible(u, p))
    ensures (u.rol == "logistica" && !u.isSuperuser) ==>
      ((SrcViews.PedidoVisible(u, p) && !PedidoVisible(u, p)) <==> (p.estado == Pendiente || p.estado == Entregado))
    ensures (u.rol == "logistica" && !u.isSuperuser) ==> (PedidoVisible(u, p) ==> SrcViews.PedidoVisible(u, p))
    ensures (u.rol == "comprador" && !u.isSuperuser) ==>
      ((PedidoVisible(u, p) && !SrcViews.PedidoVisible(u, p)) <==> (p.estado == Pendiente || p.estado == Preparando))
  {
  }

  // ----- crear_pedido -----

  /**
   * What the imported `PedidoCreateSerializer`, a `ModelSerializer` over every field of
   * `Pedido`, leaves in `validated_data` when `is_valid()` passes: the two required foreign keys
   * and whichever optional columns were sent (`id` and the timestamps are read-only).
   */
  datatype DatosModelo = DatosModelo(cliente: int, tienda: int, estado: Option<Estado>, total: Option<int>, notas: Option<string>)

  /** The keys of that `validated_data`: model columns only, never `tienda_id` or `detalles`. */
  function Claves(d: DatosModelo): (r: set<string>)
    ensures {"cliente", "tienda"} <= r <= {"cliente", "tienda", "estado", "total", "notas"}
    ensures "estado" in r <==> d.estado.Some?
  {
    {"cliente", "tienda"}
    + (if d.estado.Some? then {"estado"} else {})
    + (if d.total.Some? then {"total"} else {})
    + (if d.notas.Some? then {"notas"} else {})
  }

  /**
   * `crear_pedido` as written: past `IsCliente`, a body the model serializer refuses is a 400,
   * and one it accepts reaches `validated_data["tienda_id"]`, a `KeyError` that the view's
   * `except Exception` turns into a 400 before anything is created. No order is ever stored.
   */
  function CrearPedidoTalCual(u: Option<Solicitante>, validado: Option<DatosModelo>): (status: int)
    ensures Rechazo(PermisoCrearPedido, u).Some? ==> status == Rechazo(PermisoCrearPedido, u).value
    ensures Rechazo(PermisoCrearPedido, u).None? ==> status == 400
  {
    var rechazo := Rechazo(PermisoCrearPedido, u);
    if rechazo.Some? then rechazo.value
    else if validado.None? then 400
    else
      assert "tienda_id" !in Claves(validado.value);
      400
  }

  /**
   * The body of `crear_pedido` as prexcol/productos/serializers.py validates it: store key, notes,
   * details. A detail's product stands for the `Producto` its key names, which line 239 of the
   * view is taken to use directly.
   */
  datatype DatosPedido = DatosPedido(tienda: int, notas: string, detalles: seq<Linea>)

  /**
   * `crear_pedido` with the `PedidoCreateSerializer` of prexcol/productos/serializers.py, which
   * the view is written for, and with line 239 taking the product that serializer's `producto`
   * field has already looked up (as written it passes that `Producto` to `get(id=…)`, which
   * raises `TypeError` and answers 400 like any other exception). `IsCliente` refuses other requesters (401 or 403, nothing stored);
   * the serializer refuses an invalid body (400, nothing stored); otherwise the transaction
   * either commits a pending order whose total is the sum of quantity times price, one line per
   * detail and each product's stock reduced, or (a missing product, too little stock for
   * repeated details, an IntegrityError) rolls back every table and answers 400. `tiendas` is
   * the set of stored store keys.
   */
  method CrearPedido(db: Db, u: Option<Solicitante>, tiendas: set<int>, datos: DatosPedido) returns (status: int, id: Option<int>)
    requires db.Valid()
    modifies db
    ensures db.Valid()
    ensures status in {201, 400, 401, 403}
    ensures Rechazo(PermisoCrearPedido, u).Some? ==> status == Rechazo(PermisoCrearPedido, u).value
    ensures status == 201 <==>
      && Rechazo(PermisoCrearPedido, u).None?
      && ValidarPedido(tiendas, old(db.productos), datos.tienda, datos.detalles).Ok? && Admisibles(old(db.productos), datos.detalles)
    ensures status != 201 ==> id.None? && db.Snapshot() == old(db.Snapshot())
    ensures status == 201 ==>
      && u.Some? && u.value.rol == "cliente"
      && id == Some(old(db.nextPedido)) && id.value !in old(db.pedidos) && db.nextPedido == id.value + 1
      && Efecto(old(db.productos), db.productos, datos.detalles)
      && db.detalles == old(db.detalles) + LineasCreadas(old(db.productos), id.value, datos.detalles)
      && db.pedidos == old(db.pedidos)[id.value := Pedido(u.value.id, datos.tienda, Pendiente, Importe(old(db.productos), datos.detalles), datos.notas)]
    ensures status == 201 ==>
      db.Snapshot().(productos := old(db.productos), detalles := old(db.detalles), pedidos := old(db.pedidos),
                     nextPedido := old(db.nextPedido)) == old(db.Snapshot())
  {
    var rechazo := Rechazo(PermisoCrearPedido, u);
    if rechazo.Some? {
      return rechazo.value, None;
    }
    if ValidarPedido(tiendas, db.productos, datos.tienda, datos.detalles).Err? {
      return 400, None;
    }
    var antes := db.Snapshot();
    var r := AbrirPedido(db, u.value.id, datos.tienda, datos.notas, datos.detalles);
    if r.Err? {
      db.Restore(antes);
      return 400, None;
    }
    var total := db.CalcularTotal(r.value);
    return 201, Some(r.value);
  }

  /**
   * A body the serializer accepts and whose details name distinct products is always stored;
   * with no payment to match, the src variant's amount check has no counterpart here.
   */
  lemma ValidoSeGuarda(tiendas: set<int>, ps: map<int, Producto>, datos: DatosPedido, pago: SrcViews.DatosPedido, t: Tablas)
    requires ValidarPedido(tiendas, ps, datos.tienda, datos.detalles).Ok?
    requires forall i, j :: 0 <= i < j < |datos.detalles| ==> datos.detalles[i].producto != datos.detalles[j].producto
    requires t.productos == ps && pago.detalles == datos.detalles && Existentes(ps, datos.detalles)
    requires pago.montoPago != Importe(ps, datos.detalles)
    ensures Admisibles(ps, datos.detalles)
    ensures !SrcViews.Admisible(t, pago)
  {
    ValidoYDistintoEsAdmisible(tiendas, ps, datos.tienda, datos.detalles);
  }

  // ----- cambiar_estado -----

  /** `cambiar_estado`'s `IsAdmin | IsComprador | IsLogistica`. */
  const PermisoCambio: Permiso := Roles({"admin", "comprador", "logistica"})

  /** Whether `get_object` finds order `id` for the signed-in `u`. */
  predicate EncuentraPedido(pe: map<int, Pedido>, u: Option<Solicitante>, id: int)
  {
    u.Some? && id in pe && PedidoVisible(u.value, pe[id])
  }

  /** What the imported `PedidoUpdateEstadoSerializer` makes of the body's `estado`. */
  datatype LecturaEstado = SinEstado | EstadoNoValido | EstadoElegido(e: Estado)

  /**
   * `PedidoUpdateEstadoSerializer` as imported, a `ModelSerializer` with `fields = ['estado']`:
   * the column has choices and a default, so the field is an optional choice with no role
   * limit. An absent value passes with no `estado` in `validated_data`; `null`, or a value whose
   * text is not one of the five state names, fails `is_valid()`.
   */
  function LeerEstado(estado: Option<Json>): (r: LecturaEstado)
    ensures r == SinEstado <==> estado.None?
    ensures r.EstadoElegido? <==> estado.Some? && estado.value.JStr? && ParseEstado(estado.value.s).Some?
    ensures r.EstadoElegido? ==> EstadoName(r.e) == estado.value.s
  {
    if estado.None? then SinEstado
    else if estado.value.JStr? && ParseEstado(estado.value.s).Some? then EstadoElegido(ParseEstado(estado.value.s).value)
    else EstadoNoValido
  }

  /**
   * `cambiar_estado` as written. Past the permission check (401 or 403) and `get_object` (404),
   * a state the model serializer refuses is a 400; an absent one passes it and then
   * `validated_data["estado"]` raises a `KeyError` nobody catches (500); a transition the
   * predecessor guard refuses is a 400. None of these changes anything. Otherwise the state is
   * stored (200) and a cancellation restocks every line of the order, whatever the role.
   */
  method CambiarEstadoTalCual(db: Db, u: Option<Solicitante>, id: int, estado: Option<Json>) returns (status: int, pedido: Option<Pedido>)
    requires db.Valid()
    modifies db
    ensures db.Valid()
    ensures status in {200, 400, 401, 403, 404, 500}
    ensures Rechazo(PermisoCambio, u).Some? ==> status == Rechazo(PermisoCambio, u).value
    ensures status == 404 <==> Rechazo(PermisoCambio, u).None? && !EncuentraPedido(old(db.pedidos), u, id)
    ensures status == 500 <==> Rechazo(PermisoCambio, u).None? && EncuentraPedido(old(db.pedidos), u, id) && estado.None?
    ensures status == 400 <==>
      && Rechazo(PermisoCambio, u).None? && EncuentraPedido(old(db.pedidos), u, id)
      && (LeerEstado(estado) == EstadoNoValido || (LeerEstado(estado).EstadoElegido? && !Permitido(old(db.pedidos[id]), LeerEstado(estado).e)))
    ensures status != 200 ==> pedido.None? && db.Snapshot() == old(db.Snapshot())
    ensures status == 200 ==>
      var nuevo := LeerEstado(estado).e;
      && pedido == Some(old(db.pedidos[id]).(estado := nuevo))
      && db.pedidos == old(db.pedidos)[id := pedido.value]
      && db.productos == (if nuevo == Cancelado then Reponer(old(db.productos), old(db.detalles), id) else old(db.productos))
      && db.Snapshot().(productos := old(db.productos), pedidos := old(db.pedidos)) == old(db.Snapshot())
  {
    var rechazo := Rechazo(PermisoCambio, u);
    if rechazo.Some? {
      return rechazo.value, None;
    }
    if !EncuentraPedido(db.pedidos, u, id) {
      return 404, None;
    }
    var v := LeerEstado(estado);
    if v == EstadoNoValido {
      return 400, None;
    }
    if v == SinEstado {
      return 500, None;
    }
    var r := AplicarEstado(db, id, v.e);
    if r.Err? {
      return 400, None;
    }
    return 200, Some(r.value);
  }

  /**
   * As written, a `comprador` or `logistica` account can cancel every order it is shown, and
   * move it to any state its predecessor guard allows; the role limits of
   * prexcol/productos/serializers.py would refuse the cancellation.
   */
  lemma RolesSinLimite(u: Solicitante, p: Pedido)
    requires u.rol == "comprador" || u.rol == "logistica"
    ensures Rechazo(PermisoCambio, Some(u)).None?
    ensures LeerEstado(Some(JStr("cancelado"))) == EstadoElegido(Cancelado) && Permitido(p, Cancelado)
    ensures ValidarEstado(Some(u.rol), true, "cancelado").Err?
    ensures p.estado == Pendiente ==> LeerEstado(Some(JStr("preparando"))) == EstadoElegido(Preparando) && Permitido(p, Preparando)
  {
    SoloAdminCancela(Some(u.rol));
  }

  /**
   * `cambiar_estado` with the `PedidoUpdateEstadoSerializer` of prexcol/productos/serializers.py,
   * which the view is written for (it passes the order in the serializer's context, which only
   * that serializer reads). Past the permission check (401 or 403) and `get_object` (404), a
   * target state the serializer refuses for the requester's role, or one the predecessor guard
   * refuses, is a 400; none of these changes anything. Otherwise the state is stored (200) and
   * a cancellation restocks every line of the order.
   */
  method CambiarEstado(db: Db, u: Option<Solicitante>, id: int, estado: string) returns (status: int, pedido: Option<Pedido>)
    requires db.Valid()
    modifies db
    ensures db.Valid()
    ensures status in {200, 400, 401, 403, 404}
    ensures Rechazo(PermisoCambio, u).Some? ==> status == Rechazo(PermisoCambio, u).value
    ensures status == 404 <==> Rechazo(PermisoCambio, u).None? && !EncuentraPedido(old(db.pedidos), u, id)
    ensures status == 400 <==>
      && Rechazo(PermisoCambio, u).None? && EncuentraPedido(old(db.pedidos), u, id)
      && (ValidarEstado(Some(u.value.rol), true, estado).Err? || !Permitido(old(db.pedidos[id]), ValidarEstado(Some(u.value.rol), true, estado).value))
    ensures status != 200 ==> pedido.None? && db.Snapshot() == old(db.Snapshot())
    ensures status == 200 ==>
      var nuevo := ValidarEstado(Some(u.value.rol), true, estado).value;
      && pedido == Some(old(db.pedidos[id]).(estado := nuevo))
      && db.pedidos == old(db.pedidos)[id := pedido.value]
      && db.productos == (if nuevo == Cancelado then Reponer(old(db.productos), old(db.detalles), id) else old(db.productos))
      && db.Snapshot().(productos := old(db.productos), pedidos := old(db.pedidos)) == old(db.Snapshot())
  {
    var rechazo := Rechazo(PermisoCambio, u);
    if rechazo.Some? {
      return rechazo.value, None;
    }
    if !EncuentraPedido(db.pedidos, u, id) {
      return 404, None;
    }
    var v := ValidarEstado(Some(u.value.rol), true, estado);
    if v.Err? {
      return 400, None;
    }
    var r := AplicarEstado(db, id, v.value);
    if r.Err? {
      return 400, None;
    }
    return 200, Some(r.value);
  }

  /**
   * For `comprador` and `logistica` a change that passes both the serializer and the guard moves
   * the order exactly one step along the chain pendiente, preparando, en_transito, entregado:
   * they can never cancel, nor move an order back.
   */
  lemma RolesAvanzanUnPaso(u: Solicitante, p: Pedido, estado: string)
    requires u.rol == "comprador" || u.rol == "logistica"
    requires ValidarEstado(Some(u.rol), true, estado).Ok?
    requires Permitido(p, ValidarEstado(Some(u.rol), true, estado).value)
    ensures var e := ValidarEstado(Some(u.rol), true, estado).value;
      || (p.estado == Pendiente && e == Preparando)
      || (p.estado == Preparando && e == EnTransito)
      || (p.estado == EnTransito && e == Entregado)
  {
    ValidarEstadoSpec(Some(u.rol), true, estado);
  }

  // ----- DetallePedidoViewSet.por_pedido -----

  datatype Respuesta = Respuesta(status: int, lineas: seq<DetallePedido>)

  /** Who may list an order's lines: superusers, `admin`, the order's client, `comprador` and `logistica`. */
  predicate PuedeVerLineas(u: Solicitante, p: Pedido)
  {
    u.isSuperuser || u.rol == "admin" || p.cliente == u.id || u.rol == "comprador" || u.rol == "logistica"
  }

  /**
   * `por_pedido` under the viewset's `IsAuthenticated` (line 329): an anonymous request is 401.
   * Then an absent or empty `pedido_id` is a 400; one that is not an integer makes the key lookup
   * raise a `ValueError` nobody catches (a 500); an unknown order is a 404; a requester who may
   * not see it gets a 403; otherwise the order's lines (200).
   */
  function PorPedido(t: Tablas, u: Option<Solicitante>, pedidoId: Option<string>): (r: Respuesta)
    ensures r.status in {200, 400, 401, 403, 404, 500}
    ensures r.status == 401 <==> u.None?
    ensures r.status == 400 <==> u.Some? && (pedidoId.None? || pedidoId.value == "")
    ensures r.status == 500 <==> u.Some? && pedidoId.Some? && pedidoId.value != "" && PyInt(pedidoId.value).None?
    ensures r.status == 200 <==>
      && u.Some? && pedidoId.Some? && PyInt(pedidoId.value).Some? && PyInt(pedidoId.value).value in t.pedidos
      && PuedeVerLineas(u.value, t.pedidos[PyInt(pedidoId.value).value])
    ensures r.status == 200 ==> r.lineas == LineasDe(t.detalles, PyInt(pedidoId.value).value)
    ensures r.status != 200 ==> r.lineas == []
  {
    if Rechazo(Autenticado, u).Some? then Respuesta(Rechazo(Autenticado, u).value, [])
    else if pedidoId.None? || pedidoId.value == "" then Respuesta(400, [])
    else
      var n := PyInt(pedidoId.value);
      if n.None? then Respuesta(500, [])
      else if n.value !in t.pedidos then Respuesta(404, [])
      else if !PuedeVerLineas(u.value, t.pedidos[n.value]) then Respuesta(403, [])
      else Respuesta(200, LineasDe(t.detalles, n.value))
  }

  /**
   * In a consistent database the lines `por_pedido` returns are exactly the order's lines, and
   * their subtotals add up to the stored total; asking by the key's own text finds the order.
   */
  lemma PorPedidoSuma(t: Tablas, u: Solicitante, id: nat)
    requires Consistent(t.productos, t.pedidos, t.detalles, t.nextPedido)
    requires id in t.pedidos && PuedeVerLineas(u, t.pedidos[id])
    ensures PorPedido(t, Some(u), Some(NatToString(id))) == Respuesta(200, LineasDe(t.detalles, id))
    ensures Total(LineasDe(t.detalles, id), id) == t.pedidos[id].total
  {
    PyIntOfNatToString(id);
    TotalLineasDe(t.detalles, id);
  }
}
