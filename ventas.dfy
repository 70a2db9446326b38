/**
 * The `post_save` receiver of src/backend/apps/ventas/signals.py: when a payment is saved in an
 * approved state, the order it pays is recorded as a sale, once, with a copy of each of its
 * lines. A sale is keyed by its order (the one-to-one `venta_registrada`).
 */
module Ventas {
  import opened Text
  import opened Inventory

  datatype Venta = Venta(pedido: int, cliente: int, total: int, cantidadItems: int)

  /** A sale line, copied from an order line together with its subtotal. */
  datatype DetalleVenta = DetalleVenta(pedido: int, producto: int, cantidad: int, precioUnitario: int, subtotal: int)

  /** The payment states that count as paid, compared in lower case. */
  predicate EstadoAprobado(nombre: string)
  {
    ToLower(nombre) in {"aprobado", "completado", "pagado"}
  }

  function Copia(d: DetallePedido): DetalleVenta
  {
    DetalleVenta(d.pedido, d.producto, d.cantidad, d.precioUnitario, Subtotal(d))
  }

  /** The sale lines built from a run of order lines, one each, in the same order. */
  function Copias(ls: seq<DetallePedido>): (r: seq<DetalleVenta>)
    ensures |r| == |ls|
  {
    if ls == [] then [] else Copias(ls[..|ls| - 1]) + [Copia(ls[|ls| - 1])]
  }

  /** The units of a run of order lines. */
  function Unidades(ls: seq<DetallePedido>): int
  {
    if ls == [] then 0 else Unidades(ls[..|ls| - 1]) + ls[|ls| - 1].cantidad
  }

  function SumaSubtotales(vs: seq<DetalleVenta>): int
  {
    if vs == [] then 0 else SumaSubtotales(vs[..|vs| - 1]) + vs[|vs| - 1].subtotal
  }

  /** Each sale line copies the quantity, unit price and subtotal of the order line at its place. */
  lemma {:induction false} CopiasFieles(ls: seq<DetallePedido>, i: int)
    requires 0 <= i < |ls|
    ensures Copias(ls)[i] == DetalleVenta(ls[i].pedido, ls[i].producto, ls[i].cantidad, ls[i].precioUnitario, ls[i].cantidad * ls[i].precioUnitario)
  {
    if i < |ls| - 1 {
      CopiasFieles(ls[..|ls| - 1], i);
    }
  }

  /** The subtotals of the copies of an order's lines add up to that order's total. */
  lemma {:induction false} SubtotalesDeCopias(ls: seq<DetallePedido>, pedido: int)
    requires forall i :: 0 <= i < |ls| ==> ls[i].pedido == pedido
    ensures SumaSubtotales(Copias(ls)) == Total(ls, pedido)
  {
    if ls != [] {
      SubtotalesDeCopias(ls[..|ls| - 1], pedido);
      assert Copias(ls)[..|ls| - 1] == Copias(ls[..|ls| - 1]);
    }
  }

  /** The sale tables: one sale per paid order, and the sale lines. */
  class Registro {
    var ventas: map<int, Venta>
    var detalles: seq<DetalleVenta>

    /** Each sale sits under the key of its order. */
    ghost predicate Valid()
      reads this
    {
      forall k :: k in ventas ==> ventas[k].pedido == k
    }

    constructor ()
      ensures Valid() && ventas == map[] && detalles == []
    {
      ventas := map[];
      detalles := [];
    }

    /**
     * `crear_venta_al_aprobar_pago` for a saved payment `pago` of an order in `db`. A payment
     * in another state, or one whose order already has a sale, changes nothing. Otherwise one
     * sale is stored for the order, with the order's client and total and the number of units
     * on its lines, and one sale line per order line.
     */
    method CrearVentaAlAprobarPago(db: Db, pago: Pago)
      requires Valid() && pago.pedido in db.pedidos
      modifies this
      ensures Valid()
      ensures (ventas, detalles) == Registrada(old(ventas), old(detalles), db.pedidos, db.detalles, pago)
    {
      if !EstadoAprobado(pago.estado) {
        return;
      }
      var pedido := db.pedidos[pago.pedido];
      if pago.pedido in ventas {
        return;
      }
      ventas := ventas[pago.pedido := Venta(pago.pedido, pedido.cliente, pedido.total, |LineasDe(db.detalles, pago.pedido)|)];
      var lineas := LineasDe(db.detalles, pago.pedido);
      var detallesVenta: seq<DetalleVenta> := [];
      var cantidadTotal := 0;
      var i := 0;
      while i < |lineas|
        invariant 0 <= i <= |lineas|
        invariant detallesVenta == Copias(lineas[..i])
        invariant cantidadTotal == Unidades(lineas[..i])
      {
        assert lineas[..i + 1][..i] == lineas[..i];
        detallesVenta := detallesVenta + [Copia(lineas[i])];
        cantidadTotal := cantidadTotal + lineas[i].cantidad;
        i := i + 1;
      }
      assert lineas[..i] == lineas;
      detalles := detalles + detallesVenta;
      ventas := ventas[pago.pedido := ventas[pago.pedido].(cantidadItems := cantidadTotal)];
      assert ventas == old(ventas)[pago.pedido := Venta(pago.pedido, pedido.cliente, pedido.total, Unidades(lineas))];
    }
  }

  /** The sale tables after the receiver runs for `pago`. */
  function Registrada(ventas: map<int, Venta>, detalles: seq<DetalleVenta>, pedidos: map<int, Pedido>,
                      ds: seq<DetallePedido>, pago: Pago): (map<int, Venta>, seq<DetalleVenta>)
    requires pago.pedido in pedidos
  {
    if !EstadoAprobado(pago.estado) || pago.pedido in ventas then (ventas, detalles)
    else
      var p := pedidos[pago.pedido];
      var ls := LineasDe(ds, pago.pedido);
      (ventas[pago.pedido := Venta(pago.pedido, p.cliente, p.total, Unidades(ls))], detalles + Copias(ls))
  }

  /**
   * Once an approved payment has been saved, saving it again, or saving any other payment of
   * the same order, records nothing more: the receiver is idempotent.
   */
  lemma RegistrarDosVeces(ventas: map<int, Venta>, detalles: seq<DetalleVenta>, pedidos: map<int, Pedido>,
                          ds: seq<DetallePedido>, pago: Pago, otro: Pago)
    requires pago.pedido in pedidos && otro.pedido == pago.pedido && EstadoAprobado(pago.estado)
    ensures var (v1, d1) := Registrada(ventas, detalles, pedidos, ds, pago);
      Registrada(v1, d1, pedidos, ds, otro) == (v1, d1)
  {
  }

  /**
   * A recorded sale carries the order's total, equal (in a consistent database) to the sum of
   * the subtotals of its sale lines, and as many sale lines as the order has lines; a payment
   * that is not approved records nothing.
   */
  lemma VentaCuadra(t: Tablas, ventas: map<int, Venta>, detalles: seq<DetalleVenta>, pago: Pago)
    requires Consistent(t.productos, t.pedidos, t.detalles, t.nextPedido)
    requires pago.pedido in t.pedidos && EstadoAprobado(pago.estado) && pago.pedido !in ventas
    ensures var (v, d) := Registrada(ventas, detalles, t.pedidos, t.detalles, pago);
      && v[pago.pedido].total == t.pedidos[pago.pedido].total
      && d[..|detalles|] == detalles
      && d[|detalles|..] == Copias(LineasDe(t.detalles, pago.pedido))
      && SumaSubtotales(d[|detalles|..]) == t.pedidos[pago.pedido].total
  {
    var ls := LineasDe(t.detalles, pago.pedido);
    SubtotalesDeCopias(ls, pago.pedido);
    TotalLineasDe(t.detalles, pago.pedido);
    var d := detalles + Copias(ls);
    assert d[|detalles|..] == Copias(ls);
  }
}
