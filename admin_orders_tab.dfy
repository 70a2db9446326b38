/** The orders tab of the admin panel (src/frontend/src/components/admin/tabs/AdminOrdersTab.jsx): the list narrowed by state. */
module AdminOrdersTab {
  import opened Wrappers
  import opened Listas

  datatype Pedido = Pedido(id: int, estado: string, total: int)

  predicate Pasa(filtroEstado: string, p: Pedido) { filtroEstado == "todos" || p.estado == filtroEstado }

  function Filtro(filtroEstado: string): Pedido -> bool { (p: Pedido) => Pasa(filtroEstado, p) }

  /** `(pedidos || []).filter(...)`; `None` stands for a null list. */
  function PedidosFiltrados(pedidos: Option<seq<Pedido>>, filtroEstado: string): seq<Pedido>
  {
    Filtrar(pedidos.GetOr([]), Filtro(filtroEstado))
  }

  /**
   * `todos` lists every order; any other value lists exactly the orders in that state; the
   * list keeps the given order; a null list lists none.
   */
  lemma PedidosFiltradosEfecto(pedidos: Option<seq<Pedido>>, filtroEstado: string)
    ensures pedidos.Some? ==> PedidosFiltrados(pedidos, "todos") == pedidos.value
    ensures filtroEstado != "todos" ==>
      forall x :: x in PedidosFiltrados(pedidos, filtroEstado) <==> pedidos.Some? && x in pedidos.value && x.estado == filtroEstado
    ensures Subsecuencia(PedidosFiltrados(pedidos, filtroEstado), pedidos.GetOr([]))
    ensures pedidos.None? ==> PedidosFiltrados(pedidos, filtroEstado) == []
  {
    var s := pedidos.GetOr([]);
    FiltrarTodos(s, Filtro("todos"));
    forall x ensures x in PedidosFiltrados(pedidos, filtroEstado) <==> x in s && Pasa(filtroEstado, x) {
      FiltrarMiembro(s, Filtro(filtroEstado), x);
    }
    FiltrarSubsecuencia(s, Filtro(filtroEstado));
  }
}
