/**
 * The client's panel of prexcol/frontend/src/components/clientes/PanelCliente.jsx: the products of
 * the selected store shown through the category filter, a capped cart, and order creation from
 * the cart. The React state the handlers commit is the fields of `Panel`.
 */
module PanelClientePrexcol {
  import opened Wrappers
  import opened Carrito
  import PedidoLineas
  import Text

  class Panel {
    var productos: seq<Producto>
    var carrito: seq<Item>
    var filtroCategoria: string
    var mostrarFormulario: bool
    var error: string
    var exito: string

    /** The cart never names a product twice. */
    predicate Valido()
      reads this
    {
      IdsUnicos(carrito)
    }

    constructor ()
      ensures Valido() && productos == [] && carrito == [] && filtroCategoria == "todos"
      ensures !mostrarFormulario && error == "" && exito == ""
    {
      productos, carrito, filtroCategoria := [], [], "todos";
      mostrarFormulario, error, exito := false, "", "";
    }

    /** `cargarProductosPorTienda`: a completed load replaces the products and empties the cart. */
    method CargarProductos(c: Carga)
      requires Valido()
      modifies this
      ensures Valido() && filtroCategoria == old(filtroCategoria) && mostrarFormulario == old(mostrarFormulario)
      ensures error == old(error) && exito == old(exito)
      ensures c.Falla? ==> productos == old(productos) && carrito == old(carrito)
      ensures c.Lista? ==> productos == c.ps && carrito == []
      ensures c.NoLista? ==> productos == [] && carrito == []
    {
      if c.Falla? {
        return;
      }
      productos := if c.Lista? then c.ps else [];
      carrito := [];
    }

    method AgregarAlCarrito(p: Producto)
      requires Valido()
      modifies this
      ensures Valido() && carrito == AgregarConTope(old(carrito), p)
      ensures productos == old(productos) && filtroCategoria == old(filtroCategoria)
      ensures mostrarFormulario == old(mostrarFormulario) && error == old(error) && exito == old(exito)
    {
      AgregarConTopeEfecto(carrito, p);
      carrito := AgregarConTope(carrito, p);
    }

    method EliminarDelCarrito(id: int)
      requires Valido()
      modifies this
      ensures Valido() && carrito == Eliminar(old(carrito), id)
      ensures productos == old(productos) && filtroCategoria == old(filtroCategoria)
      ensures mostrarFormulario == old(mostrarFormulario) && error == old(error) && exito == old(exito)
    {
      EliminarEfecto(carrito, id);
      carrito := Eliminar(carrito, id);
    }

    /**
     * `crearPedido`: an empty cart is refused with a message and no request. Otherwise the body
     * sent holds one detail per entry; a created order empties the cart and closes the form, a
     * failed call keeps both and shows the error.
     */
    method CrearPedido(respuesta: Respuesta) returns (enviado: Option<seq<PedidoLineas.Linea>>)
      requires Valido()
      modifies this
      ensures Valido() && productos == old(productos) && filtroCategoria == old(filtroCategoria)
      ensures old(carrito) == [] ==>
        enviado == None && error == CarritoVacio && carrito == [] && exito == old(exito)
        && mostrarFormulario == old(mostrarFormulario)
      ensures old(carrito) != [] ==> enviado == Some(Detalles(old(carrito)))
      ensures old(carrito) != [] && respuesta.Creado? ==>
        carrito == [] && !mostrarFormulario && error == old(error)
        && exito == "✓ Pedido #" + Text.NatToString(respuesta.id) + " creado exitosamente"
      ensures old(carrito) != [] && respuesta.Fallo? ==>
        carrito == old(carrito) && mostrarFormulario == old(mostrarFormulario)
        && error == "Error al crear pedido: " + respuesta.mensaje && exito == old(exito)
    {
      if |carrito| == 0 {
        error := CarritoVacio;
        return None;
      }
      enviado := Some(Detalles(carrito));
      match respuesta
      case Creado(id) =>
        exito := "✓ Pedido #" + Text.NatToString(id) + " creado exitosamente";
        carrito := [];
        mostrarFormulario := false;
      case Fallo(m) =>
        error := "Error al crear pedido: " + m;
    }
  }
}
