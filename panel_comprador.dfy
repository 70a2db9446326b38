/**
 * The buyer's panel (prexcol/frontend/src/components/usuarios/PanelComprador.jsx): the products of
 * the selected store, a capped cart with removal and quantity edits, and order creation from the
 * cart. The React state the handlers commit is the fields of `Panel`.
 */
module PanelComprador {
  import opened Wrappers
  import opened Carrito
  import PedidoLineas
  import Text

  class Panel {
    var productos: seq<Producto>
    var carrito: seq<Item>
    var error: string
    var exito: string

    /** The cart never names a product twice. */
    predicate Valido()
      reads this
    {
      IdsUnicos(carrito)
    }

    constructor ()
      ensures Valido() && productos == [] && carrito == [] && error == "" && exito == ""
    {
      productos, carrito, error, exito := [], [], "", "";
    }

    /**
     * `cargarProductosPorTienda`: a completed load replaces the products (an empty list when the
     * reply is not an array) and empties the cart; a failed one changes nothing.
     */
    method CargarProductos(c: Carga)
      requires Valido()
      modifies this
      ensures Valido() && error == old(error) && exito == old(exito)
      ensures c.Falla? ==> productos == old(productos) && carrito == old(carrito)
      ensures c.Lista? ==> productos == c.ps && carrito == []
      ensures c.NoLista? ==> productos == [] && carrito == []
    {
      if c.Falla? {
        return;
      }
      productos := if c.Lista? then c.ps else [];
      carrito := [];
    }

    method AgregarAlCarrito(p: Producto)
      requires Valido()
      modifies this
      ensures Valido() && carrito == AgregarConTope(old(carrito), p)
      ensures productos == old(productos) && error == old(error) && exito == old(exito)
    {
      AgregarConTopeEfecto(carrito, p);
      carrito := AgregarConTope(carrito, p);
    }

    method EliminarDelCarrito(id: int)
      requires Valido()
      modifies this
      ensures Valido() && carrito == Eliminar(old(carrito), id)
      ensures productos == old(productos) && error == old(error) && exito == old(exito)
    {
      EliminarEfecto(carrito, id);
      carrito := Eliminar(carrito, id);
    }

    method ActualizarCantidad(id: int, n: int)
      requires Valido()
      modifies this
      ensures Valido() && carrito == Carrito.ActualizarCantidad(old(carrito), id, n)
      ensures productos == old(productos) && error == old(error) && exito == old(exito)
    {
      if n <= 0 {
        EliminarDelCarrito(id);
      } else {
        ActualizarCantidadEfecto(carrito, id, n);
        carrito := Carrito.ActualizarCantidad(carrito, id, n);
      }
    }

    /**
     * `crearPedido`: an empty cart is refused with a message and no request. Otherwise the body
     * sent holds one detail per entry; a created order empties the cart, a failed call keeps it
     * and shows the error.
     */
    method CrearPedido(respuesta: Respuesta) returns (enviado: Option<seq<PedidoLineas.Linea>>)
      requires Valido()
      modifies this
      ensures Valido() && productos == old(productos)
      ensures old(carrito) == [] ==> enviado == None && error == CarritoVacio && carrito == [] && exito == old(exito)
      ensures old(carrito) != [] ==> enviado == Some(Detalles(old(carrito)))
      ensures old(carrito) != [] && respuesta.Creado? ==>
        carrito == [] && exito == "✓ Pedido #" + Text.NatToString(respuesta.id) + " creado exitosamente" && error == old(error)
      ensures old(carrito) != [] && respuesta.Fallo? ==>
        carrito == old(carrito) && error == "Error al crear pedido: " + respuesta.mensaje && exito == old(exito)
    {
      if |carrito| == 0 {
        error := CarritoVacio;
        return None;
      }
      enviado := Some(Detalles(carrito));
      match respuesta
      case Creado(id) =>
        exito := "✓ Pedido #" + Text.NatToString(id) + " creado exitosamente";
        carrito := [];
      case Fallo(m) =>
        error := "Error al crear pedido: " + m;
    }
  }
}
