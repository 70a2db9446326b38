/**
 * What the browser-side token clients share: the request config an axios interceptor sees, the
 * server's replies, the browser's `localStorage`, and a transport that answers from a script
 * of replies (the server's behaviour is a parameter; an exhausted script is a network error).
 * The `Authorization` value is the `Bearer` credential of section 2.1 of RFC 6750.
 */
module Http {
  import opened Wrappers

  /** The `user` object of a login reply; `rol` may be missing. */
  datatype Usuario = Usuario(rol: Option<string>)

  /** The fields of a reply body the clients read. */
  datatype Cuerpo = Cuerpo(access: Option<string>, refresh: Option<string>, user: Option<Usuario>)

  datatype Respuesta = Respuesta(status: int, data: Cuerpo)

  /**
   * A request config: its URL (relative to the client's base URL), its `Authorization` header,
   * the `_retry` mark, and the `refresh` field of its JSON body when it has one.
   */
  datatype Peticion = Peticion(url: string, authorization: Option<string>, retry: bool, refresh: Option<string>)

  /** Why a request promise rejects: a reply outside 2xx, or no reply at all. */
  datatype Fallo = ErrorRespuesta(resp: Respuesta) | ErrorRed

  datatype Resultado = Resuelta(resp: Respuesta) | Rechazada(error: Fallo)

  /** axios's default `validateStatus`: a 2xx reply resolves, any other rejects. */
  predicate Exitosa(status: int) { 200 <= status < 300 }

  /** The credential of section 2.1 of RFC 6750: the scheme `Bearer`, one space, the token. */
  function Bearer(token: string): (r: string)
    ensures |r| == 7 + |token| && r[7..] == token
  {
    "Bearer " + token
  }

  lemma BearerInjective(a: string, b: string)
    requires Bearer(a) == Bearer(b)
    ensures a == b
  {
    assert a == Bearer(a)[7..];
  }

  /** `localStorage.getItem(k)`: `None` is `null`. */
  function Get(store: map<string, string>, k: string): Option<string>
  {
    if k in store then Some(store[k]) else None
  }

  /** JavaScript truthiness of a string that may be `null` or `undefined`. */
  predicate Truthy(v: Option<string>) { v.Some? && v.value != "" }

  /** A token getter: the stored text under `k` when it is truthy, and "" for `null` or empty. */
  function Token(store: map<string, string>, k: string): (r: string)
    ensures r != "" <==> Truthy(Get(store, k))
    ensures r != "" ==> r == store[k]
  {
    if Truthy(Get(store, k)) then store[k] else ""
  }

  /**
   * What every request interceptor does with the token it read: only the header changes, to
   * `Bearer t` when `t` is not empty; an empty token leaves the request as it was.
   */
  function ConCredencial(t: string, p: Peticion): (q: Peticion)
    ensures q == p.(authorization := q.authorization)
    ensures t != "" ==> q.authorization == Some(Bearer(t))
    ensures t == "" ==> q == p
  {
    if t != "" then p.(authorization := Some(Bearer(t))) else p
  }

  /** `localStorage.setItem(k, v)` converts its value to text: `undefined` is stored as "undefined". */
  function Texto(v: Option<string>): string
  {
    if v.Some? then v.value else "undefined"
  }

  /** The browser state a client works on, as a value. */
  datatype Estado = Estado(store: map<string, string>, enviadas: seq<Peticion>, destino: Option<string>, guion: seq<Respuesta>)

  /**
   * One request on the wire: it is recorded as sent and answered by the next reply of the
   * script, or fails as a network error when the script is exhausted.
   */
  function Enviar(s: Estado, p: Peticion): (r: (Option<Respuesta>, Estado))
    ensures r.1.store == s.store && r.1.destino == s.destino && r.1.enviadas == s.enviadas + [p]
    ensures |r.1.guion| <= |s.guion| && (s.guion != [] ==> |r.1.guion| < |s.guion|)
    ensures r.0.None? <==> s.guion == []
  {
    if s.guion == [] then (None, s.(enviadas := s.enviadas + [p]))
    else (Some(s.guion[0]), s.(enviadas := s.enviadas + [p], guion := s.guion[1..]))
  }

  /**
   * The browser: `localStorage`, the requests sent so far, the page `window.location.href` was
   * last set to, and the replies the server will give.
   */
  class Navegador {
    var store: map<string, string>
    var enviadas: seq<Peticion>
    var destino: Option<string>
    var guion: seq<Respuesta>

    constructor (store0: map<string, string>, guion0: seq<Respuesta>)
      ensures Snapshot() == Estado(store0, [], None, guion0)
    {
      store, enviadas, destino, guion := store0, [], None, guion0;
    }

    function Snapshot(): Estado
      reads this
    {
      Estado(store, enviadas, destino, guion)
    }

    /** Sends `p` and takes the next reply, if any. */
    method Transporte(p: Peticion) returns (r: Option<Respuesta>)
      modifies this
      ensures (r, Snapshot()) == Enviar(old(Snapshot()), p)
    {
      enviadas := enviadas + [p];
      if guion == [] {
        return None;
      }
      r := Some(guion[0]);
      guion := guion[1..];
    }

    method SetItem(k: string, v: string)
      modifies this
      ensures Snapshot() == old(Snapshot()).(store := old(store)[k := v])
    {
      store := store[k := v];
    }

    method RemoveItem(k: string)
      modifies this
      ensures Snapshot() == old(Snapshot()).(store := old(store) - {k})
    {
      store := store - {k};
    }

    method Redirigir(url: string)
      modifies this
      ensures Snapshot() == old(Snapshot()).(destino := Some(url))
    {
      destino := Some(url);
    }
  }
}
