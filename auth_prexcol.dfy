/**
 * prexcol/frontend/src/services/authservices.js: `login`, which stores the tokens and the role
 * only when the reply carries an access token and answers with the reply plus `role`; `logout`,
 * which removes the tokens but keeps the role; and `authAxios`, whose response interceptor
 * answers a first 401 by one refresh through bare axios, ending the session when that fails.
 */
module AuthPrexcol {
  import opened Wrappers
  import opened Http

  const RutaRefresco: string := "/auth/refresh/"
  const RutaLogin: string := "/auth/login/"

  /**
   * How `login` settles: with the reply's data and its `role` (`user.rol`), or by throwing the
   * error reply's data, or `None` for the `{error: "Error en el login"}` it throws when there is
   * no reply or when reading `user.rol` fails.
   */
  datatype Sesion = Exito(datos: Cuerpo, role: Option<string>) | Lanza(error: Option<Cuerpo>)

  /**
   * `login`. Only a reply whose `access` is truthy stores anything: `token`, then `refresh` when
   * that is truthy, then `role` (the text "undefined" when `user.rol` is missing). A reply with
   * no `user` makes reading `user.rol` throw, and the generic error is thrown, after the tokens
   * were stored when `access` was there.
   */
  function Login(s: Estado): (r: (Sesion, Estado))
    ensures r.1.enviadas == s.enviadas + [Peticion(RutaLogin, None, false, None)] && r.1.destino == s.destino
    ensures forall k :: k !in {"token", "refresh", "role"} ==> Get(r.1.store, k) == Get(s.store, k)
    ensures r.0.Exito? ==> r.0.datos.user.Some? && r.0.role == r.0.datos.user.value.rol
    ensures r.1.store != s.store ==> s.guion != [] && Exitosa(s.guion[0].status) && Truthy(s.guion[0].data.access)
    ensures s.guion != [] && Exitosa(s.guion[0].status) && Truthy(s.guion[0].data.access) ==>
      Get(r.1.store, "token") == s.guion[0].data.access
  {
    var (resp, s1) := Enviar(s, Peticion(RutaLogin, None, false, None));
    if resp.None? then (Lanza(None), s1)
    else if !Exitosa(resp.value.status) then (Lanza(Some(resp.value.data)), s1)
    else
      var d := resp.value.data;
      if Truthy(d.access) then
        var st1 := s1.store["token" := d.access.value];
        var st2 := if Truthy(d.refresh) then st1["refresh" := d.refresh.value] else st1;
        if d.user.None? then (Lanza(None), s1.(store := st2))
        else (Exito(d, d.user.value.rol), s1.(store := st2["role" := Texto(d.user.value.rol)]))
      else if d.user.None? then (Lanza(None), s1)
      else (Exito(d, d.user.value.rol), s1)
  }

  /** `logout`: `token` and `refresh` are removed; `role` stays. */
  function Salir(store: map<string, string>): (r: map<string, string>)
    ensures forall k :: k in r <==> k in store && k != "token" && k != "refresh"
    ensures forall k :: k in r ==> r[k] == store[k]
    ensures Get(r, "role") == Get(store, "role")
  {
    store - {"token", "refresh"}
  }

  function Interceptar(store: map<string, string>, p: Peticion): (q: Peticion)
    ensures q == p.(authorization := q.authorization)
    ensures Truthy(Get(store, "token")) ==> q.authorization == Some(Bearer(store["token"]))
    ensures !Truthy(Get(store, "token")) ==> q == p
  {
    ConCredencial(Token(store, "token"), p)
  }

  function PeticionRefresco(refresh: string): Peticion
  {
    Peticion(RutaRefresco, None, false, Some(refresh))
  }

  function Medida(p: Peticion): nat { if p.retry then 0 else 1 }

  /**
   * A request through `authAxios`: at most one refresh call and one resend. A 2xx refresh reply
   * stores its `access` as `token` and resends; a failed refresh call runs `logout` and rejects
   * the original error; without a `refresh` key the error is rejected and nothing is cleared.
   */
  function Despacho(s: Estado, p: Peticion): (r: (Resultado, Estado))
    ensures s.enviadas <= r.1.enviadas
    ensures |s.enviadas| < |r.1.enviadas| <= |s.enviadas| + (if Medida(p) == 0 then 1 else 3)
    ensures r.1.enviadas[|s.enviadas|] == Interceptar(s.store, p)
    ensures r.1.destino == s.destino
    ensures Medida(p) == 0 ==> r.1.store == s.store
    decreases Medida(p)
  {
    var q := Interceptar(s.store, p);
    var (resp, s1) := Enviar(s, q);
    if resp.None? then (Rechazada(ErrorRed), s1)
    else if Exitosa(resp.value.status) then (Resuelta(resp.value), s1)
    else if resp.value.status == 401 && !q.retry && Truthy(Get(s1.store, "refresh")) then
      var (r2, s2) := Enviar(s1, PeticionRefresco(s1.store["refresh"]));
      if r2.Some? && Exitosa(r2.value.status) then
        var a := Texto(r2.value.data.access);
        Despacho(s2.(store := s2.store["token" := a]), q.(retry := true, authorization := Some(Bearer(a))))
      else (Rechazada(ErrorRespuesta(resp.value)), s2.(store := Salir(s2.store)))
    else (Rechazada(ErrorRespuesta(resp.value)), s1)
  }

  // ----- properties -----

  /**
   * A reply with an access token but no `user`: the tokens are stored, yet `login` throws the
   * generic error, so the caller sees a failed login with a session in the store.
   */
  lemma LoginSinUsuario(s: Estado, r: Respuesta)
    requires s.guion != [] && s.guion[0] == r && Exitosa(r.status) && Truthy(r.data.access) && r.data.user.None?
    ensures Login(s).0 == Lanza(None)
    ensures Get(Login(s).1.store, "token") == r.data.access
    ensures Truthy(r.data.refresh) ==> Get(Login(s).1.store, "refresh") == r.data.refresh
  {
  }

  /** A user whose `rol` is missing is stored with the role "undefined", which is truthy. */
  lemma RolAusente(s: Estado, r: Respuesta)
    requires s.guion != [] && s.guion[0] == r && Exitosa(r.status) && Truthy(r.data.access)
    requires r.data.user == Some(Usuario(None))
    ensures Login(s).0 == Exito(r.data, None)
    ensures Get(Login(s).1.store, "role") == Some("undefined") && Truthy(Get(Login(s).1.store, "role"))
  {
  }

  /** After `logout` no request carries a credential, while the role is still there. */
  lemma SalirConservaRol(store: map<string, string>, p: Peticion)
    ensures Interceptar(Salir(store), p) == p
    ensures Get(Salir(store), "role") == Get(store, "role")
  {
    assert "token" !in Salir(store);
  }

  /** A failed refresh call ends the session: `logout` runs, then the original error is rejected. */
  lemma RefrescoFallidoSale(s: Estado, p: Peticion)
    requires s.guion != [] && s.guion[0].status == 401 && !p.retry && Truthy(Get(s.store, "refresh"))
    requires var s1 := Enviar(s, Interceptar(s.store, p)).1; s1.guion == [] || !Exitosa(s1.guion[0].status)
    ensures Despacho(s, p).0 == Rechazada(ErrorRespuesta(s.guion[0]))
    ensures Despacho(s, p).1.store == Salir(s.store)
    ensures |Despacho(s, p).1.enviadas| == |s.enviadas| + 2
  {
  }

  /** Without a `refresh` key a 401 is rejected with nothing cleared and no refresh call. */
  lemma SinRefreshSeRechaza(s: Estado, p: Peticion)
    requires s.guion != [] && s.guion[0].status == 401 && !Truthy(Get(s.store, "refresh"))
    ensures Despacho(s, p) == (Rechazada(ErrorRespuesta(s.guion[0])),
                               s.(enviadas := s.enviadas + [Interceptar(s.store, p)], guion := s.guion[1..]))
  {
  }

  /**
   * A 2xx refresh reply updates `token` and the request is resent once, marked as retried,
   * with the new credential.
   */
  lemma RefrescoYReenvio(s: Estado, p: Peticion, r1: Respuesta, r2: Respuesta, resto: seq<Respuesta>)
    requires s.guion == [r1, r2] + resto && r1.status == 401 && !p.retry
    requires Truthy(Get(s.store, "refresh")) && Exitosa(r2.status)
    ensures var e := Despacho(s, p).1.enviadas;
      && |e| == |s.enviadas| + 3
      && e[|s.enviadas| + 1] == PeticionRefresco(s.store["refresh"])
      && e[|s.enviadas| + 2] == Interceptar(s.store, p).(retry := true, authorization := Some(Bearer(Texto(r2.data.access))))
    ensures Despacho(s, p).1.store == s.store["token" := Texto(r2.data.access)]
  {
    var q := Interceptar(s.store, p);
    var a := Texto(r2.data.access);
    var s1 := Enviar(s, q).1;
    assert s1.guion == [r2] + resto;
    var s2 := Enviar(s1, PeticionRefresco(s.store["refresh"])).1;
    var s3 := s2.(store := s2.store["token" := a]);
    var q2 := q.(retry := true, authorization := Some(Bearer(a)));
    assert Despacho(s, p) == Despacho(s3, q2);
    assert Interceptar(s3.store, q2) == q2;
  }

  // ----- step by step -----

  method Solicitar(nav: Navegador, p: Peticion) returns (r: Resultado)
    modifies nav
    ensures (r, nav.Snapshot()) == Despacho(old(nav.Snapshot()), p)
    decreases Medida(p)
  {
    var q := p;
    if Truthy(Get(nav.store, "token")) {
      q := q.(authorization := Some(Bearer(nav.store["token"])));
    }
    var resp := nav.Transporte(q);
    if resp.None? {
      return Rechazada(ErrorRed);
    }
    var res := resp.value;
    if Exitosa(res.status) {
      return Resuelta(res);
    }
    if res.status == 401 && !q.retry {
      q := q.(retry := true);
      var refresh := Get(nav.store, "refresh");
      if Truthy(refresh) {
        var r2 := nav.Transporte(PeticionRefresco(refresh.value));
        if r2.Some? && Exitosa(r2.value.status) {
          var a := Texto(r2.value.data.access);
          nav.SetItem("token", a);
          q := q.(authorization := Some(Bearer(a)));
          r := Solicitar(nav, q);
          return;
        }
        CerrarSesion(nav);
      }
    }
    return Rechazada(ErrorRespuesta(res));
  }

  /** `logout`. */
  method CerrarSesion(nav: Navegador)
    modifies nav
    ensures nav.Snapshot() == old(nav.Snapshot()).(store := Salir(old(nav.store)))
  {
    nav.RemoveItem("token");
    nav.RemoveItem("refresh");
  }

  /** `login`. */
  method IniciarSesion(nav: Navegador) returns (r: Sesion)
    modifies nav
    ensures (r, nav.Snapshot()) == Login(old(nav.Snapshot()))
  {
    var resp := nav.Transporte(Peticion(RutaLogin, None, false, None));
    if resp.None? {
      return Lanza(None);
    }
    var res := resp.value;
    if !Exitosa(res.status) {
      return Lanza(Some(res.data));
    }
    var d := res.data;
    if Truthy(d.access) {
      nav.SetItem("token", d.access.value);
      if Truthy(d.refresh) {
        nav.SetItem("refresh", d.refresh.value);
      }
      if d.user.None? {
        return Lanza(None);
      }
      nav.SetItem("role", Texto(d.user.value.rol));
    }
    if d.user.None? {
      return Lanza(None);
    }
    return Exito(d, d.user.value.rol);
  }
}
