/**
 * The shared axios instance of frontend/src/services/api.js: a request interceptor that attaches
 * the stored access token as a `Bearer` credential, and a response interceptor that answers a
 * first 401 by refreshing the token once (through the same instance) and resending, and answers
 * a 401 of the refresh call itself, a second 401 or a failed refresh by clearing the session and
 * sending the browser to `/login`. The pure functions `Despacho` and `Refresco` say what a
 * request does to the browser; the methods `Solicitar`, `Refrescar` and `CerrarSesion` do it step
 * by step on a `Navegador` and are proved to agree with them.
 */
module ApiSrc {
  import opened Wrappers
  import opened Text
  import opened Http

  /** The path of the refresh endpoint on this client. */
  const RutaRefresco: string := "/auth/token/refresh/"

  /** The marker the response interceptor looks for in a URL to recognise a refresh call. */
  const MarcaRefresco: string := "/token/refresh/"

  /** `a || b || ""` over two stored keys: the first one whose value is truthy. */
  function Primero(store: map<string, string>, a: string, b: string): (r: string)
    ensures Truthy(Get(store, a)) ==> r == store[a]
    ensures !Truthy(Get(store, a)) ==> r == (if Truthy(Get(store, b)) then store[b] else "")
  {
    if Token(store, a) != "" then Token(store, a) else Token(store, b)
  }

  /** `getAccessToken`: `token`, then `accessToken`. */
  function AccessToken(store: map<string, string>): string { Primero(store, "token", "accessToken") }

  /** `getRefreshToken`: `refresh`, then `refreshToken`. */
  function RefreshToken(store: map<string, string>): string { Primero(store, "refresh", "refreshToken") }

  /**
   * The request interceptor: it only touches the `Authorization` header, and sets it to the
   * `Bearer` credential of the access token exactly when that token is not empty.
   */
  function Interceptar(store: map<string, string>, p: Peticion): (q: Peticion)
    ensures q == p.(authorization := q.authorization)
    ensures AccessToken(store) != "" ==> q.authorization == Some(Bearer(AccessToken(store)))
    ensures AccessToken(store) == "" ==> q == p
  {
    ConCredencial(AccessToken(store), p)
  }

  /** A call on the refresh URL, or one already retried: a 401 on it ends the session. */
  function Medida(p: Peticion): nat
  {
    if Includes(p.url, MarcaRefresco) || p.retry then 0 else 1
  }

  lemma RutaRefrescoMarcada()
    ensures Includes(RutaRefresco, MarcaRefresco)
  {
    assert OccursAt(RutaRefresco, MarcaRefresco, 5);
    IncludesIsContains(RutaRefresco, MarcaRefresco);
  }

  /** The terminal handling: `token`, `refresh` and `user` removed, and a redirect to `/login`. */
  function Terminar(s: Estado): Estado
  {
    s.(store := s.store - {"token", "refresh", "user"}, destino := Some("/login"))
  }

  /** The refresh call: a POST of the stored refresh token, with no `_retry` mark. */
  function PeticionRefresco(store: map<string, string>): Peticion
  {
    Peticion(RutaRefresco, None, false, Some(RefreshToken(store)))
  }

  /**
   * What a request `p` sent through the instance resolves to, and the browser after it. At most
   * three requests go out (the request, one refresh call, one resend), the first being `p` as the
   * interceptor leaves it; a call on the refresh URL or an already retried one sends only itself.
   */
  function Despacho(s: Estado, p: Peticion): (r: (Resultado, Estado))
    ensures s.enviadas <= r.1.enviadas
    ensures |s.enviadas| < |r.1.enviadas| <= |s.enviadas| + (if Medida(p) == 0 then 1 else 3)
    ensures r.1.enviadas[|s.enviadas|] == Interceptar(s.store, p)
    ensures |r.1.guion| <= |s.guion|
    ensures Medida(p) == 0 && r.0.Resuelta? ==> r.1.store == s.store && r.1.destino == s.destino
    decreases Medida(p), 2
  {
    var q := Interceptar(s.store, p);
    var (resp, s1) := Enviar(s, q);
    if resp.None? then (Rechazada(ErrorRed), s1)
    else if Exitosa(resp.value.status) then (Resuelta(resp.value), s1)
    else if resp.value.status != 401 then (Rechazada(ErrorRespuesta(resp.value)), s1)
    else if Includes(q.url, MarcaRefresco) || q.retry then (Rechazada(ErrorRespuesta(resp.value)), Terminar(s1))
    else
      var (ok, s2) := Refresco(s1);
      if ok then Despacho(s2, q.(retry := true, authorization := Some(Bearer(AccessToken(s2.store)))))
      else (Rechazada(ErrorRespuesta(resp.value)), Terminar(s2))
  }

  /**
   * `refreshToken`: with no refresh token it is `false` at once, with no request; otherwise it
   * posts the refresh token, and only a reply carrying a non-empty `access` makes it `true`,
   * after writing that token to both `token` and `accessToken` and nothing else.
   */
  function Refresco(s: Estado): (r: (bool, Estado))
    ensures RefreshToken(s.store) == "" ==> r == (false, s)
    ensures s.enviadas <= r.1.enviadas && |r.1.enviadas| <= |s.enviadas| + 1
    ensures |r.1.guion| <= |s.guion|
    ensures r.0 ==>
      && "token" in r.1.store && r.1.store["token"] != "" && r.1.destino == s.destino
      && r.1.store == s.store["token" := r.1.store["token"]]["accessToken" := r.1.store["token"]]
    decreases 1, 1
  {
    if RefreshToken(s.store) == "" then (false, s)
    else
      RutaRefrescoMarcada();
      var (res, s1) := Despacho(s, PeticionRefresco(s.store));
      if res.Resuelta? && Truthy(res.resp.data.access) then
        var a := res.resp.data.access.value;
        (true, s1.(store := s1.store["token" := a]["accessToken" := a]))
      else (false, s1)
  }

  // ----- properties -----

  /** An error reply other than 401 is rejected as it came, with no refresh and no change to the store. */
  lemma OtroErrorSeRechaza(s: Estado, p: Peticion)
    requires s.guion != [] && !Exitosa(s.guion[0].status) && s.guion[0].status != 401
    ensures Despacho(s, p) == (Rechazada(ErrorRespuesta(s.guion[0])),
                               s.(enviadas := s.enviadas + [Interceptar(s.store, p)], guion := s.guion[1..]))
  {
  }

  /** A 401 on the refresh URL, or on a request already retried, ends the session with the original error. */
  lemma NoAutorizadoTermina(s: Estado, p: Peticion)
    requires s.guion != [] && s.guion[0].status == 401 && Medida(p) == 0
    ensures Despacho(s, p) == (Rechazada(ErrorRespuesta(s.guion[0])),
                               Terminar(s.(enviadas := s.enviadas + [Interceptar(s.store, p)], guion := s.guion[1..])))
  {
  }

  /** A first 401 whose refresh fails ends the session too, rejecting with the original error. */
  lemma RefrescoFallidoTermina(s: Estado, p: Peticion)
    requires s.guion != [] && s.guion[0].status == 401 && Medida(p) == 1
    requires !Refresco(Enviar(s, Interceptar(s.store, p)).1).0
    ensures Despacho(s, p).0 == Rechazada(ErrorRespuesta(s.guion[0]))
    ensures Despacho(s, p).1 == Terminar(Refresco(Enviar(s, Interceptar(s.store, p)).1).1)
    ensures Despacho(s, p).1.destino == Some("/login")
  {
  }

  /**
   * A first 401 is answered by one refresh call carrying the stored refresh token; when its reply
   * holds a new access token `a`, the request is resent once, marked as retried and carrying
   * `Bearer a`.
   */
  lemma RefrescoYReenvio(s: Estado, p: Peticion, r1: Respuesta, r2: Respuesta, resto: seq<Respuesta>)
    requires s.guion == [r1, r2] + resto && r1.status == 401 && Medida(p) == 1
    requires RefreshToken(s.store) != "" && Exitosa(r2.status) && Truthy(r2.data.access)
    ensures var e := Despacho(s, p).1.enviadas;
      && |e| >= |s.enviadas| + 3
      && e[|s.enviadas| + 1] == Interceptar(s.store, PeticionRefresco(s.store))
      && e[|s.enviadas| + 1].refresh == Some(RefreshToken(s.store))
      && e[|s.enviadas| + 2] == Interceptar(s.store, p).(retry := true, authorization := Some(Bearer(r2.data.access.value)))
  {
    var q := Interceptar(s.store, p);
    var s1 := Enviar(s, q).1;
    assert s1.guion == [r2] + resto && s1.store == s.store;
    var a := r2.data.access.value;
    RefrescoExitoso(s1, r2, resto);
    var s2 := Refresco(s1).1;
    var llamada := Interceptar(s.store, PeticionRefresco(s.store));
    assert |s1.enviadas| == |s.enviadas| + 1;
    assert |s2.enviadas| == |s.enviadas| + 2 && s2.enviadas[|s.enviadas| + 1] == llamada;
    assert llamada.refresh == Some(RefreshToken(s.store));
    assert AccessToken(s2.store) == a;
    var q2 := q.(retry := true, authorization := Some(Bearer(a)));
    assert Despacho(s, p) == Despacho(s2, q2);
    assert Interceptar(s2.store, q2) == q2;
    var e := Despacho(s2, q2).1.enviadas;
    assert e[|s2.enviadas|] == q2;
    assert e[|s.enviadas| + 1] == s2.enviadas[|s.enviadas| + 1];
  }

  /** A refresh whose reply carries `access` sends one call and stores that token under both keys. */
  lemma RefrescoExitoso(s: Estado, r: Respuesta, resto: seq<Respuesta>)
    requires s.guion == [r] + resto && RefreshToken(s.store) != "" && Exitosa(r.status) && Truthy(r.data.access)
    ensures Refresco(s).0
    ensures Refresco(s).1.enviadas == s.enviadas + [Interceptar(s.store, PeticionRefresco(s.store))]
    ensures Refresco(s).1.store == s.store["token" := r.data.access.value]["accessToken" := r.data.access.value]
  {
    RutaRefrescoMarcada();
    var d := Despacho(s, PeticionRefresco(s.store));
    assert d.0 == Resuelta(r);
  }

  /**
   * The terminal handling leaves `accessToken` and `refreshToken` in place, and the token getters
   * still read them: after it, requests still carry the old `accessToken`.
   */
  lemma TerminarConservaClaves(s: Estado)
    ensures Terminar(s).store == s.store - {"token", "refresh", "user"}
    ensures AccessToken(Terminar(s).store) == (if Truthy(Get(s.store, "accessToken")) then s.store["accessToken"] else "")
    ensures RefreshToken(Terminar(s).store) == (if Truthy(Get(s.store, "refreshToken")) then s.store["refreshToken"] else "")
  {
    var t := Terminar(s).store;
    assert Get(t, "token") == None && Get(t, "refresh") == None;
    assert Get(t, "accessToken") == Get(s.store, "accessToken");
    assert Get(t, "refreshToken") == Get(s.store, "refreshToken");
  }

  // ----- the interceptors, step by step -----

  method CerrarSesion(nav: Navegador)
    modifies nav
    ensures nav.Snapshot() == Terminar(old(nav.Snapshot()))
  {
    nav.RemoveItem("token");
    nav.RemoveItem("refresh");
    nav.RemoveItem("user");
    nav.Redirigir("/login");
  }

  /** A request through the instance, both interceptors included. */
  method Solicitar(nav: Navegador, p: Peticion) returns (r: Resultado)
    modifies nav
    ensures (r, nav.Snapshot()) == Despacho(old(nav.Snapshot()), p)
    decreases Medida(p), 2
  {
    var q := p;
    var token := AccessToken(nav.store);
    if token != "" {
      q := q.(authorization := Some(Bearer(token)));
    }
    var resp := nav.Transporte(q);
    if resp.None? {
      return Rechazada(ErrorRed);
    }
    var res := resp.value;
    if Exitosa(res.status) {
      return Resuelta(res);
    }
    if res.status != 401 {
      return Rechazada(ErrorRespuesta(res));
    }
    if Includes(q.url, MarcaRefresco) || q.retry {
      CerrarSesion(nav);
      return Rechazada(ErrorRespuesta(res));
    }
    q := q.(retry := true);
    var ok := Refrescar(nav);
    if ok {
      q := q.(authorization := Some(Bearer(AccessToken(nav.store))));
      r := Solicitar(nav, q);
      return;
    }
    CerrarSesion(nav);
    return Rechazada(ErrorRespuesta(res));
  }

  /** `refreshToken`. */
  method Refrescar(nav: Navegador) returns (ok: bool)
    modifies nav
    ensures (ok, nav.Snapshot()) == Refresco(old(nav.Snapshot()))
    decreases 1, 1
  {
    var refresh := RefreshToken(nav.store);
    if refresh == "" {
      return false;
    }
    RutaRefrescoMarcada();
    var resp := Solicitar(nav, Peticion(RutaRefresco, None, false, Some(refresh)));
    if !(resp.Resuelta? && Truthy(resp.resp.data.access)) {
      return false;
    }
    var nuevo := resp.resp.data.access.value;
    nav.SetItem("token", nuevo);
    nav.SetItem("accessToken", nuevo);
    return true;
  }
}
