/**
 * The account-management views of backend/apps/usuarios/views/view_account_management.py:
 * a user deactivating and reactivating their own account, an administrator suspending and
 * reactivating one, and the account status a user can read.
 */
module Cuentas {
  import opened Wrappers
  import opened Usuarios

  // ----- the changes each view makes to a row -----

  function Deactivate(c: Cuenta): Cuenta
  {
    c.(selfDeactivated := true, isActive := false)
  }

  function Reactivate(c: Cuenta): Cuenta
  {
    c.(selfDeactivated := false, isActive := true)
  }

  /**
   * The `reason` of a suspension request as `request.data.get('reason', default)` reads it: an
   * absent key gives the default text, a JSON `null` gives `None`, a text is kept as sent.
   */
  datatype Razon = Ausente | Nula | Texto(texto: string)

  function RazonGuardada(reason: Razon): Option<string>
  {
    match reason
    case Ausente => Some("Sin razón especificada")
    case Nula => None
    case Texto(t) => Some(t)
  }

  function Suspend(c: Cuenta, reason: Razon, now: int): Cuenta
  {
    c.(adminSuspended := true, isActive := false,
       suspensionReason := RazonGuardada(reason), suspensionDate := Some(now))
  }

  function AdminReactivate(c: Cuenta): Cuenta
  {
    c.(adminSuspended := false, selfDeactivated := false, isActive := true,
       suspensionReason := None, suspensionDate := None)
  }

  /** What `get_account_status` reports. */
  datatype AccountStatus = AccountStatus(
    isActive: bool, selfDeactivated: bool, adminSuspended: bool,
    suspensionReason: Option<string>, suspensionDate: Option<int>, canSelfReactivate: bool)

  /**
   * `get_account_status`: the flags as stored; the suspension reason and date only while the
   * account is suspended; self-reactivation is offered only to a self-deactivated account that
   * no administrator suspended.
   */
  function GetAccountStatus(c: Cuenta): (s: AccountStatus)
    ensures s.canSelfReactivate <==> c.selfDeactivated && !c.adminSuspended
    ensures !c.adminSuspended ==> s.suspensionReason.None? && s.suspensionDate.None?
    ensures c.adminSuspended ==> s.suspensionReason == c.suspensionReason && s.suspensionDate == c.suspensionDate
    ensures s.isActive == c.isActive && s.selfDeactivated == c.selfDeactivated && s.adminSuspended == c.adminSuspended
  {
    AccountStatus(c.isActive, c.selfDeactivated, c.adminSuspended,
                  if c.adminSuspended then c.suspensionReason else None,
                  if c.adminSuspended then c.suspensionDate else None,
                  c.selfDeactivated && !c.adminSuspended)
  }

  // ----- self_reactivate_account: the code as written and the intended check -----

  /**
   * The decision of `self_reactivate_account` as written, once the user is found: a wrong
   * password is 401; an account that is not self-deactivated is 403 when suspended and 400
   * otherwise; a self-deactivated account is reactivated whether or not it is also suspended.
   */
  function SelfReactivateAsWritten(c: Cuenta, password: string): (r: Result<Cuenta, int>)
    ensures r.Ok? <==> CheckPassword(Some(password), c.password) && c.selfDeactivated
    ensures r.Ok? ==> r.value == Reactivate(c)
  {
    if !CheckPassword(Some(password), c.password) then Err(401)
    else if !c.selfDeactivated then (if c.adminSuspended then Err(403) else Err(400))
    else Ok(Reactivate(c))
  }

  /**
   * The decision the account flow promises (`can_self_reactivate`): a suspended account is 403
   * whatever else holds, so only a self-deactivated, unsuspended account is reactivated.
   */
  function SelfReactivateDecision(c: Cuenta, password: string): (r: Result<Cuenta, int>)
    ensures r.Ok? <==> CheckPassword(Some(password), c.password) && GetAccountStatus(c).canSelfReactivate
    ensures r.Ok? ==> r.value == Reactivate(c) && !r.value.adminSuspended
    ensures CheckPassword(Some(password), c.password) && c.adminSuspended ==> r == Err(403)
  {
    if !CheckPassword(Some(password), c.password) then Err(401)
    else if c.adminSuspended then Err(403)
    else if !c.selfDeactivated then Err(400)
    else Ok(Reactivate(c))
  }

  /**
   * The code as written lets a user whom an administrator suspended after they had deactivated
   * their own account reactivate it: the result is active while still marked suspended.
   */
  lemma AsWrittenReactivatesSuspended(c: Cuenta, password: string, reason: Razon, now: int)
    requires !c.adminSuspended && CheckPassword(Some(password), c.password)
    ensures var s := Suspend(Deactivate(c), reason, now);
      && !GetAccountStatus(s).canSelfReactivate
      && var r := SelfReactivateAsWritten(s, password);
         r.Ok? && r.value.isActive && r.value.adminSuspended
  {
  }

  /** With the intended check, the same sequence is refused with 403. */
  lemma DecisionRefusesSuspended(c: Cuenta, password: string, reason: Razon, now: int)
    requires CheckPassword(Some(password), c.password)
    ensures SelfReactivateDecision(Suspend(Deactivate(c), reason, now), password) == Err(403)
  {
  }

  /** The two decisions differ only on self-deactivated accounts that are also suspended. */
  lemma DecisionsAgreeUnlessSuspended(c: Cuenta, password: string)
    requires !(c.selfDeactivated && c.adminSuspended)
    ensures SelfReactivateDecision(c, password) == SelfReactivateAsWritten(c, password)
  {
  }

  // ----- round trips between the flags -----

  /** Deactivating and then reactivating one's own account gives back an active account. */
  lemma DeactivateThenReactivate(c: Cuenta, password: string)
    requires !c.adminSuspended && CheckPassword(Some(password), c.password)
    ensures SelfReactivateDecision(Deactivate(c), password) == Ok(c.(selfDeactivated := false, isActive := true))
    ensures GetAccountStatus(Deactivate(c)).canSelfReactivate
  {
  }

  /** An administrator's reactivation clears every trace of a suspension and a deactivation. */
  lemma AdminReactivateClears(c: Cuenta, reason: Razon, now: int)
    ensures var s := GetAccountStatus(AdminReactivate(Suspend(c, reason, now)));
      s == AccountStatus(true, false, false, None, None, false)
  {
  }

  /**
   * A suspension shows in the account status: the reason as the request gave it (the default
   * text for an absent key, none for `null`), the time, and no self-reactivation.
   */
  lemma SuspensionVisible(c: Cuenta, reason: Razon, now: int)
    ensures var s := GetAccountStatus(Suspend(c, reason, now));
      && s.adminSuspended && !s.isActive && !s.canSelfReactivate && s.suspensionDate == Some(now)
      && (reason.Ausente? ==> s.suspensionReason == Some("Sin razón especificada"))
      && (reason.Nula? ==> s.suspensionReason.None?)
      && (reason.Texto? ==> s.suspensionReason == Some(reason.texto))
  {
  }

  // ----- the views, on the user table -----

  /** `user.save()` on a stored row whose email and password are unchanged. */
  method Store(db: UsuarioDb, k: int, c: Cuenta)
    requires db.Valid() && k in db.rows
    requires c.pk == Some(k) && c.email == db.rows[k].email && c.password == db.rows[k].password
    modifies db
    ensures db.Valid()
    ensures db.rows == old(db.rows)[k := c] && db.historial == old(db.historial)
  {
    var r := db.Save(c);
    assert r.Ok?;
  }

  /**
   * `self_deactivate_account` under `IsAuthenticated`: an anonymous request is 401; for the
   * signed-in user `uid`, refused (403) while suspended, otherwise deactivated.
   */
  method SelfDeactivate(db: UsuarioDb, uid: Option<int>) returns (status: int)
    requires db.Valid() && (uid.Some? ==> uid.value in db.rows)
    modifies db
    ensures db.Valid() && db.historial == old(db.historial)
    ensures uid.None? ==> status == 401 && db.rows == old(db.rows)
    ensures uid.Some? && old(db.rows[uid.value].adminSuspended) ==> status == 403 && db.rows == old(db.rows)
    ensures uid.Some? && !old(db.rows[uid.value].adminSuspended) ==>
      status == 200 && db.rows == old(db.rows)[uid.value := Deactivate(old(db.rows[uid.value]))]
  {
    if uid.None? {
      return 401;
    }
    var user := db.rows[uid.value];
    if user.adminSuspended {
      return 403;
    }
    Store(db, uid.value, Deactivate(user));
    return 200;
  }

  /**
   * `self_reactivate_account`, with the suspension check of `SelfReactivateDecision`: a missing
   * email or password is 400, an unknown email 404; otherwise the one row with that email
   * decides: 200 and that row reactivated when the decision allows it, else the decision's own
   * status (401, 403 or 400).
   */
  method SelfReactivate(db: UsuarioDb, email: Option<string>, password: Option<string>) returns (status: int)
    requires db.Valid()
    modifies db
    ensures db.Valid() && db.historial == old(db.historial)
    ensures email.None? || email == Some("") || password.None? || password == Some("") ==>
      status == 400 && db.rows == old(db.rows)
    ensures status == 404 <==>
      (&& email.Some? && email != Some("") && password.Some? && password != Some("")
       && forall k :: k in old(db.rows) ==> old(db.rows[k].email) != email.value)
    ensures status == 200 ==>
      exists k ::
        && k in old(db.rows) && old(db.rows[k]).email == email.value
        && SelfReactivateDecision(old(db.rows[k]), password.value).Ok?
        && db.rows == old(db.rows)[k := Reactivate(old(db.rows[k]))]
    ensures status != 200 ==> db.rows == old(db.rows)
    ensures forall k ::
      && email.Some? && email != Some("") && password.Some? && password != Some("")
      && k in old(db.rows) && old(db.rows[k]).email == email.value ==>
        var d := SelfReactivateDecision(old(db.rows[k]), password.value);
        status == (if d.Ok? then 200 else d.error)
  {
    if email.None? || email == Some("") || password.None? || password == Some("") {
      return 400;
    }
    if k :| k in db.rows && db.rows[k].email == email.value {
      var decision := SelfReactivateDecision(db.rows[k], password.value);
      if decision.Err? {
        return decision.error;
      }
      Store(db, k, decision.value);
      return 200;
    }
    return 404;
  }

  /**
   * `IsAdminUser` before the handler: an anonymous request is 401 (the JWT authentication
   * supplies a challenge), a signed-in user who is not staff 403.
   */
  function RechazoAdmin(rows: map<int, Cuenta>, u: Option<int>): (r: Option<int>)
    requires u.Some? ==> u.value in rows
    ensures r.None? <==> u.Some? && rows[u.value].isStaff
    ensures r == Some(401) <==> u.None?
    ensures r.Some? ==> r.value in {401, 403}
  {
    if u.None? then Some(401) else if !rows[u.value].isStaff then Some(403) else None
  }

  /**
   * `admin_suspend_user` (`IsAdminUser`): an unknown id is 404, another administrator cannot be
   * suspended (403), otherwise the account is suspended with the reason as `RazonGuardada` reads
   * it and the current time.
   */
  method AdminSuspendUser(db: UsuarioDb, u: Option<int>, userId: int, reason: Razon, now: int)
    returns (status: int)
    requires db.Valid() && (u.Some? ==> u.value in db.rows)
    modifies db
    ensures db.Valid() && db.historial == old(db.historial)
    ensures RechazoAdmin(old(db.rows), u).Some? ==> status == RechazoAdmin(old(db.rows), u).value
    ensures RechazoAdmin(old(db.rows), u).None? && userId !in old(db.rows) ==> status == 404
    ensures RechazoAdmin(old(db.rows), u).None? && userId in old(db.rows) && old(db.rows[userId].rol) == "admin" ==>
      status == 403
    ensures status == 200 <==>
      RechazoAdmin(old(db.rows), u).None? && userId in old(db.rows) && old(db.rows[userId].rol) != "admin"
    ensures status == 200 ==> db.rows == old(db.rows)[userId := Suspend(old(db.rows[userId]), reason, now)]
    ensures status != 200 ==> db.rows == old(db.rows)
  {
    var rechazo := RechazoAdmin(db.rows, u);
    if rechazo.Some? {
      return rechazo.value;
    }
    if userId !in db.rows {
      return 404;
    }
    var user := db.rows[userId];
    if user.rol == "admin" {
      return 403;
    }
    Store(db, userId, Suspend(user, reason, now));
    return 200;
  }

  /** `admin_reactivate_user` (`IsAdminUser`): 404 for an unknown id, else every flag cleared. */
  method AdminReactivateUser(db: UsuarioDb, u: Option<int>, userId: int) returns (status: int)
    requires db.Valid() && (u.Some? ==> u.value in db.rows)
    modifies db
    ensures db.Valid() && db.historial == old(db.historial)
    ensures RechazoAdmin(old(db.rows), u).Some? ==> status == RechazoAdmin(old(db.rows), u).value
    ensures status == 200 <==> RechazoAdmin(old(db.rows), u).None? && userId in old(db.rows)
    ensures RechazoAdmin(old(db.rows), u).None? && userId !in old(db.rows) ==> status == 404
    ensures status == 200 ==> db.rows == old(db.rows)[userId := AdminReactivate(old(db.rows[userId]))]
    ensures status != 200 ==> db.rows == old(db.rows)
  {
    var rechazo := RechazoAdmin(db.rows, u);
    if rechazo.Some? {
      return rechazo.value;
    }
    if userId !in db.rows {
      return 404;
    }
    Store(db, userId, AdminReactivate(db.rows[userId]));
    return 200;
  }
}
