/**
 * The user table of backend/apps/usuarios/models.py: the custom manager's `create_user` and
 * `create_superuser`, and the password history kept by `set_password` and `save`.
 */
module Usuarios {
  import opened Wrappers
  import Text

  /**
   * A stored password. `Empty` is the blank column of a user whose password was never set,
   * `Unusable` the marker `make_password(None)` writes, `Hashed(raw)` the hash of `raw`; hashing
   * is modelled as the identity on the raw text, so `check_password` is equality.
   */
  datatype Hash = Empty | Unusable | Hashed(raw: string)

  /** `check_password(raw, h)`: only a usable hash of exactly that text matches. */
  predicate CheckPassword(raw: Option<string>, h: Hash)
  {
    raw.Some? && h == Hashed(raw.value)
  }

  /** `make_password(raw)`: `None` gives an unusable password. */
  function MakePassword(raw: Option<string>): (h: Hash)
    ensures h != Empty
    ensures forall t :: CheckPassword(Some(t), h) <==> raw == Some(t)
  {
    if raw.None? then Unusable else Hashed(raw.value)
  }

  /** One row of the user table, with the account flags the account views read and write. */
  datatype Cuenta = Cuenta(
    pk: Option<int>,
    email: string,
    nombre: string,
    rol: string,
    estado: bool,
    isStaff: bool,
    isSuperuser: bool,
    isActive: bool,
    password: Hash,
    selfDeactivated: bool,
    adminSuspended: bool,
    suspensionReason: Option<string>,
    suspensionDate: Option<int>)

  const Roles: seq<string> := ["admin", "comprador", "proveedor", "logistica", "cliente"]

  /** A `PasswordHistory` row: the user it belongs to and the hash that user once had. */
  datatype PasswordHistory = PasswordHistory(usuario: int, hash: Hash)

  /** The keyword arguments `create_user` passes on to the model; `None` leaves the field default. */
  datatype Extra = Extra(rol: Option<string>, isStaff: Option<bool>, isSuperuser: Option<bool>)

  datatype CreateError = SinEmail | SinNombre | EmailDuplicado
  datatype SaveError = EmailRepetido
  datatype PasswordError = PasswordReutilizada

  /** Has the user with primary key `pk` had a password that matches `raw`? */
  predicate UsedBefore(hist: seq<PasswordHistory>, pk: int, raw: Option<string>)
  {
    exists i :: 0 <= i < |hist| && hist[i].usuario == pk && CheckPassword(raw, hist[i].hash)
  }

  /**
   * `BaseUserManager.normalize_email`: the part after the last `@` of the stripped address is
   * lower-cased; an address without `@` is returned as given.
   */
  function NormalizeEmail(email: string): string
  {
    var t := Text.Trim(email, Text.Python);
    var k := LastAt(t);
    if k < 0 then email else t[..k] + "@" + Text.ToLower(t[k + 1..])
  }

  /** Index of the last `@` in `s`, or -1. */
  function LastAt(s: string): (k: int)
    ensures -1 <= k < |s|
    ensures k >= 0 ==> s[k] == '@'
    ensures forall i :: k < i < |s| ==> s[i] != '@'
  {
    if s == [] then -1
    else if s[|s| - 1] == '@' then |s| - 1
    else LastAt(s[..|s| - 1])
  }

  /** An address without `@` is stored exactly as typed, surrounding blanks included. */
  lemma NormalizeWithoutAt(email: string)
    requires forall i :: 0 <= i < |email| ==> email[i] != '@'
    ensures NormalizeEmail(email) == email
  {
    TrimWithoutAt(email);
  }

  lemma TrimWithoutAt(s: string)
    requires forall i :: 0 <= i < |s| ==> s[i] != '@'
    ensures forall i :: 0 <= i < |Text.Trim(s, Text.Python)| ==> Text.Trim(s, Text.Python)[i] != '@'
  {
    TrimStartSuffix(s);
    TrimEndPrefix(Text.TrimStart(s, Text.Python));
  }

  lemma {:induction false} TrimStartSuffix(s: string)
    ensures |Text.TrimStart(s, Text.Python)| <= |s| && Text.TrimStart(s, Text.Python) == s[|s| - |Text.TrimStart(s, Text.Python)|..]
  {
    if s != [] && Text.IsSpace(s[0], Text.Python) {
      TrimStartSuffix(s[1..]);
    }
  }

  lemma {:induction false} TrimEndPrefix(s: string)
    ensures |Text.TrimEnd(s, Text.Python)| <= |s| && Text.TrimEnd(s, Text.Python) == s[..|Text.TrimEnd(s, Text.Python)|]
  {
    if s != [] && Text.IsSpace(s[|s| - 1], Text.Python) {
      TrimEndPrefix(s[..|s| - 1]);
    }
  }

  /**
   * The table of users and the table of old passwords. `rows` maps a primary key to the stored
   * row; `historial` lists the `PasswordHistory` rows in the order they were created.
   */
  class UsuarioDb {
    var rows: map<int, Cuenta>
    var historial: seq<PasswordHistory>
    var nextPk: int

    ghost predicate Valid()
      reads this
    {
      ValidTables(rows, historial, nextPk)
    }

    constructor ()
      ensures Valid() && rows == map[] && historial == []
    {
      rows := map[];
      historial := [];
      nextPk := 1;
    }

    /** Some other row than `pk` already holds `email` (the unique constraint on `email`). */
    predicate EmailTaken(email: string, pk: Option<int>)
      reads this
    {
      exists k :: k in rows && rows[k].email == email && pk != Some(k)
    }

    /**
     * `Usuario.set_password`: a user already saved may not take a password that matches any of
     * its history rows; otherwise the instance gets the new hash. Nothing is written.
     */
    method SetPassword(u: Cuenta, raw: Option<string>) returns (r: Result<Cuenta, PasswordError>)
      ensures r.Err? <==> u.pk.Some? && UsedBefore(historial, u.pk.value, raw)
      ensures r.Ok? ==> r.value == u.(password := MakePassword(raw))
    {
      if u.pk.Some? {
        var i := 0;
        while i < |historial|
          invariant 0 <= i <= |historial|
          invariant forall j :: 0 <= j < i ==> !(historial[j].usuario == u.pk.value && CheckPassword(raw, historial[j].hash))
        {
          if historial[i].usuario == u.pk.value && CheckPassword(raw, historial[i].hash) {
            return Err(PasswordReutilizada);
          }
          i := i + 1;
        }
      }
      return Ok(u.(password := MakePassword(raw)));
    }

    /**
     * `Usuario.save`: writes the row (a new key for an instance never saved), refusing an email
     * another row holds. When the password differs from the stored one, or there was no stored
     * row, and it is not blank, a history row records it.
     */
    method Save(u: Cuenta) returns (r: Result<Cuenta, SaveError>)
      requires Valid()
      modifies this
      ensures Valid()
      ensures r.Err? <==> old(EmailTaken(u.email, u.pk))
      ensures r.Err? ==> rows == old(rows) && historial == old(historial) && nextPk == old(nextPk)
      ensures r.Ok? ==> r.value.pk.Some? && r.value == u.(pk := r.value.pk)
      ensures r.Ok? && u.pk.Some? ==> r.value.pk == u.pk
      ensures r.Ok? && u.pk.None? ==> r.value.pk == Some(old(nextPk)) && old(nextPk) !in old(rows)
      ensures r.Ok? ==> rows == old(rows)[r.value.pk.value := r.value]
      ensures r.Ok? ==> historial == old(historial) + HistoryEntry(old(rows), u, r.value.pk.value)
    {
      if EmailTaken(u.email, u.pk) {
        return Err(EmailRepetido);
      }
      var pk := if u.pk.Some? then u.pk.value else nextPk;
      var saved := u.(pk := Some(pk));
      assert forall k :: k in rows && rows[k].email == u.email ==> u.pk == Some(k);
      assert u.pk.None? ==> pk !in rows;
      SaveKeepsValid(rows, historial, nextPk, u, pk);
      rows, historial, nextPk :=
        rows[pk := saved], historial + HistoryEntry(rows, u, pk), if pk >= nextPk then pk + 1 else nextPk;
      return Ok(saved);
    }

    /**
     * `UsuarioManager.create_user`: a blank email or name is refused; the email is normalized,
     * the remaining fields take the model defaults (role `cliente`, active), the password is set
     * and the row saved, which records the first history row.
     */
    method CreateUser(email: string, nombre: string, password: Option<string>, extra: Extra)
      returns (r: Result<Cuenta, CreateError>)
      requires Valid()
      modifies this
      ensures Valid()
      ensures email == [] ==> r == Err(SinEmail)
      ensures email != [] && nombre == [] ==> r == Err(SinNombre)
      ensures email != [] && nombre != [] ==> (r.Ok? <==> !old(EmailTaken(NormalizeEmail(email), None)))
      ensures email != [] && nombre != [] && r.Err? ==> r == Err(EmailDuplicado)
      ensures r.Err? ==> rows == old(rows) && historial == old(historial)
      ensures r.Ok? ==> r.value.pk == Some(old(nextPk)) && rows == old(rows)[old(nextPk) := r.value]
      ensures r.Ok? ==> r.value == NewCuenta(NormalizeEmail(email), nombre, password, extra).(pk := Some(old(nextPk)))
      ensures r.Ok? ==> historial == old(historial) + [PasswordHistory(old(nextPk), MakePassword(password))]
    {
      if email == [] {
        return Err(SinEmail);
      }
      if nombre == [] {
        return Err(SinNombre);
      }
      var u := NewCuenta(NormalizeEmail(email), nombre, None, extra);
      var withPassword := SetPassword(u, password);
      assert withPassword.Ok?;
      var saved := Save(withPassword.value);
      if saved.Err? {
        return Err(EmailDuplicado);
      }
      return Ok(saved.value);
    }

    /** `create_superuser`: `create_user` with role `admin`, staff and superuser unless given. */
    method CreateSuperuser(email: string, nombre: string, password: Option<string>, extra: Extra)
      returns (r: Result<Cuenta, CreateError>)
      requires Valid()
      modifies this
      ensures Valid()
      ensures email == [] ==> r == Err(SinEmail)
      ensures email != [] && nombre == [] ==> r == Err(SinNombre)
      ensures email != [] && nombre != [] ==> (r.Ok? <==> !old(EmailTaken(NormalizeEmail(email), None)))
      ensures email != [] && nombre != [] && r.Err? ==> r == Err(EmailDuplicado)
      ensures r.Ok? ==> r.value == NewCuenta(NormalizeEmail(email), nombre, password, SuperDefaults(extra)).(pk := Some(old(nextPk)))
      ensures r.Ok? ==> rows == old(rows)[old(nextPk) := r.value]
      ensures r.Ok? ==> historial == old(historial) + [PasswordHistory(old(nextPk), MakePassword(password))]
      ensures r.Err? ==> rows == old(rows) && historial == old(historial)
    {
      r := CreateUser(email, nombre, password, SuperDefaults(extra));
    }

    /**
     * The sequence the reuse rule exists for: `set_password(raw)`, `save()`, then
     * `set_password(raw)` again on the saved instance. The second request is refused exactly
     * when the save wrote the password, that is when it was new for that row.
     */
    method CambiarYRepetir(u: Cuenta, raw: string)
      returns (primero: Result<Cuenta, PasswordError>, guardado: Option<Result<Cuenta, SaveError>>,
               segundo: Option<Result<Cuenta, PasswordError>>)
      requires Valid()
      modifies this
      ensures Valid()
      ensures primero.Err? <==> u.pk.Some? && old(UsedBefore(historial, u.pk.value, Some(raw)))
      ensures primero.Err? ==> guardado.None? && segundo.None? && rows == old(rows) && historial == old(historial)
      ensures primero.Ok? ==> guardado.Some? && (guardado.value.Err? <==> old(EmailTaken(u.email, u.pk)))
      ensures guardado.Some? && guardado.value.Err? ==> segundo.None?
      ensures guardado.Some? && guardado.value.Ok? ==>
        segundo.Some? && (segundo.value.Err? <==> NewPassword(old(rows), primero.value))
    {
      guardado, segundo := None, None;
      primero := SetPassword(u, Some(raw));
      if primero.Err? {
        return;
      }
      var s := Save(primero.value);
      guardado := Some(s);
      if s.Err? {
        return;
      }
      var pk := s.value.pk.value;
      if NewPassword(old(rows), primero.value) {
        SavedPasswordIsUsed(old(historial), pk, raw);
      } else {
        assert historial == old(historial) && pk == u.pk.value;
      }
      var t := SetPassword(s.value, Some(raw));
      segundo := Some(t);
    }
  }

  ghost predicate ValidTables(rows: map<int, Cuenta>, historial: seq<PasswordHistory>, nextPk: int)
  {
    && (forall k :: k in rows ==> rows[k].pk == Some(k) && k < nextPk)
    && (forall j, k :: j in rows && k in rows && rows[j].email == rows[k].email ==> j == k)
    && (forall i :: 0 <= i < |historial| ==> historial[i].usuario in rows)
  }

  lemma SaveKeepsValid(rows: map<int, Cuenta>, historial: seq<PasswordHistory>, nextPk: int, u: Cuenta, pk: int)
    requires ValidTables(rows, historial, nextPk)
    requires u.pk.Some? ==> pk == u.pk.value
    requires u.pk.None? ==> pk == nextPk
    requires forall k :: k in rows && rows[k].email == u.email ==> u.pk == Some(k)
    ensures ValidTables(rows[pk := u.(pk := Some(pk))], historial + HistoryEntry(rows, u, pk),
                        if pk >= nextPk then pk + 1 else nextPk)
  {
  }

  /** The history row `save` adds: one for a new, non-blank password, none otherwise. */
  function HistoryEntry(rows: map<int, Cuenta>, u: Cuenta, pk: int): seq<PasswordHistory>
  {
    if NewPassword(rows, u) && u.password != Empty then [PasswordHistory(pk, u.password)] else []
  }

  /** The new password differs from the stored row's, or there is no stored row. */
  predicate NewPassword(rows: map<int, Cuenta>, u: Cuenta)
  {
    u.pk.None? || u.pk.value !in rows || rows[u.pk.value].password != u.password
  }

  /** An unsaved instance with the model's field defaults. */
  function NewCuenta(email: string, nombre: string, password: Option<string>, extra: Extra): (c: Cuenta)
    ensures c.pk.None? && c.isActive && c.estado && !c.selfDeactivated && !c.adminSuspended
    ensures c.rol == extra.rol.GetOr("cliente")
  {
    Cuenta(None, email, nombre, extra.rol.GetOr("cliente"), true,
           extra.isStaff.GetOr(false), extra.isSuperuser.GetOr(false), true,
           MakePassword(password), false, false, None, None)
  }

  /** `extra_fields.setdefault(...)`: values the caller gave win. */
  function SuperDefaults(extra: Extra): (e: Extra)
    ensures e.rol == Some(extra.rol.GetOr("admin"))
    ensures e.isStaff == Some(extra.isStaff.GetOr(true)) && e.isSuperuser == Some(extra.isSuperuser.GetOr(true))
  {
    Extra(Some(extra.rol.GetOr("admin")), Some(extra.isStaff.GetOr(true)), Some(extra.isSuperuser.GetOr(true)))
  }

  /**
   * Once a password has been saved for a user it is in that user's history, so asking for it
   * again is refused by `set_password`.
   */
  lemma SavedPasswordIsUsed(hist: seq<PasswordHistory>, pk: int, raw: string)
    ensures UsedBefore(hist + [PasswordHistory(pk, Hashed(raw))], pk, Some(raw))
  {
    var h := hist + [PasswordHistory(pk, Hashed(raw))];
    assert h[|hist|].usuario == pk && CheckPassword(Some(raw), h[|hist|].hash);
  }

  /** History rows are never removed, so a password once refused stays refused. */
  lemma UsedBeforeMonotone(hist: seq<PasswordHistory>, more: seq<PasswordHistory>, pk: int, raw: Option<string>)
    requires UsedBefore(hist, pk, raw)
    ensures UsedBefore(hist + more, pk, raw)
  {
    var i :| 0 <= i < |hist| && hist[i].usuario == pk && CheckPassword(raw, hist[i].hash);
    assert (hist + more)[i] == hist[i];
  }

  /** An unusable password (`set_password(None)`) never blocks a later choice. */
  lemma UnusableNeverBlocks(hist: seq<PasswordHistory>, pk: int, raw: Option<string>)
    requires UsedBefore(hist + [PasswordHistory(pk, Unusable)], pk, raw)
    ensures UsedBefore(hist, pk, raw)
  {
    var h := hist + [PasswordHistory(pk, Unusable)];
    var i :| 0 <= i < |h| && h[i].usuario == pk && CheckPassword(raw, h[i].hash);
    assert i < |hist|;
    assert h[i] == hist[i];
  }
}
