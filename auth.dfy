/**
 * The upload-authorization dependencies of apps/admin/dependencies.py: who
 * may call an admin route or a share (upload) route, as allow / 401 / 403.
 */
module Auth {
  import opened Wrappers
  import opened Text
  import opened Json
  import opened Token

  /** The two settings the decisions read: `settings.openUpload` and `settings.admin_token`. */
  datatype Settings = Settings(openUpload: bool, adminToken: string)

  /** The value a dependency returns, or the HTTPException status it raises. */
  datatype Decision = Allow(value: Json) | Deny401 | Deny403

  /** A request as the share dependencies see it: its headers and its form fields in order. */
  datatype HttpRequest = HttpRequest(headers: map<string, string>, form: seq<(string, string)>)

  const AuthorizationHeader := "Authorization"
  const PasswordHeader := "X-Admin-Password"
  const PasswordField := "password"

  /** The prefix of a bearer `Authorization` header. */
  const BearerPrefix := "Bearer "

  /** A header, or None when the request does not carry it (`Header(default=None)`). */
  function HeaderValue(headers: map<string, string>, name: string): (v: Option<string>)
    ensures v.None? <==> name !in headers
    ensures v.Some? ==> v.value == headers[name]
  {
    if name in headers then Some(headers[name]) else None
  }

  /** The value of the last form field with this name, or None when there is none (Starlette's form lookup). */
  function LastField(form: seq<(string, string)>, name: string): (v: Option<string>)
    ensures v.None? <==> forall i :: 0 <= i < |form| ==> form[i].0 != name
    ensures v.Some? ==>
      exists i :: 0 <= i < |form| && form[i] == (name, v.value) && (forall j :: i < j < |form| ==> form[j].0 != name)
    decreases |form|
  {
    if |form| == 0 then None
    else if form[|form| - 1].0 == name then Some(form[|form| - 1].1)
    else LastField(form[..|form| - 1], name)
  }

  /**
   * A form parameter declared `Form(default=None)`: the last field with the
   * name, except that a missing field and an empty one both give the default.
   */
  function FormValue(form: seq<(string, string)>, name: string): (v: Option<string>)
    ensures v.None? <==> LastField(form, name).None? || LastField(form, name) == Some("")
    ensures v.Some? ==> v == LastField(form, name) && v.value != ""
  {
    match LastField(form, name)
    case Some(x) => if x == "" then None else Some(x)
    case None => None
  }

  /** Appending a field makes it the one the server reads, unless it is empty. */
  lemma FormValueOfAppended(form: seq<(string, string)>, name: string, value: string)
    ensures FormValue(form + [(name, value)], name) == if value == "" then None else Some(value)
  {
  }

  /**
   * The token of an `Authorization: Bearer <token>` header: present exactly
   * when the header starts with "Bearer ", and then the text after that prefix
   * up to the next space (`authorization.split(" ")[1]`).
   */
  function BearerToken(authorization: Option<string>): (t: Option<string>)
    ensures t.Some? <==> authorization.Some? && StartsWith(authorization.value, BearerPrefix)
    ensures t.Some? ==> t.value == Split(authorization.value[|BearerPrefix|..], ' ')[0]
  {
    if authorization.None? || authorization.value == "" || !StartsWith(authorization.value, BearerPrefix) then None
    else
      var h := authorization.value;
      assert h == "Bearer" + [' '] + h[|BearerPrefix|..];
      SplitAfterPiece("Bearer", ' ', h[|BearerPrefix|..]);
      Some(Split(h, ' ')[1])
  }

  /**
   * The `is_admin` claim of a verified bearer token, and `False` when the
   * header is missing, is not a bearer header, or its token fails
   * verification: a token failure never escapes as an error.
   */
  function AdminClaim(c: Crypto, s: Settings, authorization: Option<string>, now: real): (claim: Json)
    ensures BearerToken(authorization).None? ==> claim == Bool(false)
    ensures BearerToken(authorization).Some? && VerifyToken(c, s.adminToken, BearerToken(authorization).value, now).Err?
      ==> claim == Bool(false)
    ensures BearerToken(authorization).Some? && VerifyToken(c, s.adminToken, BearerToken(authorization).value, now).Ok?
      ==> claim == Get(VerifyToken(c, s.adminToken, BearerToken(authorization).value, now).value, "is_admin", Bool(false))
    ensures claim != Bool(false) ==>
      && BearerToken(authorization).Some?
      && VerifyToken(c, s.adminToken, BearerToken(authorization).value, now).Ok?
      && claim == Get(VerifyToken(c, s.adminToken, BearerToken(authorization).value, now).value, "is_admin", Bool(false))
  {
    match BearerToken(authorization)
    case None => Bool(false)
    case Some(token) =>
      match VerifyToken(c, s.adminToken, token, now)
      case Ok(claims) => Get(claims, "is_admin", Bool(false))
      case Err(_) => Bool(false)
  }

  /** The caller counts as admin when the claim is truthy. */
  predicate IsAdmin(c: Crypto, s: Settings, authorization: Option<string>, now: real)
    ensures IsAdmin(c, s, authorization, now) ==>
      BearerToken(authorization).Some? && VerifyToken(c, s.adminToken, BearerToken(authorization).value, now).Ok?
  {
    PyTruthy(AdminClaim(c, s, authorization, now))
  }

  /** Only the holder of a token signed with the admin token can be admin. */
  lemma AdminHoldsSignedToken(c: Crypto, s: Settings, authorization: Option<string>, now: real)
    requires IsAdmin(c, s, authorization, now)
    ensures BearerToken(authorization).Some? && SignedUnder(c, s.adminToken, BearerToken(authorization).value)
  {
    AcceptedTokenIsSigned(c, s.adminToken, BearerToken(authorization).value, now);
  }

  /**
   * Completeness: the bearer header of a token `create_token` made under the
   * admin token with `is_admin` true makes its holder admin exactly until the
   * token's expiry.
   */
  lemma CreatedAdminTokenIsAdmin(c: Crypto, s: Settings, expiresIn: int, created: real, now: real)
    requires Lawful(c)
    ensures var token := CreateToken(c, s.adminToken, map["is_admin" := Bool(true)], expiresIn, created);
      IsAdmin(c, s, Some(BearerPrefix + token), now) <==> now <= (Truncate(created) + expiresIn) as real
  {
    var data := map["is_admin" := Bool(true)];
    var token := CreateToken(c, s.adminToken, data, expiresIn, created);
    var h := BearerPrefix + token;
    assert h[..|BearerPrefix|] == BearerPrefix;
    assert h[|BearerPrefix|..] == token;
    CreatedTokenHasNoSpace(c, s.adminToken, data, expiresIn, created);
    SplitWithoutSeparator(token, ' ');
    CreateThenVerify(c, s.adminToken, data, expiresIn, created, now);
  }

  /**
   * `admin_required`: on a `/share/` path a non-admin is refused with 403
   * exactly when guest upload is off; on any other path a non-admin is
   * refused with 401. Otherwise the `is_admin` claim is returned.
   */
  function AdminRequired(c: Crypto, s: Settings, authorization: Option<string>, path: string, now: real): (d: Decision)
    ensures d.Allow? ==> d.value == AdminClaim(c, s, authorization, now)
    ensures StartsWith(path, "/share/") ==>
      d != Deny401 && (d == Deny403 <==> !s.openUpload && !IsAdmin(c, s, authorization, now))
    ensures !StartsWith(path, "/share/") ==>
      d != Deny403 && (d == Deny401 <==> !IsAdmin(c, s, authorization, now))
  {
    var isAdmin := AdminClaim(c, s, authorization, now);
    if StartsWith(path, "/share/") then
      if !s.openUpload && !PyTruthy(isAdmin) then Deny403 else Allow(isAdmin)
    else
      if !PyTruthy(isAdmin) then Deny401 else Allow(isAdmin)
  }

  /** A non-empty password (`if password:`). */
  predicate Supplied(password: Option<string>)
    ensures Supplied(password) <==> password.Some? && PyTruthy(Str(password.value))
  {
    password.Some? && password.value != ""
  }

  /**
   * `share_required_login`: with guest upload on, everyone is let through;
   * with it off, an admin token is let through, then a supplied password is
   * let through when it is the admin token and refused with 401 otherwise,
   * and without a password the upload is refused with 403.
   */
  function ShareRequiredLogin(c: Crypto, s: Settings, authorization: Option<string>, password: Option<string>, now: real): (d: Decision)
    ensures s.openUpload ==> d == Allow(Bool(true))
    ensures d.Allow? ==> d.value == Bool(true)
    ensures !s.openUpload ==>
      (d.Allow? <==> IsAdmin(c, s, authorization, now) || (Supplied(password) && password.value == s.adminToken))
    ensures d == Deny401 <==>
      !s.openUpload && !IsAdmin(c, s, authorization, now) && Supplied(password) && password.value != s.adminToken
    ensures d == Deny403 <==> !s.openUpload && !IsAdmin(c, s, authorization, now) && !Supplied(password)
  {
    if !s.openUpload then
      if IsAdmin(c, s, authorization, now) then Allow(Bool(true))
      else if Supplied(password) then
        if password.value == s.adminToken then Allow(Bool(true)) else Deny401
      else Deny403
    else Allow(Bool(true))
  }

  /** With guest upload off and an empty admin token, only an admin token gets through. */
  lemma EmptyAdminTokenAdmitsNoPassword(c: Crypto, s: Settings, authorization: Option<string>, password: Option<string>, now: real)
    requires !s.openUpload && s.adminToken == ""
    ensures ShareRequiredLogin(c, s, authorization, password, now).Allow? <==> IsAdmin(c, s, authorization, now)
  {
  }

  /**
   * `share_upload_required`: with guest upload off, a non-admin gets through
   * exactly when the last `password` form field is the (non-empty) admin
   * token, and is refused with 403 when the form has no `password` field or
   * an empty one.
   */
  function ShareUploadRequired(c: Crypto, s: Settings, req: HttpRequest, now: real): (d: Decision)
    ensures d == ShareRequiredLogin(c, s, HeaderValue(req.headers, AuthorizationHeader), FormValue(req.form, PasswordField), now)
    ensures var auth := HeaderValue(req.headers, AuthorizationHeader);
      !s.openUpload && !IsAdmin(c, s, auth, now) ==>
        (d.Allow? <==> FormValue(req.form, PasswordField) == Some(s.adminToken) && s.adminToken != "")
    ensures var auth := HeaderValue(req.headers, AuthorizationHeader);
      (!s.openUpload && !IsAdmin(c, s, auth, now) && forall i :: 0 <= i < |req.form| ==> req.form[i].0 != PasswordField)
      ==> d == Deny403
    ensures var auth := HeaderValue(req.headers, AuthorizationHeader);
      (!s.openUpload && !IsAdmin(c, s, auth, now) && LastField(req.form, PasswordField) == Some("")) ==> d == Deny403
  {
    ShareRequiredLogin(c, s, HeaderValue(req.headers, AuthorizationHeader), FormValue(req.form, PasswordField), now)
  }

  /**
   * Turning an empty form field into the default decides nothing: the
   * dependency decides the same on the raw last field, since an empty
   * password counts as not supplied either way.
   */
  lemma FormDefaultDecidesAsLastField(c: Crypto, s: Settings, authorization: Option<string>,
                                      form: seq<(string, string)>, now: real)
    ensures ShareRequiredLogin(c, s, authorization, FormValue(form, PasswordField), now)
         == ShareRequiredLogin(c, s, authorization, LastField(form, PasswordField), now)
  {
  }

  /**
   * `share_chunk_required`: with guest upload off, a non-admin gets through
   * exactly when the `X-Admin-Password` header is the (non-empty) admin
   * token, and is refused with 403 when the header is absent.
   */
  function ShareChunkRequired(c: Crypto, s: Settings, req: HttpRequest, now: real): (d: Decision)
    ensures d == ShareRequiredLogin(c, s, HeaderValue(req.headers, AuthorizationHeader), HeaderValue(req.headers, PasswordHeader), now)
    ensures var auth := HeaderValue(req.headers, AuthorizationHeader);
      !s.openUpload && !IsAdmin(c, s, auth, now) ==>
        (d.Allow? <==> PasswordHeader in req.headers && req.headers[PasswordHeader] == s.adminToken && s.adminToken != "")
    ensures var auth := HeaderValue(req.headers, AuthorizationHeader);
      !s.openUpload && !IsAdmin(c, s, auth, now) && PasswordHeader !in req.headers ==> d == Deny403
  {
    ShareRequiredLogin(c, s, HeaderValue(req.headers, AuthorizationHeader), HeaderValue(req.headers, PasswordHeader), now)
  }

  /**
   * Each upload dependency reads the password from its own channel only: the
   * form upload ignores the password header, the chunk upload ignores the form.
   */
  lemma PasswordChannelsAreSeparate(c: Crypto, s: Settings, req: HttpRequest, now: real, header: string, form: seq<(string, string)>)
    ensures ShareUploadRequired(c, s, req.(headers := req.headers[PasswordHeader := header]), now) == ShareUploadRequired(c, s, req, now)
    ensures ShareChunkRequired(c, s, req.(form := form), now) == ShareChunkRequired(c, s, req, now)
  {
    assert HeaderValue(req.headers[PasswordHeader := header], AuthorizationHeader) == HeaderValue(req.headers, AuthorizationHeader);
  }
}
