/**
 * The browser scripts and the server dependencies together: the channel the
 * scripts pick for the credential (a header for `/chunk/` uploads, a form
 * field otherwise) is the one the matching server dependency reads, and the
 * status the dependency raises is the message the scripts show.
 */
module CrossLayer {
  import opened Wrappers
  import opened Json
  import opened Token
  import Auth
  import opened UploadClient

  /** The `Authorization` header of the options, which the scripts never touch, as the server reads it. */
  function AuthorizationOf(o: OptionsView): (a: Option<string>)
    ensures a.Some? <==> Auth.AuthorizationHeader in HeadersOrEmpty(o.headers)
    ensures a.Some? ==> a.value == NormalizeHeaderValue(HeadersOrEmpty(o.headers)[Auth.AuthorizationHeader])
  {
    match Auth.HeaderValue(HeadersOrEmpty(o.headers), Auth.AuthorizationHeader)
    case None => None
    case Some(value) => Some(NormalizeHeaderValue(value))
  }

  /**
   * The request the server receives for the options a script handed to
   * fetch, or None when fetch rejects their headers and sends nothing. The
   * form fields travel as they are; the headers as the browser transmits them.
   */
  function ServerRequest(o: OptionsView): (r: Option<Auth.HttpRequest>)
    ensures r.Some? <==> TransmittedHeaders(HeadersOrEmpty(o.headers)).Some?
    ensures r.Some? ==> r.value.form == (if o.form.Some? then o.form.value else [])
    ensures r.Some? ==> Some(r.value.headers) == TransmittedHeaders(HeadersOrEmpty(o.headers))
    ensures r.Some? ==> Auth.HeaderValue(r.value.headers, Auth.AuthorizationHeader) == AuthorizationOf(o)
  {
    match TransmittedHeaders(HeadersOrEmpty(o.headers))
    case None => None
    case Some(h) => Some(Auth.HttpRequest(h, if o.form.Some? then o.form.value else []))
  }

  /**
   * The status the client sees when the dependency decides `d` (a request the
   * dependency lets through is taken to succeed).
   */
  function StatusOf(d: Auth.Decision): (status: int)
    ensures IsOk(status) <==> d.Allow?
    ensures status == 401 <==> d == Auth.Deny401
    ensures status == 403 <==> d == Auth.Deny403
  {
    match d
    case Allow(_) => 200
    case Deny401 => 401
    case Deny403 => 403
  }

  /**
   * The reply a script's fetch gets for the options it sent to an upload URL:
   * a network error when fetch rejects the headers, and otherwise the status
   * of `share_chunk_required` for a chunk URL and of `share_upload_required`
   * for any other.
   */
  function UploadReply(c: Crypto, s: Auth.Settings, url: string, o: OptionsView, now: real): (reply: Reply)
    ensures reply == NetworkError <==> ServerRequest(o).None?
    ensures reply.Response? ==> reply.status == 200 || reply.status == 401 || reply.status == 403
    ensures reply.Response? && !IsChunkUrl(url) ==>
      reply.status == StatusOf(Auth.ShareUploadRequired(c, s, ServerRequest(o).value, now))
    ensures reply.Response? && IsChunkUrl(url) ==>
      reply.status == StatusOf(Auth.ShareChunkRequired(c, s, ServerRequest(o).value, now))
  {
    match ServerRequest(o)
    case None => NetworkError
    case Some(req) =>
      Response(StatusOf(if IsChunkUrl(url) then Auth.ShareChunkRequired(c, s, req, now) else Auth.ShareUploadRequired(c, s, req, now)))
  }

  /**
   * A chunk upload carrying the credential is sent exactly when the
   * credential and the page's other headers are header-safe, and then
   * reaches `share_chunk_required` with the credential as the browser
   * normalises it.
   */
  lemma ChunkCredentialReachesChunkCheck(v: Variant, url: string, password: string, o: OptionsView,
                                         c: Crypto, s: Auth.Settings, now: real)
    requires Attaches(v, true, password, url) && IsChunkUrl(url)
    ensures var sent := Attached(v, true, password, url, o);
      && AuthorizationOf(sent) == AuthorizationOf(o)
      && (ServerRequest(sent).Some? <==>
            HeaderSafe(password) && TransmittedHeaders(HeadersOrEmpty(o.headers) - {PasswordHeader}).Some?)
      && (ServerRequest(sent).Some? ==>
            Auth.ShareChunkRequired(c, s, ServerRequest(sent).value, now)
            == Auth.ShareRequiredLogin(c, s, AuthorizationOf(o), Some(NormalizeHeaderValue(password)), now))
  {
    var sent := Attached(v, true, password, url, o);
    var h := HeadersOrEmpty(o.headers);
    assert HeadersOrEmpty(sent.headers) == h[PasswordHeader := password];
    TransmittedHeadersOfUpdate(h, PasswordHeader, password);
  }

  /**
   * A simple upload with a FormData body is sent exactly when the page's
   * headers are header-safe, and then reaches `share_upload_required` with
   * exactly the credential.
   */
  lemma FormCredentialReachesFormCheck(v: Variant, url: string, password: string, o: OptionsView,
                                       c: Crypto, s: Auth.Settings, now: real)
    requires Attaches(v, true, password, url) && !IsChunkUrl(url) && o.form.Some?
    ensures var sent := Attached(v, true, password, url, o);
      && AuthorizationOf(sent) == AuthorizationOf(o)
      && (ServerRequest(sent).Some? <==> TransmittedHeaders(HeadersOrEmpty(o.headers)).Some?)
      && (ServerRequest(sent).Some? ==>
            Auth.ShareUploadRequired(c, s, ServerRequest(sent).value, now)
            == Auth.ShareRequiredLogin(c, s, AuthorizationOf(o), Some(password), now))
  {
    var sent := Attached(v, true, password, url, o);
    Auth.FormValueOfAppended(o.form.value, PasswordField, password);
    assert HeadersOrEmpty(sent.headers) == HeadersOrEmpty(o.headers);
  }

  /** The message the scripts show for each decision of a share dependency. */
  lemma MessageForDecision(d: Auth.Decision)
    ensures Feedback(Response(StatusOf(d))) == Some(match d
      case Allow(_) => UploadSucceeded
      case Deny401 => WrongPassword
      case Deny403 => Forbidden)
  {
  }

  /**
   * End to end, with guest upload off and no admin bearer token, for an
   * upload to which a script attached the credential. The server receives
   * the credential, normalised when it travels in the chunk header. When
   * fetch sends nothing the script shows the network-error message.
   * Otherwise the upload is let through exactly when the received credential
   * is the admin token, refused with 403 exactly when it normalised to
   * nothing (never for a form upload), and refused with 401 otherwise, and
   * the script shows the matching message.
   */
  lemma AttachedUploadOutcome(v: Variant, url: string, password: string, o: OptionsView,
                              c: Crypto, s: Auth.Settings, now: real)
    requires Attaches(v, true, password, url) && (IsChunkUrl(url) || o.form.Some?)
    requires !s.openUpload && !Auth.IsAdmin(c, s, AuthorizationOf(o), now)
    ensures var sent := Attached(v, true, password, url, o);
      var received := if IsChunkUrl(url) then NormalizeHeaderValue(password) else password;
      var reply := UploadReply(c, s, url, sent, now);
      && (reply == NetworkError <==>
            if IsChunkUrl(url) then !HeaderSafe(password) || TransmittedHeaders(HeadersOrEmpty(o.headers) - {PasswordHeader}).None?
            else TransmittedHeaders(HeadersOrEmpty(o.headers)).None?)
      && (reply != NetworkError ==>
            reply == Response(if received == "" then 403 else if received == s.adminToken then 200 else 401))
      && (!IsChunkUrl(url) ==> reply != Response(403))
      && Feedback(reply) == Some(if reply == NetworkError then NetworkFailure
                                 else if received == "" then Forbidden
                                 else if received == s.adminToken then UploadSucceeded
                                 else WrongPassword)
  {
    if IsChunkUrl(url) {
      ChunkCredentialReachesChunkCheck(v, url, password, o, c, s, now);
    } else {
      FormCredentialReachesFormCheck(v, url, password, o, c, s, now);
    }
  }

  /**
   * The add-on attaches its credential untrimmed, and only the header
   * channel strips it: with the admin token "pw", a typed " pw " passes a
   * chunk upload but is refused with 401 on a simple upload.
   */
  lemma AddonPaddedCredentialDependsOnChannel(chunkUrl: string, fileUrl: string, o: OptionsView,
                                              c: Crypto, s: Auth.Settings, now: real)
    requires IsUploadUrl(Addon, chunkUrl) && IsChunkUrl(chunkUrl)
    requires IsUploadUrl(Addon, fileUrl) && !IsChunkUrl(fileUrl) && o.form.Some?
    requires !s.openUpload && s.adminToken == "pw" && !Auth.IsAdmin(c, s, AuthorizationOf(o), now)
    requires TransmittedHeaders(HeadersOrEmpty(o.headers)).Some?
    ensures UploadReply(c, s, chunkUrl, Attached(Addon, true, " pw ", chunkUrl, o), now) == Response(200)
    ensures UploadReply(c, s, fileUrl, Attached(Addon, true, " pw ", fileUrl, o), now) == Response(401)
  {
    var padded := " pw ";
    PaddedCredentialNormalises();
    var h := HeadersOrEmpty(o.headers);
    TransmittedHeadersOfUpdate(h - {PasswordHeader}, PasswordHeader, "x");
    TransmittedHeadersOfUpdate(h, PasswordHeader, "x");
    AttachedUploadOutcome(Addon, chunkUrl, padded, o, c, s, now);
    AttachedUploadOutcome(Addon, fileUrl, padded, o, c, s, now);
  }

  /** The browser sends the credential " pw " as "pw" in a header. */
  lemma PaddedCredentialNormalises()
    ensures NormalizeHeaderValue(" pw ") == "pw" && HeaderSafe(" pw ")
  {
    var padded := " pw ";
    assert LeadingWhitespace(padded[1..]) == 0;
    assert LeadingWhitespace(padded) == 1;
    assert TrailingWhitespace(padded, 1, 3) == 3;
    assert TrailingWhitespace(padded, 1, 4) == 3;
    assert padded[1..3] == "pw";
    assert forall k :: 0 <= k < |padded| ==> padded[k] == ' ' || padded[k] == 'p' || padded[k] == 'w';
  }

  /**
   * Without a credential nothing is attached, so a form upload that carried
   * no `password` field of its own, or a chunk upload without its own
   * password header, is refused with 403 and the script shows the forbidden
   * message, unless fetch refused the page's headers.
   */
  lemma UploadWithoutCredentialIsForbidden(v: Variant, url: string, o: OptionsView,
                                           c: Crypto, s: Auth.Settings, now: real)
    requires IsUploadUrl(v, url) && o.form.Some?
    requires forall i :: 0 <= i < |o.form.value| ==> o.form.value[i].0 != PasswordField
    requires !s.openUpload && !Auth.IsAdmin(c, s, AuthorizationOf(o), now)
    ensures !(IsChunkUrl(url) && PasswordHeader in HeadersOrEmpty(o.headers)) ==>
      var reply := UploadReply(c, s, url, Attached(v, true, "", url, o), now);
      && reply == (if ServerRequest(o).Some? then Response(403) else NetworkError)
      && Feedback(reply) == Some(if ServerRequest(o).Some? then Forbidden else NetworkFailure)
  {
  }
}
