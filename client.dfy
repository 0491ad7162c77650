/**
 * The request side of the two browser scripts, upload-password-addon.js and
 * console-plugin.js, taken as two configurations of one component: which
 * requests count as uploads, which credential is read, how it is attached
 * to an outgoing request, and which message a reply produces.
 */
module UploadClient {
  import opened Wrappers
  import opened Text
  import opened Json

  /** The page add-on (upload-password-addon.js) or the console plugin (console-plugin.js). */
  datatype Variant = Addon | ConsolePlugin

  /** The target handed to `fetch` or `XMLHttpRequest.open`: a URL string, or a URL/Request object. */
  datatype Target = Url(url: string) | NonStringTarget

  const PasswordHeader := "X-Admin-Password"
  const PasswordField := "password"

  /**
   * Whether a URL is an upload request. The add-on asks for `/share/` and
   * one of `/text/`, `/file/`, `/chunk/`; the console plugin only for `/share/`.
   */
  predicate IsUploadUrl(v: Variant, url: string)
  {
    match v
    case Addon => Contains(url, "/share/") && (Contains(url, "/text/") || Contains(url, "/file/") || Contains(url, "/chunk/"))
    case ConsolePlugin => Contains(url, "/share/")
  }

  /** A chunked upload, whose credential travels in a header. */
  predicate IsChunkUrl(url: string)
  {
    Contains(url, "/chunk/")
  }

  /** Every URL the add-on treats as an upload, the console plugin does too. */
  lemma AddonUploadsAreConsoleUploads(url: string)
    requires IsUploadUrl(Addon, url)
    ensures IsUploadUrl(ConsolePlugin, url)
  {
  }

  /** For a chunk URL both configurations agree: it is an upload exactly when it mentions `/share/`. */
  lemma ChunkClassificationAgrees(url: string)
    requires IsChunkUrl(url)
    ensures IsUploadUrl(Addon, url) <==> IsUploadUrl(ConsolePlugin, url)
    ensures IsUploadUrl(ConsolePlugin, url) <==> exists i :: OccursAt(url, "/share/", i)
  {
    ContainsIffOccurs(url, "/share/");
  }

  /**
   * The credential read from the password input (None when the document has
   * none): the add-on takes the value as typed, the console plugin trims it.
   */
  function Credential(v: Variant, input: Option<string>): (pw: string)
    ensures input.None? ==> pw == ""
    ensures v == Addon && input.Some? ==> pw == input.value
    ensures v == ConsolePlugin && input.Some? ==> pw == Trim(input.value)
    ensures v == ConsolePlugin && input.Some? ==>
      (pw == "" <==> forall k :: 0 <= k < |input.value| ==> IsJsWhitespace(input.value[k]))
  {
    match input
    case None => ""
    case Some(value) =>
      if v == Addon then value
      else
        TrimEmptyIffBlank(value);
        Trim(value)
  }

  /** Whether an intercepted request gets the credential: an upload, while restricted, with a password. */
  predicate Attaches(v: Variant, restricted: bool, password: string, url: string)
  {
    IsUploadUrl(v, url) && restricted && password != ""
  }

  /**
   * What the interceptors can change in a request: its headers object (None
   * when the options have none) and, when the body is a FormData, its entries
   * (None for any other body).
   */
  datatype OptionsView = OptionsView(headers: Option<map<string, string>>, form: Option<seq<(string, string)>>)

  function HeadersOrEmpty(headers: Option<map<string, string>>): map<string, string>
  {
    if headers.Some? then headers.value else map[]
  }

  /**
   * The fetch wrapper's effect on the request options. Nothing changes unless
   * the credential is attached. A chunk upload gets `X-Admin-Password` set to
   * the exact credential and keeps its body; any other upload gets one
   * `password` entry appended when the body is a FormData and keeps any other
   * body. The add-on creates a missing headers object for every attached
   * upload, the console plugin only for a chunk upload.
   */
  function Attached(v: Variant, restricted: bool, password: string, url: string, o: OptionsView): (r: OptionsView)
    ensures !Attaches(v, restricted, password, url) ==> r == o
    ensures o.form.None? ==> r.form.None?
    ensures Attaches(v, restricted, password, url) && IsChunkUrl(url) ==>
      && r.headers == Some(HeadersOrEmpty(o.headers)[PasswordHeader := password])
      && r.form == o.form
    ensures Attaches(v, restricted, password, url) && !IsChunkUrl(url) ==>
      && (o.form.Some? ==> r.form == Some(o.form.value + [(PasswordField, password)]))
      && r.headers == (if v == Addon then Some(HeadersOrEmpty(o.headers)) else o.headers)
    ensures (r.headers.Some? && o.headers.None? && v == ConsolePlugin) ==>
      Attaches(v, restricted, password, url) && IsChunkUrl(url)
  {
    if !Attaches(v, restricted, password, url) then o
    else
      var headers := if v == Addon then Some(HeadersOrEmpty(o.headers)) else o.headers;
      if IsChunkUrl(url) then
        OptionsView(Some(HeadersOrEmpty(headers)[PasswordHeader := password]), o.form)
      else
        OptionsView(headers, if o.form.Some? then Some(o.form.value + [(PasswordField, password)]) else None)
  }

  /** HTTP whitespace: tab, line feed, carriage return and space. */
  predicate IsHttpWhitespace(ch: char)
  {
    ch == '\t' || ch == '\n' || ch == '\r' || ch == ' '
  }

  /** The number of HTTP whitespace characters `v` starts with. */
  function LeadingWhitespace(v: string): (n: nat)
    ensures n <= |v|
    ensures forall k :: 0 <= k < n ==> IsHttpWhitespace(v[k])
    ensures n < |v| ==> !IsHttpWhitespace(v[n])
    decreases |v|
  {
    if |v| > 0 && IsHttpWhitespace(v[0]) then
      var n := LeadingWhitespace(v[1..]);
      assert forall k :: 1 <= k < n + 1 ==> v[k] == v[1..][k - 1];
      n + 1
    else 0
  }

  /** Where the HTTP whitespace that ends `v[..hi]` begins, looking no further back than `lo`. */
  function TrailingWhitespace(v: string, lo: nat, hi: nat): (m: nat)
    requires lo <= hi <= |v|
    ensures lo <= m <= hi
    ensures forall k :: m <= k < hi ==> IsHttpWhitespace(v[k])
    ensures lo < m ==> !IsHttpWhitespace(v[m - 1])
    decreases hi
  {
    if lo < hi && IsHttpWhitespace(v[hi - 1]) then TrailingWhitespace(v, lo, hi - 1) else hi
  }

  /**
   * A header value as the browser sends it, the `normalize` step of the Fetch
   * Standard (section 2.2.2, Headers): leading and trailing HTTP whitespace
   * is removed, and a value with none is left as it is.
   */
  function NormalizeHeaderValue(v: string): (r: string)
    ensures r != [] ==> !IsHttpWhitespace(r[0]) && !IsHttpWhitespace(r[|r| - 1])
    ensures (v == [] || (!IsHttpWhitespace(v[0]) && !IsHttpWhitespace(v[|v| - 1]))) ==> r == v
  {
    var i := LeadingWhitespace(v);
    var j := TrailingWhitespace(v, i, |v|);
    assert v == [] || (!IsHttpWhitespace(v[0]) && !IsHttpWhitespace(v[|v| - 1])) ==> i == 0 && j == |v|;
    v[i..j]
  }

  /**
   * `NormalizeHeaderValue(v)` is the slice of `v` left after removing HTTP
   * whitespace from both ends.
   */
  lemma NormalizeHeaderValueIsCore(v: string)
    ensures var i := LeadingWhitespace(v);
      && i + |NormalizeHeaderValue(v)| <= |v|
      && NormalizeHeaderValue(v) == v[i..i + |NormalizeHeaderValue(v)|]
      && (forall k :: 0 <= k < i ==> IsHttpWhitespace(v[k]))
      && (forall k :: i + |NormalizeHeaderValue(v)| <= k < |v| ==> IsHttpWhitespace(v[k]))
  {
    var i := LeadingWhitespace(v);
    var j := TrailingWhitespace(v, i, |v|);
    assert NormalizeHeaderValue(v) == v[i..j];
  }

  /**
   * A value the browser sends in a header: a ByteString (no character above
   * U+00FF, as Web IDL converts it) whose normalised form contains no NUL,
   * CR or LF. Anything else makes `setRequestHeader` and fetch's header
   * handling throw.
   */
  predicate HeaderSafe(v: string)
  {
    && (forall k :: 0 <= k < |v| ==> v[k] <= '\U{00FF}')
    && (forall k :: 0 <= k < |NormalizeHeaderValue(v)| ==>
          NormalizeHeaderValue(v)[k] != '\0' && NormalizeHeaderValue(v)[k] != '\n' && NormalizeHeaderValue(v)[k] != '\r')
  }

  /**
   * The headers a fetch sends for the headers object it was given: every
   * value normalised, or None when some value is not header-safe, in which
   * case fetch rejects with a TypeError and sends nothing. The server reads
   * each byte back as the character of the same code (Latin-1), so the
   * values arrive as normalised.
   */
  function TransmittedHeaders(h: map<string, string>): (r: Option<map<string, string>>)
    ensures r.Some? <==> forall k :: k in h ==> HeaderSafe(h[k])
    ensures r.Some? ==> r.value.Keys == h.Keys && forall k :: k in h ==> r.value[k] == NormalizeHeaderValue(h[k])
  {
    if forall k :: k in h ==> HeaderSafe(h[k]) then Some(map k | k in h :: NormalizeHeaderValue(h[k])) else None
  }

  /**
   * Setting one header: the headers go out exactly when the new value and all
   * the other headers are header-safe, and the new value goes out normalised.
   */
  lemma TransmittedHeadersOfUpdate(h: map<string, string>, name: string, value: string)
    ensures TransmittedHeaders(h[name := value]).Some? <==> HeaderSafe(value) && TransmittedHeaders(h - {name}).Some?
    ensures TransmittedHeaders(h[name := value]).Some? ==>
      TransmittedHeaders(h[name := value]).value[name] == NormalizeHeaderValue(value)
  {
    var updated := h[name := value];
    var rest := h - {name};
    if HeaderSafe(value) && TransmittedHeaders(rest).Some? {
      forall k | k in updated ensures HeaderSafe(updated[k]) {
        if k != name {
          assert k in rest && rest[k] == updated[k];
        }
      }
    }
    if TransmittedHeaders(updated).Some? {
      assert HeaderSafe(updated[name]);
      forall k | k in rest ensures HeaderSafe(rest[k]) {
        assert rest[k] == updated[k];
      }
    }
  }

  /**
   * The console plugin's trimmed credential is already normalised: JavaScript
   * white space includes every HTTP whitespace character.
   */
  lemma TrimmedCredentialIsNormal(input: Option<string>)
    ensures NormalizeHeaderValue(Credential(ConsolePlugin, input)) == Credential(ConsolePlugin, input)
  {
  }

  /**
   * `setRequestHeader` on an XMLHttpRequest: a header set twice carries both
   * values, joined by ", ".
   */
  function CombineHeader(headers: map<string, string>, name: string, value: string): (r: map<string, string>)
    ensures r.Keys == headers.Keys + {name}
    ensures name !in headers ==> r[name] == value
    ensures name in headers ==> r[name] == headers[name] + ", " + value
    ensures forall k :: k in headers && k != name ==> r[k] == headers[k]
  {
    headers[name := if name in headers then headers[name] + ", " + value else value]
  }

  /**
   * The add-on's XMLHttpRequest `send` wrapper: the same rule as its fetch
   * wrapper, through `setRequestHeader`. A chunk upload's credential is
   * stored normalised; one that is not header-safe makes `send` throw before
   * the request goes out (None).
   */
  function XhrAttached(restricted: bool, password: string, url: string, headers: map<string, string>, form: Option<seq<(string, string)>>): (r: Option<OptionsView>)
    ensures r.None? <==> Attaches(Addon, restricted, password, url) && IsChunkUrl(url) && !HeaderSafe(password)
    ensures !Attaches(Addon, restricted, password, url) ==> r == Some(OptionsView(Some(headers), form))
    ensures Attaches(Addon, restricted, password, url) && IsChunkUrl(url) && HeaderSafe(password) ==>
      r == Some(OptionsView(Some(CombineHeader(headers, PasswordHeader, NormalizeHeaderValue(password))), form))
    ensures Attaches(Addon, restricted, password, url) && !IsChunkUrl(url) ==>
      && r.Some? && r.value.headers == Some(headers)
      && (form.Some? ==> r.value.form == Some(form.value + [(PasswordField, password)]))
      && (form.None? ==> r.value.form.None?)
  {
    if !Attaches(Addon, restricted, password, url) then Some(OptionsView(Some(headers), form))
    else if IsChunkUrl(url) then
      if HeaderSafe(password) then Some(OptionsView(Some(CombineHeader(headers, PasswordHeader, NormalizeHeaderValue(password))), form))
      else None
    else Some(OptionsView(Some(headers), if form.Some? then Some(form.value + [(PasswordField, password)]) else None))
  }

  /**
   * The add-on's fetch and XHR wrappers follow one rule. When the page's own
   * headers go out as they are and do not already carry the password header,
   * the two attach in the same cases, append the same form entry, send the
   * same headers, and fail in the same case: a chunk credential that is not
   * header-safe.
   */
  lemma FetchAndXhrAgree(restricted: bool, password: string, url: string, headers: map<string, string>, form: Option<seq<(string, string)>>)
    requires PasswordHeader !in headers
    requires TransmittedHeaders(headers) == Some(headers)
    ensures var f := Attached(Addon, restricted, password, url, OptionsView(Some(headers), form));
      var x := XhrAttached(restricted, password, url, headers, form);
      && f.headers.Some?
      && (x.None? <==> TransmittedHeaders(f.headers.value).None?)
      && (x.Some? ==> x.value.form == f.form && x.value.headers == TransmittedHeaders(f.headers.value))
  {
    var f := Attached(Addon, restricted, password, url, OptionsView(Some(headers), form));
    if Attaches(Addon, restricted, password, url) && IsChunkUrl(url) {
      var h := headers[PasswordHeader := password];
      assert f.headers == Some(h);
      if HeaderSafe(password) {
        var n := CombineHeader(headers, PasswordHeader, NormalizeHeaderValue(password));
        forall k | k in h ensures HeaderSafe(h[k]) {
          if k != PasswordHeader {
            assert h[k] == headers[k];
          }
        }
        var th := TransmittedHeaders(h).value;
        forall k | k in h ensures th[k] == n[k] {
          if k != PasswordHeader {
            assert th[k] == NormalizeHeaderValue(headers[k]);
            assert NormalizeHeaderValue(headers[k]) == TransmittedHeaders(headers).value[k];
          }
        }
        assert th == n;
      } else {
        assert !HeaderSafe(h[PasswordHeader]);
      }
    }
  }

  /**
   * The one case where the add-on's two wrappers differ: when the page had
   * already set `X-Admin-Password` on a chunk upload, fetch replaces it with
   * the credential, while XMLHttpRequest appends the credential to it, so
   * the two send different values.
   */
  lemma FetchAndXhrDifferOnPresetHeader(password: string, url: string, headers: map<string, string>, form: Option<seq<(string, string)>>)
    requires Attaches(Addon, true, password, url) && IsChunkUrl(url) && PasswordHeader in headers
    ensures var f := Attached(Addon, true, password, url, OptionsView(Some(headers), form));
      var x := XhrAttached(true, password, url, headers, form);
      && f.headers.Some? && f.headers.value[PasswordHeader] == password
      && (x.Some? ==> x.value.headers.value[PasswordHeader] == headers[PasswordHeader] + ", " + NormalizeHeaderValue(password))
      && (x.Some? && TransmittedHeaders(f.headers.value).Some? ==>
            TransmittedHeaders(f.headers.value).value[PasswordHeader] != x.value.headers.value[PasswordHeader])
  {
    var f := Attached(Addon, true, password, url, OptionsView(Some(headers), form));
    var x := XhrAttached(true, password, url, headers, form);
    if x.Some? && TransmittedHeaders(f.headers.value).Some? {
      assert TransmittedHeaders(f.headers.value).value[PasswordHeader] == NormalizeHeaderValue(password);
      assert |x.value.headers.value[PasswordHeader]| > |NormalizeHeaderValue(password)|;
    }
  }

  /** A reply to an intercepted fetch: a response with its status, or a network error (a rejected promise). */
  datatype Reply = Response(status: int) | NetworkError

  /** `response.ok`: a 2xx status. */
  predicate IsOk(status: int)
  {
    200 <= status < 300
  }

  /** The messages the scripts show after an upload. */
  datatype Message = UploadSucceeded | WrongPassword | Forbidden | NetworkFailure

  /**
   * The message an upload reply produces while restricted: success for 2xx,
   * wrong password for 401, forbidden for 403, a network failure for a
   * rejected fetch, and no message for any other status.
   */
  function Feedback(reply: Reply): (m: Option<Message>)
    ensures m == Some(UploadSucceeded) <==> reply.Response? && IsOk(reply.status)
    ensures m == Some(WrongPassword) <==> reply == Response(401)
    ensures m == Some(Forbidden) <==> reply == Response(403)
    ensures m == Some(NetworkFailure) <==> reply == NetworkError
    ensures m == None <==> reply.Response? && !IsOk(reply.status) && reply.status != 401 && reply.status != 403
  {
    match reply
    case NetworkError => Some(NetworkFailure)
    case Response(status) =>
      if IsOk(status) then Some(UploadSucceeded)
      else if status == 401 then Some(WrongPassword)
      else if status == 403 then Some(Forbidden)
      else None
  }

  /**
   * The reply to the configuration request `POST /`: a response with its
   * status and its JSON body (None when `response.json()` rejects), or a
   * network error.
   */
  datatype ConfigReply = ConfigResponse(status: int, body: Option<Json>) | ConfigNetworkError

  /** Whether the configuration request produced a parsed 2xx body. */
  predicate HasConfigBody(reply: ConfigReply)
  {
    reply.ConfigResponse? && IsOk(reply.status) && reply.body.Some?
  }

  /**
   * `getSystemConfig` / `getConfig`: the `detail` of a parsed 2xx body, and
   * `null` (Some(Null)) for any failure. Reading `detail` of a `null` body
   * throws and is caught, so it also yields `null`; of any other non-object
   * body it is `undefined` (None).
   */
  function SystemConfig(reply: ConfigReply): (config: Option<Json>)
    ensures !HasConfigBody(reply) ==> config == Some(Null)
    ensures HasConfigBody(reply) && reply.body.value.Obj? ==> config == Property(reply.body.value, "detail")
    ensures JsTruthy(config) ==> HasConfigBody(reply) && reply.body.value.Obj? && "detail" in reply.body.value.fields
  {
    if !HasConfigBody(reply) then Some(Null)
    else
      match reply.body.value
      case Null => Some(Null)
      case _ => Property(reply.body.value, "detail")
  }

  /** A FormData body, appended to in place. */
  class FormData {
    var entries: seq<(string, string)>

    constructor (entries: seq<(string, string)>)
      ensures this.entries == entries
    {
      this.entries := entries;
    }

    method Append(name: string, value: string)
      modifies this
      ensures entries == old(entries) + [(name, value)]
    {
      entries := entries + [(name, value)];
    }
  }

  /** A request body: a FormData object, or anything else (a string, a Blob, JSON text), or none. */
  datatype Body = FormBody(data: FormData) | OtherBody | NoBody
  {
    function Footprint(): set<object>
    {
      if FormBody? then {data} else {}
    }
  }

  /** The `options` object of a fetch call, which the fetch wrapper changes in place. */
  class FetchOptions {
    var headers: Option<map<string, string>>
    var body: Body

    constructor (headers: Option<map<string, string>>, body: Body)
      ensures this.headers == headers && this.body == body
    {
      this.headers := headers;
      this.body := body;
    }

    function View(): OptionsView
      reads this, body.Footprint()
    {
      OptionsView(headers, if body.FormBody? then Some(body.data.entries) else None)
    }
  }

  /** An XMLHttpRequest: the URL its patched `open` recorded, and its request headers. */
  class XhrRequest {
    var url: Option<Target>
    var headers: map<string, string>

    constructor ()
      ensures url == None && headers == map[]
    {
      url := None;
      headers := map[];
    }

    /** The patched `open` records the URL; opening clears the request headers. */
    method Open(target: Target)
      modifies this
      ensures url == Some(target) && headers == map[]
    {
      url := Some(target);
      headers := map[];
    }

    /**
     * `setRequestHeader`: a value that is not header-safe throws (a TypeError
     * above U+00FF, a SyntaxError for NUL, CR or LF) and changes nothing;
     * otherwise the normalised value is stored.
     */
    method SetRequestHeader(name: string, value: string) returns (threw: bool)
      modifies this
      ensures threw <==> !HeaderSafe(value)
      ensures headers == (if threw then old(headers) else CombineHeader(old(headers), name, NormalizeHeaderValue(value)))
      ensures url == old(url)
    {
      if !HeaderSafe(value) {
        return true;
      }
      threw := false;
      headers := CombineHeader(headers, name, NormalizeHeaderValue(value));
    }
  }
}
