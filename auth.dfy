/** Identity resolution of the runtime (`bv/runtime/auth.py`): a runner row
    keyed by process id takes precedence over the developer credential file,
    and `require_auth` adds an expiry gate that exempts robot identities.

    Every I/O result is an input: the runner database as rows (or its absence
    or failure), the credential file as a parsed document (or its absence or
    failure), the clock as UTC microseconds. */
module Auth {
  import opened Common
  import opened PyText
  import opened PyData

  /** The kinds of `AuthError` the resolver raises. */
  datatype AuthError =
    | NotAuthenticated      // neither a runner row nor a credential file
    | InvalidAuthFile       // the file could not be read or is not JSON
    | NotJsonObject         // the top-level JSON value is not an object
    | UrlMissing            // "Orchestrator URL is missing"
    | MissingAccessToken
    | MissingExpiresAt
    | ExpiresNotIso8601
    | TokenExpired

  datatype AuthUser = AuthUser(id: Option<int>, username: Option<string>)

  datatype AuthContext = AuthContext(
    apiUrl: string,
    uiUrl: string,
    accessToken: string,
    expiresAt: DateTime,
    user: AuthUser,
    machineName: string,
    executionId: Option<string>)

  predicate NoTrailingSlash(s: string) {
    s == [] || s[|s| - 1] != '/'
  }

  /** What every resolved context satisfies: both URLs free of trailing slashes
      (but possibly empty), a non-empty machine name, an aware expiry. */
  predicate WellFormed(ctx: AuthContext) {
    && NoTrailingSlash(ctx.apiUrl)
    && NoTrailingSlash(ctx.uiUrl)
    && ctx.machineName != []
    && ctx.expiresAt.offset.Some?
  }

  /** The runner's identity lasts one year from the moment it is loaded. */
  const RunnerValidity: int := 365 * 24 * 60 * 60 * 1_000_000

  const RobotUsername: string := "robot:runner"

  // ---------------------------------------------------------------------------
  // Runner source

  /** A column value as the sqlite driver returns it. `SqlOther` carries what
      `str()` renders for a number or blob. */
  datatype SqlValue = SqlNull | SqlText(text: string) | SqlOther(rendered: string)

  /** One row of the `runner_context` table. */
  datatype RunnerRecord = RunnerRecord(
    pid: int,
    executionId: SqlValue,
    apiUrl: SqlValue,
    accessToken: SqlValue,
    machineName: SqlValue)

  /** The runner database as the process finds it: no file, a file that cannot
      be opened or queried, or the rows of the table in scan order. */
  datatype RunnerDb = NoDbFile | DbUnusable | Db(rows: seq<RunnerRecord>)

  /** What `_load_runner_context` returns: every column passed through `str()`. */
  datatype RunnerRow = RunnerRow(
    executionId: string,
    apiUrl: string,
    accessToken: string,
    machineName: string)

  /** Python `str()` of a column value. */
  function SqlStr(v: SqlValue): (r: string)
    ensures v == SqlNull ==> r == "None"
    ensures v.SqlText? ==> r == v.text
  {
    match v
    case SqlNull => "None"
    case SqlText(t) => t
    case SqlOther(rendered) => rendered
  }

  /** The row `fetchone()` returns for `WHERE pid = ?`: the first matching row
      in scan order. */
  function FirstRowFor(rows: seq<RunnerRecord>, pid: int): (r: Option<nat>)
    ensures r.None? <==> forall i :: 0 <= i < |rows| ==> rows[i].pid != pid
    ensures r.Some? ==> r.value < |rows| && rows[r.value].pid == pid
    ensures r.Some? ==> forall i :: 0 <= i < r.value ==> rows[i].pid != pid
  {
    if rows == [] then None
    else if rows[0].pid == pid then Some(0)
    else
      match FirstRowFor(rows[1..], pid)
      case None => None
      case Some(k) => Some(k + 1)
  }

  function Coerce(rec: RunnerRecord): RunnerRow {
    RunnerRow(SqlStr(rec.executionId), SqlStr(rec.apiUrl), SqlStr(rec.accessToken), SqlStr(rec.machineName))
  }

  /** `_load_runner_context`: `None` when the file is absent, when opening or
      querying fails, or when no row has this process id; otherwise the first
      matching row with its four columns rendered as text. */
  function LoadRunnerContext(db: RunnerDb, pid: int): (r: Option<RunnerRow>)
    ensures r.None? <==> !db.Db? || forall i :: 0 <= i < |db.rows| ==> db.rows[i].pid != pid
    ensures r.Some? ==> exists i :: 0 <= i < |db.rows| && db.rows[i].pid == pid && r.value == Coerce(db.rows[i])
  {
    match db
    case NoDbFile => None
    case DbUnusable => None
    case Db(rows) =>
      match FirstRowFor(rows, pid)
      case None => None
      case Some(k) => Some(Coerce(rows[k]))
  }

  /** `has_runner_context`: some row of a usable database has this process id. */
  function HasRunnerContext(db: RunnerDb, pid: int): (r: bool)
    ensures r <==> db.Db? && exists i :: 0 <= i < |db.rows| && db.rows[i].pid == pid
  {
    LoadRunnerContext(db, pid).Some?
  }

  /** A NULL column reaches the context as the text "None", not as an absent value. */
  lemma NullColumnBecomesNoneText(rec: RunnerRecord, pid: int)
    requires rec.pid == pid && rec.machineName == SqlNull && rec.executionId == SqlNull
    ensures LoadRunnerContext(Db([rec]), pid) == Some(RunnerRow("None", SqlStr(rec.apiUrl), SqlStr(rec.accessToken), "None"))
  {
    assert FirstRowFor([rec], pid) == Some(0);
  }

  // ---------------------------------------------------------------------------
  // Field parsing

  /** `_normalize_base_url`: raises when the input is blank, otherwise strips
      whitespace and then every trailing '/'. */
  function NormalizeBaseUrl(url: string): (r: Result<string, AuthError>)
    ensures r.Err? <==> Strip(url) == []
    ensures r.Err? ==> r.error == UrlMissing
    ensures r.Ok? ==> StartsWith(Strip(url), r.value)
    ensures r.Ok? ==> NoTrailingSlash(r.value)
    ensures r.Ok? ==> forall i :: |r.value| <= i < |Strip(url)| ==> Strip(url)[i] == '/'
  {
    var u := Strip(url);
    if u == [] then Err(UrlMissing) else Ok(RTrim(u, IsSlash))
  }

  /** The result can be empty: a URL made only of slashes normalises to "". */
  lemma NormalizeAllSlashes(url: string)
    requires url != [] && forall i :: 0 <= i < |url| ==> url[i] == '/'
    ensures NormalizeBaseUrl(url) == Ok("")
  {
    LTrimKeeps(url, IsSpace);
    RTrimKeeps(url, IsSpace);
    assert Strip(url) == url;
  }

  /** Normalising its own output again changes nothing unless removing the
      slashes exposed trailing whitespace. */
  lemma {:induction false} NormalizeIdempotent(url: string)
    requires NormalizeBaseUrl(url).Ok?
    requires var v := NormalizeBaseUrl(url).value; v != [] && !IsSpace(v[|v| - 1])
    ensures NormalizeBaseUrl(NormalizeBaseUrl(url).value) == NormalizeBaseUrl(url)
  {
    var v := NormalizeBaseUrl(url).value;
    assert v[0] == Strip(url)[0];
    LTrimKeeps(v, IsSpace);
    RTrimKeeps(v, IsSpace);
    assert Strip(v) == v;
    RTrimKeeps(v, IsSlash);
  }

  /** The text `_parse_iso8601` hands to `datetime.fromisoformat`: the stripped
      input with a trailing 'Z' rewritten to "+00:00". */
  function IsoText(value: string): (r: string)
    ensures r == [] || r[|r| - 1] != 'Z'
    ensures !EndsWith(Strip(value), "Z") ==> r == Strip(value)
    ensures EndsWith(Strip(value), "Z") ==> |r| == |Strip(value)| + 5 && EndsWith(r, "+00:00")
    ensures EndsWith(Strip(value), "Z") ==> r[..|Strip(value)| - 1] == Strip(value)[..|Strip(value)| - 1]
  {
    var raw := Strip(value);
    if EndsWith(raw, "Z") then
      assert raw[|raw| - 1] == 'Z';
      raw[..|raw| - 1] + "+00:00"
    else
      assert raw != [] ==> raw[|raw| - 1..] == [raw[|raw| - 1]];
      raw
  }

  /** `_parse_iso8601`: `None` where the parse raises; a naive result is
      taken to be UTC, so every result is aware. */
  function ParseIso8601(value: string, fromIsoFormat: string -> Option<DateTime>): (r: Option<DateTime>)
    ensures r.None? <==> fromIsoFormat(IsoText(value)).None?
    ensures r.Some? ==> r.value.offset.Some?
    ensures r.Some? ==> r.value.wall == fromIsoFormat(IsoText(value)).value.wall
    ensures r.Some? && fromIsoFormat(IsoText(value)).value.offset.Some? ==> r.value == fromIsoFormat(IsoText(value)).value
    ensures r.Some? && fromIsoFormat(IsoText(value)).value.offset.None? ==> Instant(r.value) == r.value.wall
  {
    match fromIsoFormat(IsoText(value))
    case None => None
    case Some(dt) => Some(AssumeUtc(dt))
  }

  /** `load_auth_context` strips `expires_at` and `_parse_iso8601` strips it
      again; the second strip changes nothing. */
  lemma ExpiryStrippedOnce(value: string, fromIsoFormat: string -> Option<DateTime>)
    ensures ParseIso8601(Strip(value), fromIsoFormat) == ParseIso8601(value, fromIsoFormat)
  {
    StripIdempotent(value);
  }

  /** `AuthContext.is_expired`: `now` (UTC microseconds) has reached the expiry
      instant, a naive expiry being read as UTC. */
  function IsExpired(ctx: AuthContext, now: int): (r: bool)
    ensures ctx.expiresAt.offset.Some? ==> (r <==> now >= ctx.expiresAt.wall - ctx.expiresAt.offset.value)
    ensures ctx.expiresAt.offset.None? ==> (r <==> now >= ctx.expiresAt.wall)
  {
    Instant(UtcNow(now)) >= Instant(AssumeUtc(ctx.expiresAt))
  }

  // ---------------------------------------------------------------------------
  // Runner mode

  /** The context synthesised from a runner row: one normalised URL for both
      endpoints, the robot identity, a one-year validity, the row's execution
      id, and "runner-machine" only when the machine name is empty. */
  function RunnerAuthContext(row: RunnerRow, now: int): (r: Result<AuthContext, AuthError>)
    ensures r.Err? <==> Strip(row.apiUrl) == []
    ensures r.Err? ==> r.error == UrlMissing
    ensures r.Ok? ==> r.value.apiUrl == r.value.uiUrl == NormalizeBaseUrl(row.apiUrl).value
    ensures r.Ok? ==> r.value.accessToken == row.accessToken
    ensures r.Ok? ==> r.value.user == AuthUser(None, Some(RobotUsername))
    ensures r.Ok? ==> r.value.expiresAt.offset == Some(0) && Instant(r.value.expiresAt) == now + RunnerValidity
    ensures r.Ok? ==> r.value.executionId == Some(row.executionId)
    ensures r.Ok? ==> WellFormed(r.value)
    ensures r.Ok? && row.machineName != [] ==> r.value.machineName == row.machineName
    ensures r.Ok? && row.machineName == [] ==> r.value.machineName == "runner-machine"
  {
    // the source normalises the same text twice, once per endpoint
    var api :- NormalizeBaseUrl(row.apiUrl);
    Ok(AuthContext(
      api, api, row.accessToken,
      UtcNow(now + RunnerValidity),
      AuthUser(None, Some(RobotUsername)),
      if row.machineName == "" then "runner-machine" else row.machineName,
      Some(row.executionId)))
  }

  // ---------------------------------------------------------------------------
  // Developer mode

  /** The credential file as the process finds it. */
  datatype AuthFile = NoAuthFile | Unreadable | Parsed(doc: Json)

  /** The raw values used for `api_url` and `ui_url`: each key's own value, or
      `orchestrator_url` in place of a key that is absent or null. */
  function RawUrls(data: map<string, Json>): (r: (Json, Json))
    ensures r.0 == (if Get(data, "api_url") != JNull then Get(data, "api_url") else Get(data, "orchestrator_url"))
    ensures r.1 == (if Get(data, "ui_url") != JNull then Get(data, "ui_url") else Get(data, "orchestrator_url"))
  {
    var orchestrator := Get(data, "orchestrator_url");
    var api := Get(data, "api_url");
    var ui := Get(data, "ui_url");
    var api := if api == JNull && orchestrator != JNull then orchestrator else api;
    var ui := if ui == JNull && orchestrator != JNull then orchestrator else ui;
    (api, ui)
  }

  /** Machine name: top-level `machine_name`, else `machine.name` when `machine`
      is an object; rendered, stripped, and "<unknown>" when blank. */
  function MachineNameOf(data: map<string, Json>, f: Foreign): (r: string)
    ensures r != []
    ensures Get(data, "machine_name") != JNull ==> r == (if Strip(PyStr(Get(data, "machine_name"), f)) == [] then "<unknown>" else Strip(PyStr(Get(data, "machine_name"), f)))
    ensures (Get(data, "machine_name") == JNull && Get(data, "machine").JObject?
             && Get(Get(data, "machine").fields, "name") != JNull) ==>
      var name := Strip(PyStr(Get(Get(data, "machine").fields, "name"), f));
      r == (if name == [] then "<unknown>" else name)
    ensures (Get(data, "machine_name") == JNull
             && (!Get(data, "machine").JObject? || Get(Get(data, "machine").fields, "name") == JNull)) ==>
      r == "<unknown>"
  {
    var name := Get(data, "machine_name");
    var name := if name == JNull && Get(data, "machine").JObject? then Get(Get(data, "machine").fields, "name") else name;
    var text := if name != JNull then PyStr(name, f) else "";
    if Strip(text) == [] then "<unknown>" else Strip(text)
  }

  /** The user: `user` when it is an object, else `{}`; an `id` that `int()`
      rejects becomes `None` without error; `username` is `str()` of the value. */
  function UserOf(data: map<string, Json>, f: Foreign): (r: AuthUser)
    ensures !Get(data, "user").JObject? ==> r == AuthUser(None, None)
    ensures Get(data, "user").JObject? ==>
      var user := Get(data, "user").fields;
      && (Get(user, "id") == JNull ==> r.id == None)
      && (Get(user, "id") != JNull ==> r.id == PyInt(Get(user, "id"), f))
      && r.username == (if Get(user, "username") == JNull then None else Some(PyStr(Get(user, "username"), f)))
  {
    var user := if Get(data, "user").JObject? then Get(data, "user").fields else map[];
    var id := Get(user, "id");
    var username := Get(user, "username");
    AuthUser(
      if id != JNull then PyInt(id, f) else None,
      if username != JNull then Some(PyStr(username, f)) else None)
  }

  /** True when `str(value or "")` is blank after stripping. */
  predicate Blank(j: Json, f: Foreign) {
    Strip(StrOrEmpty(j, f)) == []
  }

  /** The developer context built from a top-level JSON object: the URLs, the
      stripped non-blank token, the parsed expiry, the user, the machine name,
      and no execution id. */
  function ContextFromDocument(data: map<string, Json>, f: Foreign): (r: Result<AuthContext, AuthError>)
    ensures r.Err? ==> r.error in {UrlMissing, MissingAccessToken, MissingExpiresAt, ExpiresNotIso8601}
    ensures r.Ok? ==> NormalizeBaseUrl(StrOrEmpty(RawUrls(data).0, f)) == Ok(r.value.apiUrl)
    ensures r.Ok? ==> NormalizeBaseUrl(StrOrEmpty(RawUrls(data).1, f)) == Ok(r.value.uiUrl)
    ensures r.Ok? ==> r.value.accessToken == Strip(StrOrEmpty(Get(data, "access_token"), f)) != []
    ensures r.Ok? ==> Some(r.value.expiresAt) == ParseIso8601(Strip(StrOrEmpty(Get(data, "expires_at"), f)), f.fromIsoFormat)
    ensures r.Ok? ==> r.value.user == UserOf(data, f) && r.value.machineName == MachineNameOf(data, f)
    ensures r.Ok? ==> r.value.executionId == None && WellFormed(r.value)
  {
    var (apiRaw, uiRaw) := RawUrls(data);
    var api :- NormalizeBaseUrl(StrOrEmpty(apiRaw, f));
    var ui :- NormalizeBaseUrl(StrOrEmpty(uiRaw, f));
    var token := Strip(StrOrEmpty(Get(data, "access_token"), f));
    if token == [] then Err(MissingAccessToken)
    else
      var expiresRaw := Strip(StrOrEmpty(Get(data, "expires_at"), f));
      if expiresRaw == [] then Err(MissingExpiresAt)
      else
        match ParseIso8601(expiresRaw, f.fromIsoFormat)
        case None => Err(ExpiresNotIso8601)
        case Some(expiresAt) =>
          Ok(AuthContext(api, ui, token, expiresAt, UserOf(data, f), MachineNameOf(data, f), None))
  }

  /** The developer-mode checks run in a fixed order: both URLs, then the token,
      then the presence of `expires_at`, then its syntax. The first failing
      check decides the error, and a document passing all four succeeds. */
  lemma {:induction false} DeveloperErrorOrder(data: map<string, Json>, f: Foreign)
    ensures var r := ContextFromDocument(data, f);
      var urlsOk := !Blank(RawUrls(data).0, f) && !Blank(RawUrls(data).1, f);
      var tokenOk := !Blank(Get(data, "access_token"), f);
      var expiryPresent := !Blank(Get(data, "expires_at"), f);
      var parsed := ParseIso8601(Strip(StrOrEmpty(Get(data, "expires_at"), f)), f.fromIsoFormat);
      && (!urlsOk ==> r == Err(UrlMissing))
      && (urlsOk && !tokenOk ==> r == Err(MissingAccessToken))
      && (urlsOk && tokenOk && !expiryPresent ==> r == Err(MissingExpiresAt))
      && (urlsOk && tokenOk && expiryPresent && parsed.None? ==> r == Err(ExpiresNotIso8601))
      && (urlsOk && tokenOk && expiryPresent && parsed.Some? ==> r.Ok?)
  {
  }

  /** Developer mode: a missing file, an unreadable one and a non-object document
      each fail with their own error before any field is examined. */
  function DeveloperAuthContext(file: AuthFile, f: Foreign): (r: Result<AuthContext, AuthError>)
    ensures file == NoAuthFile ==> r == Err(NotAuthenticated)
    ensures file == Unreadable ==> r == Err(InvalidAuthFile)
    ensures file.Parsed? && !file.doc.JObject? ==> r == Err(NotJsonObject)
    ensures file.Parsed? && file.doc.JObject? ==> r == ContextFromDocument(file.doc.fields, f)
    ensures file.Parsed? && file.doc.JObject? ==> r.Err? ==>
      r.error in {UrlMissing, MissingAccessToken, MissingExpiresAt, ExpiresNotIso8601}
    ensures r.Ok? ==> r.value.executionId == None && WellFormed(r.value)
  {
    match file
    case NoAuthFile => Err(NotAuthenticated)
    case Unreadable => Err(InvalidAuthFile)
    case Parsed(doc) =>
      if doc.JObject? then ContextFromDocument(doc.fields, f) else Err(NotJsonObject)
  }

  // ---------------------------------------------------------------------------
  // Resolution

  /** Everything `load_auth_context` reads: the runner database, this process's
      id, and the credential file. */
  datatype Sources = Sources(db: RunnerDb, pid: int, authFile: AuthFile)

  /** `load_auth_context`: runner mode when a runner row exists, developer mode
      otherwise. */
  function LoadAuthContext(src: Sources, f: Foreign, now: int): (r: Result<AuthContext, AuthError>)
    ensures HasRunnerContext(src.db, src.pid) ==> r == RunnerAuthContext(LoadRunnerContext(src.db, src.pid).value, now)
    ensures !HasRunnerContext(src.db, src.pid) ==> r == DeveloperAuthContext(src.authFile, f)
    ensures r.Ok? ==> WellFormed(r.value)
    ensures r.Ok? ==> (r.value.executionId.Some? <==> HasRunnerContext(src.db, src.pid))
  {
    match LoadRunnerContext(src.db, src.pid)
    case Some(row) => RunnerAuthContext(row, now)
    case None => DeveloperAuthContext(src.authFile, f)
  }

  /** When a runner row exists the credential file is never consulted: any two
      files (and any foreign behaviour) give the same result. */
  lemma RunnerTakesPrecedence(db: RunnerDb, pid: int, file1: AuthFile, file2: AuthFile, f1: Foreign, f2: Foreign, now: int)
    requires HasRunnerContext(db, pid)
    ensures LoadAuthContext(Sources(db, pid, file1), f1, now) == LoadAuthContext(Sources(db, pid, file2), f2, now)
    ensures LoadAuthContext(Sources(db, pid, file1), f1, now) == RunnerAuthContext(LoadRunnerContext(db, pid).value, now)
  {
  }

  /** Without a runner row and without a credential file there is no identity. */
  lemma NoSourceNotAuthenticated(db: RunnerDb, pid: int, f: Foreign, now: int)
    requires !HasRunnerContext(db, pid)
    ensures LoadAuthContext(Sources(db, pid, NoAuthFile), f, now) == Err(NotAuthenticated)
  {
  }

  /** A document that names only `orchestrator_url` yields equal API and UI
      URLs, both normalised. */
  lemma OrchestratorUrlOnly(data: map<string, Json>, f: Foreign)
    requires "api_url" !in data && "ui_url" !in data
    requires ContextFromDocument(data, f).Ok?
    ensures var ctx := ContextFromDocument(data, f).value;
      && ctx.apiUrl == ctx.uiUrl
      && ctx.apiUrl == NormalizeBaseUrl(StrOrEmpty(Get(data, "orchestrator_url"), f)).value
  {
  }

  /** `orchestrator_url` does not replace a URL key that is present but blank:
      a document with `"api_url": ""` or `"api_url": "  "` fails however good
      `orchestrator_url` is. */
  lemma BlankUrlNotReplaced(data: map<string, Json>, f: Foreign)
    requires Get(data, "api_url") != JNull && Blank(Get(data, "api_url"), f)
    ensures ContextFromDocument(data, f) == Err(UrlMissing)
  {
    assert RawUrls(data).0 == Get(data, "api_url");
  }

  /** Top-level `machine_name` wins over `machine.name`. */
  lemma TopLevelMachineNameWins(data: map<string, Json>, f: Foreign)
    requires Get(data, "machine_name").JString? && Strip(Get(data, "machine_name").s) != []
    ensures MachineNameOf(data, f) == Strip(Get(data, "machine_name").s)
  {
  }

  // ---------------------------------------------------------------------------
  // Expiry gate

  /** The gate `require_auth` applies before checking expiry: a username that
      is present, non-empty and not a robot name. */
  predicate ChecksExpiry(user: AuthUser) {
    user.username.Some? && user.username.value != "" && !StartsWith(user.username.value, "robot:")
  }

  /** `require_auth`: loads the context and raises `TokenExpired` when the gate
      holds and the context has expired at `checkNow`; otherwise returns the
      loaded context (or its error) unchanged. `loadNow` and `checkNow` are the
      clock readings of the load and of `is_expired`. */
  function RequireAuth(src: Sources, f: Foreign, loadNow: int, checkNow: int): (r: Result<AuthContext, AuthError>)
    ensures LoadAuthContext(src, f, loadNow).Err? ==> r == LoadAuthContext(src, f, loadNow)
    ensures r == Err(TokenExpired) <==>
      && LoadAuthContext(src, f, loadNow).Ok?
      && var u := LoadAuthContext(src, f, loadNow).value.user.username;
      && u.Some? && u.value != "" && !StartsWith(u.value, "robot:")
      && IsExpired(LoadAuthContext(src, f, loadNow).value, checkNow)
    ensures r != Err(TokenExpired) ==> r == LoadAuthContext(src, f, loadNow)
  {
    var ctx :- LoadAuthContext(src, f, loadNow);
    if ChecksExpiry(ctx.user) && IsExpired(ctx, checkNow) then Err(TokenExpired) else Ok(ctx)
  }

  /** Runner contexts are never rejected for expiry, whatever the clock says. */
  lemma RobotNeverExpires(src: Sources, f: Foreign, loadNow: int, checkNow: int)
    requires HasRunnerContext(src.db, src.pid)
    ensures RequireAuth(src, f, loadNow, checkNow) == LoadAuthContext(src, f, loadNow)
  {
    var row := LoadRunnerContext(src.db, src.pid).value;
    var robot := AuthUser(None, Some(RobotUsername));
    assert StartsWith(RobotUsername, "robot:");
    assert !ChecksExpiry(robot);
  }

  /** A valid credential file whose expiry lies after `checkNow` passes the gate
      and the context returned is not expired. */
  lemma FutureExpiryAccepted(src: Sources, f: Foreign, loadNow: int, checkNow: int)
    requires !HasRunnerContext(src.db, src.pid)
    requires LoadAuthContext(src, f, loadNow).Ok?
    requires checkNow < Instant(LoadAuthContext(src, f, loadNow).value.expiresAt)
    ensures RequireAuth(src, f, loadNow, checkNow) == LoadAuthContext(src, f, loadNow)
    ensures !IsExpired(RequireAuth(src, f, loadNow, checkNow).value, checkNow)
  {
  }

  /** As written, a credential file without a `username` is never checked for
      expiry: an expired file-based context is returned as valid. */
  lemma ExpiredWithoutUsernameAccepted(src: Sources, f: Foreign, loadNow: int, checkNow: int)
    requires !HasRunnerContext(src.db, src.pid)
    requires src.authFile.Parsed? && src.authFile.doc.JObject?
    requires !Get(src.authFile.doc.fields, "user").JObject?
    requires LoadAuthContext(src, f, loadNow).Ok?
    requires IsExpired(LoadAuthContext(src, f, loadNow).value, checkNow)
    ensures RequireAuth(src, f, loadNow, checkNow).Ok?
    ensures IsExpired(RequireAuth(src, f, loadNow, checkNow).value, checkNow)
  {
    var ctx := LoadAuthContext(src, f, loadNow).value;
    assert ctx.user == AuthUser(None, None);
  }

  /** As written, an expired credential file passes whenever its username is
      absent, empty or `robot:`-prefixed: `{"user": {}}`, `"username": ""` and
      `"username": "robot:x"` are all returned as valid. */
  lemma ExpiredUncheckedUsernamesAccepted(src: Sources, f: Foreign, loadNow: int, checkNow: int)
    requires LoadAuthContext(src, f, loadNow).Ok?
    requires var u := LoadAuthContext(src, f, loadNow).value.user.username;
      u.None? || u.value == "" || StartsWith(u.value, "robot:")
    ensures RequireAuth(src, f, loadNow, checkNow) == LoadAuthContext(src, f, loadNow)
  {
  }

  /** The gate as the surrounding comments describe it: every identity except a
      robot one is checked for expiry, whether or not it has a username. */
  predicate ChecksExpiryIntended(user: AuthUser) {
    !(user.username.Some? && StartsWith(user.username.value, "robot:"))
  }

  /** `require_auth` with the intended gate. */
  function RequireAuthChecked(src: Sources, f: Foreign, loadNow: int, checkNow: int): (r: Result<AuthContext, AuthError>)
    ensures LoadAuthContext(src, f, loadNow).Err? ==> r == LoadAuthContext(src, f, loadNow)
    ensures r == Err(TokenExpired) <==>
      && LoadAuthContext(src, f, loadNow).Ok?
      && ChecksExpiryIntended(LoadAuthContext(src, f, loadNow).value.user)
      && IsExpired(LoadAuthContext(src, f, loadNow).value, checkNow)
    ensures r != Err(TokenExpired) ==> r == LoadAuthContext(src, f, loadNow)
    ensures r.Ok? && !IsExpired(r.value, checkNow) ==> r == RequireAuth(src, f, loadNow, checkNow)
  {
    var ctx :- LoadAuthContext(src, f, loadNow);
    if ChecksExpiryIntended(ctx.user) && IsExpired(ctx, checkNow) then Err(TokenExpired) else Ok(ctx)
  }

  /** With the intended gate, every developer-mode context returned is
      unexpired at `checkNow` unless the file itself claims a robot name (with
      or without a username), and runner contexts are exempt exactly as before. */
  lemma CheckedDeveloperContextsUnexpired(src: Sources, f: Foreign, loadNow: int, checkNow: int)
    requires RequireAuthChecked(src, f, loadNow, checkNow).Ok?
    ensures var ctx := RequireAuthChecked(src, f, loadNow, checkNow).value;
      !HasRunnerContext(src.db, src.pid) && !(ctx.user.username.Some? && StartsWith(ctx.user.username.value, "robot:"))
      ==> !IsExpired(ctx, checkNow)
    ensures HasRunnerContext(src.db, src.pid) ==> RequireAuthChecked(src, f, loadNow, checkNow) == RequireAuth(src, f, loadNow, checkNow)
  {
    if HasRunnerContext(src.db, src.pid) {
      RobotNeverExpires(src, f, loadNow, checkNow);
      assert StartsWith(RobotUsername, "robot:");
    }
  }
}
