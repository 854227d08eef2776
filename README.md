# bv.runtime identity resolution, activation guard and span emission

A Dafny model of the core of the `bv.runtime` package:

- **Identity resolution** (`auth.py`). `load_auth_context` first looks for a runner row keyed by the process id in the runner's sqlite store. If there is one, it synthesises a robot context with a one-year validity. If there is none, it reads the developer credential file (`auth.json`). That path checks the URLs, the access token and the expiry in a fixed order, and each failure has its own error kind. `require_auth` then rejects an expired context, but only when the username is non-empty and not a `robot:` name.
- **Activation guard** (`_guard.py`). `require_bv_run` lets the runtime run only when `BV_SDK_RUN` is exactly `"1"` or a runner context exists.
- **Span emission** (`tracing.py`). `record_span` applies the guard, and a guard failure propagates. It does nothing when `BV_JOB_EXECUTION_ID` is unset or empty. Otherwise it fills in the start time and the duration, builds a one-span payload keyed by the execution id, and posts it. Client failures are swallowed. `trace_span` captures its start time at construction. On exit it records the span with status `"ok"` or `"error"`, and it never suppresses the block's exception.

Every I/O result is an input to the model:

- the runner database: no file, a file that cannot be opened or queried, or its rows in scan order;
- the credential file: absent, unreadable or not JSON, or the parsed document;
- the environment, as a map;
- the clock, as UTC microseconds;
- the fresh `uuid4` text;
- whether the orchestrator client can be constructed and whether its request returns normally.

Standard-library behaviour the model does not spell out is a parameter (`PyData.Foreign`):

- `str()` of numbers and containers;
- `int()` of a string;
- the grammar of `datetime.fromisoformat`.

Files: `common.dfy` (Option, Result, Outcome), `pytext.dfy` (`str.strip`, `rstrip`, `startswith`), `pydata.dfy` (JSON values, truthiness, `dict.get`, `str()`/`int()`, datetimes, environment), `auth.dfy`, `guard.dfy`, `tracing.dfy`.

Behaviour of the code that is easy to misread, which the model keeps as written:

- `_normalize_base_url("/")` returns `""`, so a resolved URL can be empty; only the no-trailing-slash property holds (`Auth.NormalizeAllSlashes`, `Auth.LoadAuthContext`).
- Runner columns pass through `str()`, so a NULL column arrives as the text `"None"`. `"runner-machine"` replaces only an empty machine name.
- `orchestrator_url` replaces `api_url`/`ui_url` only when those keys are absent or null, not when they are blank.
- `require_auth` skips the expiry check when the username is missing or empty (see Findings).

## Model

| member | source | states |
|---|---|---|
| `PyText.Strip` | bv-runtime/src/bv/runtime/auth.py:94 | `str.strip()`: the result has no whitespace at either end, and it is empty exactly when every input character is whitespace; its content is fixed by `PyText.StripIsInfix` |
| `PyText.StripIsInfix` | bv-runtime/src/bv/runtime/auth.py:94 | `str.strip()` keeps exactly the infix of the input that follows its leading whitespace: everything before and after that infix is whitespace |
| `PyText.RTrim` | bv-runtime/src/bv/runtime/auth.py:97 | `str.rstrip(chars)`: the result is a prefix of the input, does not end in a dropped character, and everything removed was a dropped character |
| `PyText.LTrim` | bv-runtime/src/bv/runtime/auth.py:94 | the leading half of `strip()`: the result is a suffix of the input, does not start with a dropped character, and everything removed was a dropped character |
| `PyText.StripIdempotent` | bv-runtime/src/bv/runtime/auth.py:84 | stripping an already stripped string changes nothing |
| `PyData.Get` | bv-runtime/src/bv/runtime/auth.py:130-131 | `dict.get`: a present key reads its stored value (an explicit null reads as `None`), and a missing key reads as `None` |
| `PyData.StrOrEmpty` | bv-runtime/src/bv/runtime/auth.py:140 | `str(v or "")`: every falsy value gives `""`, and every truthy value gives its `str()` (`PyData.PyStr`), so a string gives itself and `12345` gives `"12345"` |
| `PyData.PyStr` | bv-runtime/src/bv/runtime/auth.py:177 | `str(v)`: `None` renders as `"None"`, booleans as `"True"`/`"False"`, and a string as itself |
| `PyData.PyInt` | bv-runtime/src/bv/runtime/auth.py:163-168 | `int(v)`: integers convert exactly, booleans give 1 and 0, floats truncate toward zero, and null or containers fail with `None` instead of raising |
| `PyData.AssumeUtc` | bv-runtime/src/bv/runtime/auth.py:88-89 | a naive datetime gets the UTC offset and keeps its wall clock, so its instant is that wall clock; an aware one is unchanged |
| `PyData.UtcNow` | bv-runtime/src/bv/runtime/tracing.py:12-13 | a clock reading is an aware UTC datetime denoting that instant |
| `PyData.EnvGet` | bv-runtime/src/bv/runtime/_guard.py:8 | `os.environ.get`: some value exactly when the variable is set, and then that variable's value |
| `Auth.SqlStr` | bv-runtime/src/bv/runtime/auth.py:68-71 | `str()` of a column: NULL gives `"None"` and text gives itself |
| `Auth.FirstRowFor` | bv-runtime/src/bv/runtime/auth.py:58-61 | `fetchone()` for `WHERE pid = ?`: none exactly when no row has the pid; otherwise the index of a matching row with no match before it |
| `Auth.LoadRunnerContext` | bv-runtime/src/bv/runtime/auth.py:52-72 | `None` exactly when the file is absent, opening or querying fails, or no row has this pid; otherwise a matching row with all four columns coerced to text |
| `Auth.HasRunnerContext` | bv-runtime/src/bv/runtime/auth.py:75-76 | true exactly when a usable database has a row for this pid |
| `Auth.NullColumnBecomesNoneText` | bv-runtime/src/bv/runtime/auth.py:66-72 | NULL `execution_id` and `machine_name` columns arrive as the text `"None"`, not as missing values |
| `Auth.NormalizeBaseUrl` | bv-runtime/src/bv/runtime/auth.py:93-97 | raises `UrlMissing` exactly when the stripped input is empty; otherwise the result is a prefix of the stripped input, never ends in `/`, and only `/` characters were removed |
| `Auth.NormalizeAllSlashes` | bv-runtime/src/bv/runtime/auth.py:93-97 | an all-slash URL normalises to the empty string without error |
| `Auth.NormalizeIdempotent` | bv-runtime/src/bv/runtime/auth.py:93-97 | normalising a normalised URL again gives the same URL, unless the result is empty or removing the slashes exposed trailing whitespace |
| `Auth.IsoText` | bv-runtime/src/bv/runtime/auth.py:84-86 | the text given to `fromisoformat` never ends in `Z`: it is the stripped input, or, when that ends in `Z`, the same text with the `Z` replaced by `+00:00` |
| `Auth.ParseIso8601` | bv-runtime/src/bv/runtime/auth.py:83-90 | fails exactly when `fromisoformat` fails on the rewritten text; otherwise the result is always aware and keeps the parsed wall clock and offset, with a naive parse read as UTC |
| `Auth.ExpiryStrippedOnce` | bv-runtime/src/bv/runtime/auth.py:146-151 | stripping `expires_at` before `_parse_iso8601` strips it again does not change the result |
| `Auth.IsExpired` | bv-runtime/src/bv/runtime/auth.py:32-37 | expired exactly when `now` is at or past the expiry instant; a naive expiry is compared as UTC |
| `Auth.RunnerAuthContext` | bv-runtime/src/bv/runtime/auth.py:104-113 | fails only with `UrlMissing` on a blank URL. Otherwise API and UI URL are both the normalised row URL, the token is the row's, the user is `(None, "robot:runner")`, the expiry is now plus 365 days (UTC), the execution id is the row's, and the machine name is the row's or `"runner-machine"` when that is empty |
| `Auth.RawUrls` | bv-runtime/src/bv/runtime/auth.py:130-138 | each URL is its own key's value when not null, otherwise `orchestrator_url` |
| `Auth.MachineNameOf` | bv-runtime/src/bv/runtime/auth.py:157-161 | never empty; a non-null top-level `machine_name` wins, stripped; otherwise a non-null `machine.name` of an object `machine`, stripped; a blank name, or no name at all, becomes `"<unknown>"` |
| `Auth.UserOf` | bv-runtime/src/bv/runtime/auth.py:155-178 | a non-object `user` gives `(None, None)`; otherwise the id is `int()` of a non-null `id` (`None` when that fails), and the username is `str()` of a non-null `username` |
| `Auth.ContextFromDocument` | bv-runtime/src/bv/runtime/auth.py:129-183 | fails only with URL, token or expiry errors. On success the URLs are the normalised raw URLs, the token is stripped and non-blank, the expiry is the parse of the stripped `expires_at`, the user and machine name follow `UserOf`/`MachineNameOf`, there is no execution id, and the context is well formed |
| `Auth.DeveloperErrorOrder` | bv-runtime/src/bv/runtime/auth.py:140-153 | URL errors come before the token check, which comes before the missing-expiry check, which comes before the ISO 8601 check; a document passing all four succeeds |
| `Auth.DeveloperAuthContext` | bv-runtime/src/bv/runtime/auth.py:116-127 | a missing file gives `NotAuthenticated`, an unreadable or non-JSON file `InvalidAuthFile`, and a non-object document `NotJsonObject`; an object document gives exactly what `ContextFromDocument` gives for its fields |
| `Auth.LoadAuthContext` | bv-runtime/src/bv/runtime/auth.py:100-183 | with a runner row the result is the runner context of that row; without one it is the developer-mode result for the credential file; every context returned is well formed (URLs without a trailing slash, machine name non-empty, expiry aware), and it has an execution id exactly when a runner row exists |
| `Auth.RunnerTakesPrecedence` | bv-runtime/src/bv/runtime/auth.py:103-113 | with a runner row, the credential file and the foreign behaviour do not affect the result; it is the runner context |
| `Auth.NoSourceNotAuthenticated` | bv-runtime/src/bv/runtime/auth.py:116-118 | no runner row and no file gives `NotAuthenticated` |
| `Auth.OrchestratorUrlOnly` | bv-runtime/src/bv/runtime/auth.py:133-141 | a document with only `orchestrator_url` yields equal API and UI URLs, both that URL normalised |
| `Auth.BlankUrlNotReplaced` | bv-runtime/src/bv/runtime/auth.py:134-140 | a present but blank `api_url` (empty, whitespace, or any falsy value) is not replaced by `orchestrator_url` and fails with `UrlMissing` |
| `Auth.TopLevelMachineNameWins` | bv-runtime/src/bv/runtime/auth.py:157-161 | a non-blank top-level `machine_name` is used, stripped, whatever `machine.name` holds |
| `Auth.RequireAuth` | bv-runtime/src/bv/runtime/auth.py:186-198 | load errors pass through; `TokenExpired` exactly when the load succeeded, the loaded username is non-empty and not `robot:`-prefixed, and the context is expired; every other result is the load result unchanged |
| `Auth.RobotNeverExpires` | bv-runtime/src/bv/runtime/auth.py:195 | with a runner row, `require_auth` returns whatever loading returned, at any clock reading |
| `Auth.FutureExpiryAccepted` | bv-runtime/src/bv/runtime/auth.py:193-198 | a loaded developer context whose expiry is after the check time is returned and is not expired |
| `Auth.ExpiredWithoutUsernameAccepted` | bv-runtime/src/bv/runtime/auth.py:195-196 | as written, an expired developer context without a `user` object is returned as valid |
| `Auth.ExpiredUncheckedUsernamesAccepted` | bv-runtime/src/bv/runtime/auth.py:195-198 | as written, a loaded context whose username is absent, empty or `robot:`-prefixed is returned unchanged whatever the clock says |
| `Auth.RequireAuthChecked` | bv-runtime/src/bv/runtime/auth.py:186-198 | the corrected gate: load errors pass through; `TokenExpired` exactly when the load succeeded, the username is not `robot:`-prefixed (an absent or empty one is checked), and the context is expired; every other result is the load result unchanged, and it agrees with `RequireAuth` on every unexpired context |
| `Auth.CheckedDeveloperContextsUnexpired` | bv-runtime/src/bv/runtime/auth.py:194-197 | with the corrected gate, every developer context returned without a `robot:` name is unexpired, and runner results are the same as before |
| `Guard.RequireBvRun` | bv-runtime/src/bv/runtime/_guard.py:7-9 | passes exactly when `BV_SDK_RUN` is `"1"` or a usable runner database has a row for this pid; otherwise fails with `NotActivated` |
| `Guard.MarkerShortCircuits` | bv-runtime/src/bv/runtime/_guard.py:8 | with the marker `"1"`, the runner store cannot influence the verdict, which is pass |
| `Guard.RunnerContextSuffices` | bv-runtime/src/bv/runtime/_guard.py:8 | a runner row lets the guard pass whatever the marker says |
| `Guard.OtherMarkersRefused` | bv-runtime/src/bv/runtime/_guard.py:8-9 | without a runner row, `"true"`, `"0"` and an absent marker all fail |
| `Tracing.ExecutionId` | bv-runtime/src/bv/runtime/tracing.py:108-115 | some id exactly when `BV_JOB_EXECUTION_ID` is set and non-empty, and then its value |
| `Tracing.Elapsed` | bv-runtime/src/bv/runtime/tracing.py:39 | `end - start` fails exactly when one operand is naive and the other aware; otherwise it is the instant difference (aware) or the wall difference (naive) |
| `Tracing.WholeMillis` | bv-runtime/src/bv/runtime/tracing.py:39 | whole milliseconds truncated toward zero: within one millisecond of the input, and never farther from zero |
| `Tracing.SpanDuration` | bv-runtime/src/bv/runtime/tracing.py:36-39 | an explicit non-zero duration, or any duration without an end time, is kept; otherwise (no or zero duration, an end time) it is the whole milliseconds of `end - start`, and the mixed naive/aware subtraction, which raises `TypeError`, is the only failure |
| `Tracing.RecordSpan` | bv-runtime/src/bv/runtime/tracing.py:30-65 | `GuardRefused` exactly when the guard fails; no execution id means a silent return with nothing sent. Otherwise the naive/aware `TypeError` of the duration (`NaiveAwareSubtraction`, raised before the `try`) escapes exactly when `SpanDuration` fails, and in every other case it sends one POST to `/api/agent-traces/{id}/spans` with `traceId` equal to the id and exactly one span, returning normally whether or not the client raised |
| `Tracing.SpanFieldsPassThrough` | bv-runtime/src/bv/runtime/tracing.py:36-58 | name, status, parent, input, output, metadata, tags and end time are sent unchanged; `spanId` is the freshly drawn id; the start is the given one or `now` |
| `Tracing.ClientFailureSwallowed` | bv-runtime/src/bv/runtime/tracing.py:60-65 | a client that fails to construct or to send leaves the call successful with the same request; only delivery differs |
| `Tracing.DurationDerived` | bv-runtime/src/bv/runtime/tracing.py:38-39 | with no (or zero) duration and aware start and end, `durationMs` is the whole milliseconds of `end - start` |
| `Tracing.DurationKept` | bv-runtime/src/bv/runtime/tracing.py:38-51 | an explicit non-zero duration is sent as given; with no end time, `endTime` is null and the duration is as passed |
| `Tracing.TraceSpan.constructor` | bv-runtime/src/bv/runtime/tracing.py:71-84 | stores name, parent and tags; the metadata defaults to an empty map; the start is the construction-time clock reading; a span id is drawn |
| `Tracing.TraceSpan.Exit` | bv-runtime/src/bv/runtime/tracing.py:89-105 | never suppresses; only the guard's refusal escapes. The span has status `"error"` and the metadata plus `"error"` set to the exception text when the block raised, else `"ok"` and the metadata as is. It sends the construction-time start, the exit-time end and the freshly drawn id, not the stored `span_id`, and it leaves the object unmodified |

## Left out

- Path resolution (`_auth_dir`, `_runner_db_path`, `auth_file_path`, the `BV_AUTH_DIR` override, `Path.home`): file-system I/O. The database and the credential file the process would find are inputs.
- The sqlite connection and query, file reading and `json.loads`: I/O. Their outcomes are the constructors of `Auth.RunnerDb` and `Auth.AuthFile`.
- Rendering by `str()` of numbers, blobs and JSON containers, `int()` of a string, and the grammar of `datetime.fromisoformat`: these are standard-library behaviour, so they are parameters (`PyData.Foreign`, `Auth.SqlValue.SqlOther`).
- `datetime.isoformat()` rendering: payload times stay datetimes.
- `datetime.now` and `uuid.uuid4`: parameters. Randomness and uniqueness of ids are not modelled.
- `OrchestratorClient` and its HTTP transport: outside the core. Only whether its construction and its request return normally is modelled (`Tracing.Client`).
- Tracing.Elapsed: each datetime carries one fixed UTC offset. Python subtracts two datetimes that share a `tzinfo` object by wall clock, so across a daylight-saving change in a zone such as `ZoneInfo("Europe/Berlin")` the source's duration differs from the model's.
- PyData.Json: the `NaN`, `Infinity` and `-Infinity` values that `json.loads` accepts are not modelled (in the source `int()` of them fails, giving a `None` user id, and `str()` renders them as `"nan"` and `"inf"`).
- Tracing.WholeMillis: does not model float rounding in `total_seconds() * 1000`; time is integer microseconds with truncation toward zero.
- Tracing.TraceSpan.constructor: the source keeps the caller's tags list, and a non-empty metadata dict, by reference (an empty dict is replaced by a fresh `{}`), and `__exit__` copies the metadata only at exit. The model stores values, so changes made through the caller's reference after construction (which the source would send) are not modelled.
- Tracing.TraceSpan.Exit: the exception is its `str()` text. The body's exception propagating after `__exit__` returns false is stated as `suppress == false`.
- `__enter__` returns the object itself and is not modelled.
- PyText.Strip: whitespace is the character set of `str.isspace`, written out as a fixed list.
- Exact error-message text: only the error kinds are distinguished.
- The `assets`, `queue`, `logging` and `client` modules re-exported by `__init__.py`: not part of this model.

## Findings

| source | as written | input that shows it | evidently intended | confidence | as-written member | corrected member |
|---|---|---|---|---|---|---|
| bv-runtime/src/bv/runtime/auth.py:195 | the expiry check runs only when `user.username` is non-empty and not `robot:`-prefixed | a credential file with valid URLs and token, a past `expires_at` and no `user` object: `require_auth` returns the expired context | the comment and docstring limit the exemption to robot identities, so every context without a `robot:` username, including one with no username, should be expiry-checked | medium, not executed | `Auth.RequireAuth`, `Auth.ExpiredWithoutUsernameAccepted` | `Auth.RequireAuthChecked`, `Auth.CheckedDeveloperContextsUnexpired` |
