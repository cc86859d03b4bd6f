# flask-sample: rate limiter and todo validation, in Dafny

This project models two pieces of the flask-sample todo API.

- **The fixed-window rate limiter** (`api/rate_limit.py`). `FakeRedis` is the in-memory counter store: a key to count dictionary plus the last key incremented. `RateLimit` computes the end of the current window, `reset = (now // per) * per + per`, and the counter key `key_prefix + str(reset)`. It increments that key once through the store's pipeline and reports `current = min(count, limit)`, `remaining = limit - current` and `over_limit = current >= limit`.
- **The todo payload validator** (`api/models.py`). `Todo.from_json` copies `name` and then `task` from the request payload. It raises a validation error naming the first missing key. `Todo.to_json` builds the four-key public record. `User.password` can be set but not read.

Files:

- `wrappers.dfy` holds `Option` and `Result`. A `Failure(message)` stands for a raised exception.
- `decimal.dfy` models Python's `str()` of a non-negative integer. It also proves that reading the text back gives the number, so different resets give different keys.
- `rate_limit.dfy` has three parts:
  - the window arithmetic as functions;
  - the counter store as map values (`Increment`, and `Run` for a sequence of checks), with the window lemmas;
  - the two classes `FakeRedis` and `RateLimit`, whose constructor is specified by those functions.
- `models.dfy` has three parts:
  - `ApplyPayload`, the effect of `from_json` as a function;
  - the `Todo` class, whose `FromJson` method performs the two assignments in order and is proved equal to `ApplyPayload`;
  - the `User` class.

The wall clock `int(time.time())` is the parameter `now`. The store is passed to the `RateLimit` constructor as an object. The URL builder behind `get_url` is the parameter `urlFor`. The password-hashing routine and its random salt are the parameters `hash` and `salt`.

## Model

| member | source | states |
|---|---|---|
| `Decimal.DecimalRoundTrip` | api/rate_limit.py:45 | parsing `str(n)` back gives `n`, so the printed window end identifies the window end |
| `Decimal.NatToStringInjective` | api/rate_limit.py:45 | `str(m) == str(n)` exactly when `m == n` |
| `RateLimiting.Reset` | api/rate_limit.py:44 | for `per > 0`, the window end is a multiple of `per`, strictly after `now` and at most `now + per` |
| `RateLimiting.WindowKey` | api/rate_limit.py:45 | the key starts with the prefix and continues with exactly the decimal text of the window end |
| `RateLimiting.SameKeyIffSameWindow` | api/rate_limit.py:44-45 | two checks with one prefix get the same key if and only if `now // per` is the same for both |
| `RateLimiting.Capped` | api/rate_limit.py:51 | the reported count is at most the raw count and at most the limit, and equals one of them |
| `RateLimiting.Increment` | api/rate_limit.py:17-21 | `incr` raises the key's count by exactly one (an absent key ends at 1), adds the key, and leaves every other count unchanged |
| `RateLimiting.RunCountsSameWindow` | api/rate_limit.py:44-51 | N checks in one window raise that window's counter by exactly N |
| `RateLimiting.RunSkipsOtherWindows` | api/rate_limit.py:44-51 | checks in other windows never touch this window's counter |
| `RateLimiting.NthCheckInWindow` | api/rate_limit.py:44-59 | the N-th check of a window reports `current = min(N, limit)`, within `[1, limit]` when `limit >= 1`, and is over the limit exactly when `N >= limit`, that is, exactly when nothing remains |
| `RateLimiting.FirstCheckOfNewWindow` | api/rate_limit.py:17-51 | after any checks in earlier windows, whatever they counted, the first check of a new window sees a count of 1 |
| `RateLimiting.FakeRedis.constructor` | api/rate_limit.py:10-12 | a new store is empty and has no last key |
| `RateLimiting.FakeRedis.Pipeline` | api/rate_limit.py:14-15 | the pipeline is the store itself |
| `RateLimiting.FakeRedis.Incr` | api/rate_limit.py:17-21 | the dictionary becomes `Increment` of the old one at `key`, the last key becomes `key`, and every count stays at least 1 |
| `RateLimiting.FakeRedis.ExpireAt` | api/rate_limit.py:23-24 | no field of the store changes |
| `RateLimiting.FakeRedis.Execute` | api/rate_limit.py:26-27 | the reply is the one-element list holding the last key's count, which is at least 1; with no last key it is the KeyError |
| `RateLimiting.RateLimit.constructor` | api/rate_limit.py:33-51 | sets `reset` and `key` from `now`, `per` and the prefix; performs exactly one increment, on that key; sets `current` to `min(old count + 1, limit)` |
| `RateLimiting.RateLimit.Remaining` | api/rate_limit.py:53-55 | `remaining` is never negative, is at most `limit - 1` when `limit >= 1`, and is 0 exactly when the capped count has reached the limit |
| `RateLimiting.RateLimit.OverLimit` | api/rate_limit.py:57-59 | `over_limit` holds exactly when `remaining == 0` |
| `Models.MissingKey` | api/models.py:33-34 | the validation message is `Invalid todo: missing ` followed by the missing key |
| `Models.ApplyPayload` | api/models.py:29-35 | succeeds if and only if both `name` and `task` are present, and then sets both fields. A missing `name` leaves both fields unchanged. A present `name` with a missing `task` has already overwritten `name`. |
| `Models.OtherKeysIgnored` | api/models.py:31-32 | keys other than `name` and `task` make no difference to the outcome |
| `Models.PayloadWithoutNameRejected` | api/models.py:31-34 | an empty payload, or one without `name`, fails with `Invalid todo: missing name` and changes nothing |
| `Models.Todo.constructor` | api/models.py:11-16 | a new todo has no id, name, task or timestamp |
| `Models.Todo.ToJson` | api/models.py:21-27 | the record has exactly the keys `url`, `name`, `task` and `timestamp`, holding the todo's URL, fields and timestamp |
| `Models.Todo.FromJson` | api/models.py:29-35 | the new fields and the raised error are exactly those `ApplyPayload` gives for the old fields; on success the todo itself is returned |
| `Models.ToJsonFromJsonRoundTrip` | api/models.py:21-35 | applying a todo's own `to_json` record as a payload succeeds and reproduces its name and task |
| `Models.User.constructor` | api/models.py:38-42 | a new user has its username and no password hash |
| `Models.User.Password` | api/models.py:44-46 | reading the password always fails with `password is not a readable attribute` |
| `Models.User.SetPassword` | api/models.py:48-50 | setting the password changes only the hash, to the hash of the given password |

## Left out

- The real Redis client, the global lazily created store, and the `USE_RATE_LIMITS`, `TESTING` and `REDIS_*` configuration lookups (api/rate_limit.py:2, 33-42) are network I/O and framework state. The store is passed in as a `FakeRedis`.
- Expiry of counters (`expireat`) is a no-op in the in-memory store, as it is in the source. The expiry time `reset + 10` is computed and passed, but its effect in a real Redis is not modelled.
- `int(time.time())` is replaced by the parameter `now`.
- A window length `per == 0` raises ZeroDivisionError in the source. The model requires `per > 0` instead.
- Concurrency between requests is not modelled. Each check runs to completion before the next.
- Payload values are JSON scalars (null, boolean, integer, string). Floats, lists and nested objects are not modelled, and neither is a request body that is not a JSON object (the source then fails with a TypeError rather than the validation error).
- `get_url` (`url_for`) is the parameter `urlFor`, and the `datetime` timestamp is an opaque JSON value.
- `User.verify_password`, `generate_auth_token` and `verify_auth_token` call password-hashing and token-signing libraries whose code is not shown.
- The CRUD routes in api/v1_0/todos.py are database and routing glue. The error handlers and the `after_request` header hook in api/v1_0/__init__.py are framework hook registration.
- The ETag, pagination, JSON and rate-limit decorators (api/decorators.py) and the URL helper (api/helpers.py) are not part of this model. The 429 response and the `X-RateLimit-*` headers they produce are therefore not modelled.
- The Celery task and worker are background scheduling and printing.
