# HTTP bridge to a redis store: listener registry, command routing, reply shaping

This project models the request-handling core of a small HTTP front end to a
redis store, `omg/redis/app.py`. It covers three sequential pieces of that file:

- **The listener registry** (`Listeners`, `ListenerLaws`). The `/listener/add` and
  `/listener/remove` routes keep a map from subscription id to the pop worker
  that serves the subscription. `add` accepts only the `lpop` and `rpop` events.
  It refuses with `already_active` while a live worker holds the id. Otherwise it
  starts a fresh worker and stores it over any stale entry. `remove` sets the
  stored worker's `shutdown` flag and replies `ok`. It does this whether or not
  the worker is still alive, and it never deletes the entry. An id with no entry
  gets `already_inactive`. A worker's thread is represented by its `alive` bit.
  The environment step `WorkerExit` turns that bit off.
- **Command routing** (`Commands`). The `/<command>` route maps the command name
  through the alias table `command_methods`, falling back to the command itself.
  It then calls the handler of the resolved name, passing it the original
  command name, which the generic pop and push handlers use to pick the redis
  method.
- **Reply shaping** (`Responses`). `ok` builds the `{"status": "ok"}` reply. Its
  `result` field is absent, JSON `null`, or the value (bytes decoded to text).
  `pop_generic` unwraps a blocking pop's `(key, element)` tuple to its element
  and answers `null` for a falsy value.

Every operation is one sequential step on immutable values. `Wrappers` holds the
`Option` and `Result` types. The model describes no threads.

Behaviour of the code worth noting:

- `remove` replies `ok` for any id that has an entry, even when its worker has
  already terminated (app.py:101-105). It does not reply `already_inactive` in
  that case.
- `add` does not check that the key or endpoint are non-empty (app.py:111-124).
- `add`'s lookup and insert are not under a lock (app.py:116-123).

## Model

| member | source | states |
|---|---|---|
| Listeners.ParseEvent | omg/redis/app.py:111-112 | an event is accepted exactly when it is `lpop` or `rpop`, and the accepted event spells back to the request string |
| Listeners.EventRoundTrip | omg/redis/app.py:111-112 | both supported events pass the event validation as themselves |
| Listeners.ReplyText | omg/redis/app.py:100-124 | each reply of the listener route is a newline-terminated line, and distinct replies read back as distinct statuses |
| Listeners.Add | omg/redis/app.py:109-124 | an unsupported event fails with nothing changed; a live worker under the id gives `already_active` with the registry unchanged; otherwise `ok`, and the id maps to a worker with the given event, key and endpoint, not shut down and alive, while every other id keeps its entry |
| Listeners.Remove | omg/redis/app.py:100-107 | no entry gives `already_inactive` with the registry unchanged; an entry gives `ok`, sets only that entry's shutdown flag, keeps its liveness and keeps the key set |
| Listeners.WorkerExit | omg/redis/app.py:117-118 | a worker's exit changes only that worker's liveness and never the key set |
| Listeners.Listener | omg/redis/app.py:96-124 | the route fails exactly for an action other than `remove`/`add`, or for `add` with an unsupported event; `remove` never fails |
| ListenerLaws.NextKeys | omg/redis/app.py:96-124 | a single step adds the id to the key set for a valid `add` and leaves the key set alone otherwise |
| ListenerLaws.RunKeys | omg/redis/app.py:96-124 | over any sequence of adds, removes and worker exits, the key set is the initial one plus exactly the ids of the valid adds |
| ListenerLaws.RunKeysGrow | omg/redis/app.py:96-124 | no sequence of steps removes a key from the registry |
| ListenerLaws.RunWellFormed | omg/redis/app.py:121-123 | every worker stays stored under its own subscription id across any sequence of steps |
| ListenerLaws.AddTwice | omg/redis/app.py:116-124 | a repeated identical `add` while the first worker lives gives `already_active` and changes nothing, so one id never gets two live workers |
| ListenerLaws.AddToLiveIsNoop | omg/redis/app.py:116-119 | an `add` on an id with a live worker either fails validation or is a no-op, whatever its event, key and endpoint |
| ListenerLaws.RemoveTwice | omg/redis/app.py:100-105 | `remove` is idempotent on the registry, and the second call still finds the entry and replies `ok` |
| ListenerLaws.RemoveThenAdd | omg/redis/app.py:101-119 | after `remove` the subscription is no longer running, and a re-`add` is refused while the flagged worker is still alive |
| ListenerLaws.ReAddAfterExit | omg/redis/app.py:116-124 | once the worker has exited, `add` succeeds and installs a running worker |
| ListenerLaws.Lifecycle | omg/redis/app.py:96-124 | for a fresh id, add, then remove, then exit leave it running, then stopping, then terminated |
| ListenerLaws.RemoveIgnoresEvent | omg/redis/app.py:100-107 | `remove` reads only the id: its result does not depend on the event field and it never fails |
| ListenerLaws.RejectedAddLeavesRegistry | omg/redis/app.py:111-116 | an `add` with an unsupported event fails and leaves the registry as it was, even when the id's worker is terminated |
| Commands.ResolveMethod | omg/redis/app.py:25-37 | `del` resolves to `delete`, the four pop commands to `pop_generic`, the two push commands to `push_generic`, and every other command to itself |
| Commands.Execute | omg/redis/app.py:35-38 | a command reaches a data handler exactly when it is an alias in the table or a handler's own name |
| Commands.AliasesResolve | omg/redis/app.py:25-33 | every target of the alias table is an existing handler |
| Commands.ResolveIdempotent | omg/redis/app.py:25-37 | resolving a resolved name changes nothing |
| Commands.PopRouting | omg/redis/app.py:25-38 | the pop handler is reached exactly by `lpop`, `rpop`, `blpop`, `brpop` and its own name |
| Commands.PushRouting | omg/redis/app.py:25-38 | the push handler is reached exactly by `lpush`, `rpush` and its own name |
| Commands.DeleteRouting | omg/redis/app.py:25-38 | the delete handler is reached exactly by `del` and `delete` |
| Commands.DirectRouting | omg/redis/app.py:35-38 | `set`, `get` and `expire` are reached only under their own names |
| Responses.Ok | omg/redis/app.py:40-53 | status is always `ok`; `result` is present exactly when a value is given, null exactly when no value is given and the null flag is set, absent otherwise; bytes are placed decoded |
| Responses.OkRoundTrip | omg/redis/app.py:40-49 | the value given to `ok` is the value a client reads back from `result` |
| Responses.PopResponse | omg/redis/app.py:71-83 | a falsy pop value yields a null `result`; a tuple of two or more yields its second element; any other truthy value yields itself; a one-element tuple raises |
| Responses.RedisPopReplies | omg/redis/app.py:76-83 | a missing element answers null, a non-empty element answers its decoded bytes, and a blocking pop's pair answers its element |
| Responses.EmptyElementReadsAsNull | omg/redis/app.py:76-83 | as written, popping an empty element gives the same reply as popping an empty list, while a blocking pop returns it |
| Responses.PopResponseIntended | omg/redis/app.py:76-83 | with the `None` test, `result` is null exactly for a missing value and every element is read back as popped |
| Responses.IntendedPopDistinguishesElements | omg/redis/app.py:76-83 | the corrected reply tells every element, the empty one included, apart from an empty list, and agrees with the code on every truthy value |
| Responses.GetAlwaysHasResult | omg/redis/app.py:59-61 | the `get` reply always carries `result`, null exactly for a missing key |
| Responses.BareOkHasStatusOnly | omg/redis/app.py:40-53 | `ok()` with no value and no null flag is `status` alone |

## Left out

- Flask routing, reading the request JSON, `make_response`, headers and JSON serialisation (app.py:8, 36, 51-52, 127-134) are HTTP plumbing. Requests arrive already parsed.
- A missing `id`, `event`, `data.key` or `endpoint` field raises `KeyError` in the source. That belongs to request parsing, so it is not modelled.
- The redis client, its configuration from the environment, and the `set`/`get`/`push`/`delete`/`expire` calls (app.py:18-23, 55-69, 85-94) wrap a library that is not part of this model. Only the reply shaping of `get` and of the bare `ok()` is modelled.
- `RLPopThread` is not part of this model: its blocking-pop loop, its callback delivery and its thread start. Liveness is the `alive` field, and the environment step `WorkerExit` switches it off.
- The unguarded add/add race on one id (app.py:116-123) is a concurrency matter. All steps are sequential.
- Commands.Execute: any resolved name that is not one of the six data handlers counts as one error. In the source, such a name may raise `AttributeError` or `TypeError`, or may call a non-handler method such as `ok`.
- Commands.Execute: the command names `pop_generic` and `push_generic` reach their handler, which then passes that name to the redis client (app.py:67, 75) and fails there with `AttributeError`, because the client has no method of that name. The model stops at the handler that is reached.
- Listeners.Listener: the two `assert` statements (app.py:109, 112) are taken to be active. Under `python -O` they are removed, and then any action other than `remove` takes the `add` path and any event is accepted. Subscription ids are taken to be strings. The source accepts any JSON value as `req['id']`, and equal hash keys such as `1`, `1.0` and `true` would share one entry.
- Responses.Ok: UTF-8 decoding is the tag `Decoded`. A decoding failure (`UnicodeDecodeError`) is not modelled.

## Findings

| source | as written | input that shows it | evidently intended | confidence | as-written member | corrected member |
|---|---|---|---|---|---|---|
| omg/redis/app.py:77 | `if val:` treats every falsy pop value as "nothing popped" | `lpop` of a list whose head element is the empty string returns `b''`. The reply is `{"status": "ok", "result": null}`, the same as for an empty list. `blpop` of the same element replies `""` | `if val is not None:`, so that only a missing value answers null | medium, not executed | Responses.EmptyElementReadsAsNull | Responses.PopResponseIntended |
