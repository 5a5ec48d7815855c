# TgApi bot registry, modelled in Dafny

This project models the bot registry of the `dob-tg` package, class `TgApi`
in `lib/api/tgApi.js`. The class keeps a process-wide static table `botMap`
from bot name to a node-telegram-bot-api client. It offers two operations:

- `createBot({name, config}, {throwErrorFlag = true})` registers a bot
  idempotently. If `name` is not yet in the table, it builds
  `new TelegramBot(config.token, config.options)` and stores it. If `name` is
  already there, it builds nothing and returns `true`.
- `getBot({name}, {throwErrorFlag = true})` returns the stored bot, or `null`.

Both share one error policy. When the try block throws, `throwErrorFlag`
(true by default) decides between rethrowing and returning a sentinel
(`false` or `null`).

Files:

- `Wrappers.dfy`: `Option` (with `None` for `null`) and `Outcome`
  (`Returned(value)` or `Threw`, the two ways a JavaScript call ends).
- `TgApi.dfy`: the pure specification functions `Create` and `Lookup`, with
  the registry's promises as their contracts; lemmas relating them; and the
  class `TgApi`, whose field `botMap` is updated in place by `CreateBot` and
  only read by `GetBot`.
- `TgApiHistory.dfy`: sequences of calls against the one shared table, and
  lemmas about what holds across them: entries are never replaced, only
  created names appear, lookups change nothing, and every later lookup sees
  the first registration.

The bot handle is the abstract type `Bot`. Evaluating
`new TelegramBot(config.token, config.options)` on a call is the input
`construct: Option<Bot>`. `Some(bot)` is the handle it yields. `None` means
that reading `config` or the constructor threw. The default `throwErrorFlag`
is written as a Dafny default parameter value `:= true`.

`createBot` does not validate `name` or `config`; it passes `config` straight
to the constructor (line 46). The model does not add any validation either.

## Model

| member | source | states |
|---|---|---|
| TgApi.Create | lib/api/tgApi.js:44-61 | A registered name answers true and leaves the table unchanged, whatever the construction would give. The call answers true exactly when the name is registered afterwards. A newly stored entry is the bot just built. No existing entry is removed or replaced, and no name other than `name` is added. A failed construction leaves the table unchanged. It throws exactly when the name is new, construction fails and the flag is set. It answers false exactly when the name is new, construction fails and the flag is clear. |
| TgApi.Lookup | lib/api/tgApi.js:101-102 | The answer is a bot exactly when the name is registered, and then it is the stored bot; otherwise it is `null`. |
| TgApi.LookupAfterCreate | lib/api/tgApi.js:45-50 | After a successful `createBot`, looking the name up gives the previously stored bot if there was one, else the bot just built. |
| TgApi.RegisterTwice | lib/api/tgApi.js:45-50 | After `createBot(name, c1)` succeeds on a new name, a second `createBot(name, c2)` with any construction result and any flag answers true and changes nothing. Looking the name up still gives the first bot. |
| TgApi.DefaultFlagRethrows | lib/api/tgApi.js:29-56 | With the flag left at its default, a failed construction for a new name throws and leaves the table unchanged. |
| TgApi.TgApi.constructor | lib/api/tgApi.js:8 | The registry starts empty. |
| TgApi.TgApi.CreateBot | lib/api/tgApi.js:23-66 | Updates `botMap` in place. Its answer and the new table are exactly what `Create` gives for the old table, so every promise of `Create` holds of the object. |
| TgApi.TgApi.GetBot | lib/api/tgApi.js:81-118 | Always returns, with the answer `Lookup` gives for the current table. It has no `modifies` clause, so it changes nothing. |
| TgApiHistory.ReplayKeepsEntries | lib/api/tgApi.js:45-48 | After any sequence of calls, every bot registered at the start is still registered under the same name. |
| TgApiHistory.ReplayNewNames | lib/api/tgApi.js:45-48 | After any sequence of calls, every registered name was registered at the start or is the name of a `createBot` call whose construction succeeded. |
| TgApiHistory.LookupsChangeNothing | lib/api/tgApi.js:101-102 | A sequence of `getBot` calls leaves the replayed table unchanged. This follows from how the history defines a lookup step; the guarantee about the object itself is that `TgApi.TgApi.GetBot` has no `modifies` clause. |
| TgApiHistory.LaterLookupSeesFirstBot | lib/api/tgApi.js:45-50 | Once a `createBot(name, …)` in a history answers true, every later `getBot(name)` (line 102) answers the bot stored by then. This holds whatever calls come in between, including more `createBot(name, …)` calls with other configurations. |

## Left out

- Logging: the `@dob/log` logger and its debug start/end messages are I/O through an external library.
- The `TelegramBot` constructor of node-telegram-bot-api is foreign code that may start polling. The model treats it only as a construction that yields a handle or throws (`construct`).
- TgApi.Create: `Threw` carries no error value. The model does not say which error is rethrown, only that one is.
- TgApi.TgApi.CreateBot: each `new TelegramBot` is a fresh object in JavaScript. The model takes the handle as an input and does not state that it is fresh or distinct from other stored handles.
- TgApi.TgApi.GetBot: the catch branch (rethrow or return `null`) is unreachable here, so `throwErrorFlag` has no effect in the model. For a string name and the class's own `botMap` object, the read at line 102 cannot throw. A detached call, a reassigned `TgApi.botMap` (it is a public static field, so `TgApi.botMap = null` is possible) or a name whose property-key conversion throws would reach the catch branch, and the model excludes all three.
- TgApi.Create: the same three cases also make the membership read at line 45 throw. Then `createBot` throws or returns `false` by its flag, whatever `construct` is. The model excludes them, as for `GetBot`.
- TgApi.Create: the model assumes the logger never throws. `DobLogApi.getLogger` (line 35) and the first `logger?.debug` (line 42) run before the `try`, so an error there escapes whatever the flag is. A throwing `debug` in the `finally` block (line 64) would turn a registration that already stored its bot (line 47) into a throw with the table changed. The contract's "throws exactly when" and "only a successful call changes the table" clauses hold only under this assumption.
- TgApi.Create: `throwErrorFlag` is a `bool` here. In the source only `throwErrorFlag === true` rethrows (lines 54 and 106). A non-boolean flag such as `null` or `1` gets the sentinel, and the model cannot express such a value.
- JavaScript object semantics of `botMap` are not modelled. Inherited prototype keys such as `"toString"` make `botMap[name] !== undefined` true on an empty table. Non-string names are coerced to string keys. The model uses a finite `map<string, Bot>`.
- Concurrency: the model is sequential; registration and lookup are single steps.
- Payload parsing, check-string canonicalisation and HMAC signature verification have no code in `lib/api/tgApi.js`, so nothing of them is modelled.
