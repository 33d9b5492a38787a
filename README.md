# BlogMatic usage ledger, modelled in Dafny

BlogMatic is a small Flask server that writes blog posts with an external
text-generation service. Access is metered per account: a new account gets
three free credits, each generated post costs one, and an account that has
paid through the payment provider (Paystack) is subscribed and generates
without limit. The payment provider reports payments to a webhook, which
marks the account as subscribed.

This project models that ledger:

- `ledger.dfy` (module `Ledger`) gives the two tables as values: the `users`
  map keyed by the unique email (id, password, subscribed flag, free credits),
  the append-only `blogs` sequence, and the AUTOINCREMENT id counter. It also
  holds the guards the handlers test (`OutOfCredits`, `CredentialsMatch`,
  `IsAdmin`, `IsChargeSuccess`), the effect of each writing handler as a
  function of the tables before it (`Register`, `Generate`, `Webhook`), the
  ledger invariant `Valid`, and sequential runs of requests (`Step`, `Run`).
- `ledger_properties.dfy` (module `LedgerProperties`) proves what the
  handlers promise about those functions, and the invariants every run keeps.
- `server.dfy` (module `Server`) is the server itself: class `App` holds the
  tables as fields and has one method per handler, changing the fields in
  place and returning the HTTP status. Each writing method is tied by its
  postcondition to the `Ledger` function, and keeps `Valid`.

The identity a JSON Web Token resolves to, the result of the text-generation
call (a failure, or an opaque document), the payment provider's answer to a
checkout, the topic and the timestamp all come in as parameters.

The invariant `Valid` says: user ids are unique and below the counter, every
post belongs to an id already handed out, no account's credits are negative,
and for every unsubscribed account its credits plus the number of its posts
is exactly three. From an empty database, any sequence of requests served one
after another keeps it, so an account that never subscribed has at most three
posts (`FreeAllowanceBound`).

The code is modelled as written. It has no reservation and release of
credits, no webhook signature check and no billing-customer reference; the
credit check (App.py:98) and the debit (App.py:127) are separate steps, and
the model claims nothing for concurrent requests.

## Model

| member | source | states |
|---|---|---|
| `Server.App.constructor` | App.py:37-56 | a freshly created database has no accounts, no posts, and the id counter at 1; the ledger invariant holds |
| `Server.App.Register` | App.py:59-71 | the new tables and status are those of `Ledger.Register`: a duplicate email answers 400 and writes nothing, a new one inserts a row with the column defaults; keeps the invariant |
| `Server.App.Login` | App.py:73-83 | answers 200 exactly when some account has this email and this password, 401 otherwise; writes nothing |
| `Server.App.Generate` | App.py:86-133 | the new tables and status are those of `Ledger.Generate` (404 unknown caller, 402 out of credits, 500 failed generation, 200 with one post appended and one credit taken from an unsubscribed caller); keeps the invariant |
| `Server.App.Checkout` | App.py:136-163 | 404 with no URL for an unknown caller; otherwise 500 when the provider's initialisation fails and 200 with its authorisation URL when it succeeds; writes nothing |
| `Server.App.Webhook` | App.py:166-178 | the new tables and status are those of `Ledger.Webhook`; keeps the invariant |
| `Server.App.AdminStats` | App.py:181-190 | only the admin identity gets 200, anyone else 403 and no rows; the admin's rows list every account exactly once with its current subscription flag and credits |
| `LedgerProperties.RegisterCreatesDefaultAccount` | App.py:37-66 | registering a new email adds exactly that key, with subscribed unset, three free credits, the given password and an id no other account has; other accounts and the posts are unchanged |
| `LedgerProperties.RegisterDuplicateFails` | App.py:59-71 | registering an email already present answers 400 and changes neither table |
| `LedgerProperties.RegisterThenLogin` | App.py:59-83 | after a successful registration, login for that email succeeds with exactly the registered password, and login for every other email answers as before |
| `LedgerProperties.RegisterPreservesValid` | App.py:37-66 | registration keeps the ledger invariant (the new id was never used by a post, so its three credits account for its zero posts) |
| `LedgerProperties.GenerateUnknownCaller` | App.py:89-94 | an identity without an account gets 404 and both tables stay as they are |
| `LedgerProperties.GenerateOutOfCredits` | App.py:96-99 | an unsubscribed account with no credits left gets 402, with no post and no change to any account |
| `LedgerProperties.GenerationFailureIsFree` | App.py:113-133 | whenever the generation step fails, no post is written and no credit is taken, and the status is not 200 |
| `LedgerProperties.DebitOnlyCaller` | App.py:126-130 | with unique ids, the update by the caller's id lowers that account's credits by one and changes no other account |
| `LedgerProperties.GenerateSuccess` | App.py:119-133 | a successful generation answers 200, appends exactly one post with the caller's id, topic and document, lowers the caller's credits by one if unsubscribed and not at all if subscribed, and leaves every other account and the id counter unchanged |
| `LedgerProperties.SubscribedAlwaysEntitled` | App.py:96-130 | a subscribed account passes the gate whatever its credits, and no account changes |
| `LedgerProperties.GeneratePreservesValid` | App.py:96-133 | every outcome of generate keeps the invariant; in particular credits stay non-negative because the guard precedes the debit |
| `LedgerProperties.ChargeSuccessSubscribes` | App.py:171-178 | a charge.success event answers 200, sets the subscribed flag of the named account and changes nothing else (no credits, no posts, no other account); redelivering it changes nothing further |
| `LedgerProperties.WebhookIgnoresOtherEvents` | App.py:168-178 | every other event kind answers 200 and changes nothing |
| `LedgerProperties.WebhookKeepsCredits` | App.py:166-178 | no webhook call removes an account, moves a credit or writes a post |
| `LedgerProperties.WebhookPreservesValid` | App.py:166-178 | the webhook keeps the ledger invariant |
| `LedgerProperties.StepPreservesValid` | App.py:59-190 | every request, of every kind, keeps the ledger invariant |
| `LedgerProperties.RunPreservesValid` | App.py:59-190 | any sequence of requests served one after another keeps the invariant: unique ids, credits never negative, every post of an unsubscribed account paid for |
| `LedgerProperties.StepExtends` | App.py:59-190 | one request removes no account, changes no id or password, never clears a subscribed flag (no code path writes 0) and only appends posts |
| `LedgerProperties.RunExtends` | App.py:59-190 | the same holds over any sequence of requests: a subscription once granted is never reset |
| `LedgerProperties.FreeAllowanceBound` | App.py:37-133 | from an empty database, after any sequence of requests, an unsubscribed account has non-negative credits and at most three posts |
| `LedgerProperties.ThreeFreePosts` | App.py:37-133 | a new account's three generations succeed with credits 2, 1, 0 and three posts; the fourth answers 402 and writes nothing |
| `LedgerProperties.SubscriptionLiftsLimit` | App.py:96-178 | after a charge.success event for an account with no credits, its next generation succeeds, appends one post and leaves its credits at zero |

## Left out

- HTTP routing, CORS, the static front end and the server start-up (App.py:27-31, 193-202): plumbing with no ledger state.
- Issuing and verifying JSON Web Tokens (App.py:68, 81, 87-89, 137-139, 182-184): library calls; the resolved identity is a parameter, and register and login return only their status, not the token.
- The SQLite connection, cursor and commits (App.py:34-35, 56): the tables are a map and a sequence; each handler's writes are applied together.
- The chat-completion call, the prompt text and the parsing of the reply (App.py:101-119): a foreign call, modelled as a parameter that is either a failure or an opaque document; the post's content is that document.
- The payment provider's transaction-initialisation request (App.py:145-158): an external call, modelled as a parameter that is either a failure or an authorisation URL.
- Timestamps (App.py:123): an opaque string parameter.
- Concurrency: the cursor is shared between threads (App.py:34), so two requests can both pass the check at App.py:98 before either debit at App.py:127; only sequential execution is modelled, and non-negativity is not claimed under interleaving.
- Malformed request bodies: a register body without email or password (also answered 400 by the catch-all handler), a login body without them (an uncaught error), or no JSON body at all. A webhook body without an `event` field behaves like any other ignored kind, which the model's `kind` string covers; a charge.success body without data.customer.email raises before any write and is modelled as a 500.
- The subscribed column is an INTEGER that the code only ever sets to its default 0 or to 1; it is modelled as a boolean.
- The AUTOINCREMENT ids are modelled as consecutive numbers from 1; the proofs use only that they are unique and never reused. A post's own id is its position in the sequence.
- The order of the admin statistics rows: the query has no ORDER BY, so the model states only that each account appears exactly once.
- Integer width: free_credits starts at 3 and only decreases while positive, so 64-bit overflow cannot arise and is not modelled.
