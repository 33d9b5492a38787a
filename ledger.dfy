/** The per-account usage ledger of the BlogMatic server, as values.

    The server keeps two SQLite tables: `users` (one row per account, keyed by
    its unique email) and `blogs` (one row per generated post, append-only).
    This module gives the rows, the guards the request handlers test, and the
    effect of each handler on the two tables as a function of the tables before
    it.  The class in module Server performs the same effects in place. */
module Ledger {

  datatype Option<T> = None | Some(value: T)

  // HTTP status codes the handlers return.
  const StatusOk := 200
  const StatusBadRequest := 400
  const StatusUnauthorized := 401
  const StatusPaymentRequired := 402
  const StatusForbidden := 403
  const StatusNotFound := 404
  const StatusServerError := 500

  /** Column default of users.free_credits. */
  const InitialFreeCredits := 3
  /** The first id that an AUTOINCREMENT primary key hands out. */
  const FirstUserId := 1
  /** The one identity allowed to read the admin statistics. */
  const AdminEmail := "admin@example.com"
  /** The payment-provider event kind that grants a subscription. */
  const ChargeSuccess := "charge.success"

  /** A row of `users`, without its email, which is the key of the map holding it.
      `subscribed` is the INTEGER column, which only ever holds 0 or 1. */
  datatype Account = Account(id: nat, password: string, subscribed: bool, freeCredits: int)

  /** A row of `blogs`; its own id is its position in the table plus one.
      `topic` is None when the request body has no topic (stored as NULL). */
  datatype BlogRecord = BlogRecord(userId: nat, topic: Option<string>, content: string, createdAt: string)

  /** Both tables, and the id the next inserted user row receives. */
  datatype Tables = Tables(users: map<string, Account>, blogs: seq<BlogRecord>, nextUserId: nat)

  /** What the chat-completion call followed by parsing its reply yields:
      either one of the two raises, or an opaque JSON document. */
  datatype Generation = GenerationFailed | Generated(document: string)

  /** What the payment provider's transaction-initialisation call yields:
      a falsy `status` (or a body without an authorisation URL), or the URL. */
  datatype Initialization = InitializationFailed | Initialized(authorizationUrl: string)

  /** A webhook body: its `event` field, and data.customer.email when present. */
  datatype Event = Event(kind: string, customerEmail: Option<string>)

  /** The tables after a handler ran, and the status it answered with. */
  datatype Effect = Effect(after: Tables, status: int)

  /** A row of the admin statistics dump: email, subscribed, free_credits. */
  datatype StatsRow = StatsRow(email: string, subscribed: bool, freeCredits: int)

  /** A freshly created database. */
  function Empty(): Tables
  {
    Tables(map[], [], FirstUserId)
  }

  // ---------------------------------------------------------------- guards

  /** The generation guard: no credits left and not subscribed. */
  predicate OutOfCredits(a: Account)
  {
    a.freeCredits <= 0 && !a.subscribed
  }

  /** The login query: some row has exactly this email and this password. */
  predicate CredentialsMatch(users: map<string, Account>, email: string, password: string)
  {
    email in users && users[email].password == password
  }

  predicate IsAdmin(email: string)
  {
    email == AdminEmail
  }

  predicate IsChargeSuccess(ev: Event)
  {
    ev.kind == ChargeSuccess
  }

  // ----------------------------------------------------------- the handlers

  /** The row an INSERT of only email and password creates: every other
      column takes its default. */
  function NewAccount(id: nat, password: string): Account
  {
    Account(id, password, false, InitialFreeCredits)
  }

  /** register: insert the account; the UNIQUE constraint on email makes the
      insert raise for a known email, which the handler answers with 400. */
  function Register(t: Tables, email: string, password: string): Effect
  {
    if email in t.users then Effect(t, StatusBadRequest)
    else
      var users := t.users[email := NewAccount(t.nextUserId, password)];
      Effect(Tables(users, t.blogs, t.nextUserId + 1), StatusOk)
  }

  /** UPDATE users SET free_credits = free_credits - 1 WHERE id = `id`. */
  function DebitById(users: map<string, Account>, id: nat): map<string, Account>
  {
    map e | e in users :: if users[e].id == id then users[e].(freeCredits := users[e].freeCredits - 1) else users[e]
  }

  /** generate: look up the caller, apply the credit guard, run the external
      generation and, only once it yielded a document, append the blog row and
      take one credit from an unsubscribed account.  A failed generation
      raises out of the handler, which the framework answers with 500. */
  function Generate(t: Tables, email: string, topic: Option<string>, generation: Generation, createdAt: string): Effect
  {
    if email !in t.users then Effect(t, StatusNotFound)
    else
      var user := t.users[email];
      if OutOfCredits(user) then Effect(t, StatusPaymentRequired)
      else match generation
        case GenerationFailed => Effect(t, StatusServerError)
        case Generated(document) =>
          var blogs := t.blogs + [BlogRecord(user.id, topic, document, createdAt)];
          var users := if !user.subscribed then DebitById(t.users, user.id) else t.users;
          Effect(Tables(users, blogs, t.nextUserId), StatusOk)
  }

  /** UPDATE users SET subscribed = 1 WHERE email = `email`. */
  function Subscribe(users: map<string, Account>, email: string): map<string, Account>
  {
    if email in users then users[email := users[email].(subscribed := true)] else users
  }

  /** webhook: a charge.success event subscribes the account named in its
      payload; every other event is ignored.  Reading the email out of a
      charge.success body that lacks it raises, which the framework answers
      with 500. */
  function Webhook(t: Tables, ev: Event): Effect
  {
    if !IsChargeSuccess(ev) then Effect(t, StatusOk)
    else match ev.customerEmail
      case None => Effect(t, StatusServerError)
      case Some(email) => Effect(t.(users := Subscribe(t.users, email)), StatusOk)
  }

  /** The dump row of one account. */
  function RowOf(email: string, a: Account): StatsRow
  {
    StatsRow(email, a.subscribed, a.freeCredits)
  }

  /** `rows` lists every account exactly once, each with its current values. */
  ghost predicate IsStatsDump(users: map<string, Account>, rows: seq<StatsRow>)
  {
    && (forall i :: 0 <= i < |rows| ==> rows[i].email in users && rows[i] == RowOf(rows[i].email, users[rows[i].email]))
    && (forall i, j :: 0 <= i < j < |rows| ==> rows[i].email != rows[j].email)
    && (forall e :: e in users ==> exists i :: 0 <= i < |rows| && rows[i].email == e)
  }

  // ------------------------------------------------------------ invariants

  /** The number of blog rows written for user `id`. */
  function CountBlogs(blogs: seq<BlogRecord>, id: nat): nat
  {
    if blogs == [] then 0
    else CountBlogs(blogs[..|blogs| - 1], id) + (if blogs[|blogs| - 1].userId == id then 1 else 0)
  }

  /** No two user rows share an id (it is the primary key). */
  ghost predicate UniqueIds(users: map<string, Account>)
  {
    forall e1, e2 :: e1 in users && e2 in users && e1 != e2 ==> users[e1].id != users[e2].id
  }

  /** Ids come from the AUTOINCREMENT counter: every id in either table was
      handed out before, and no two user rows share one. */
  ghost predicate IdsWellFormed(t: Tables)
  {
    && FirstUserId <= t.nextUserId
    && (forall e :: e in t.users ==> FirstUserId <= t.users[e].id < t.nextUserId)
    && UniqueIds(t.users)
    && (forall i :: 0 <= i < |t.blogs| ==> t.blogs[i].userId < t.nextUserId)
  }

  ghost predicate CreditsNonNegative(users: map<string, Account>)
  {
    forall e :: e in users ==> users[e].freeCredits >= 0
  }

  /** Every post of an unsubscribed account was paid for with one free credit. */
  ghost predicate CreditsAccounted(t: Tables)
  {
    forall e :: e in t.users && !t.users[e].subscribed ==>
      t.users[e].freeCredits + CountBlogs(t.blogs, t.users[e].id) == InitialFreeCredits
  }

  ghost predicate Valid(t: Tables)
  {
    IdsWellFormed(t) && CreditsNonNegative(t.users) && CreditsAccounted(t)
  }

  // ------------------------------------------------------- sequential runs

  /** One request to the server, with the identity its token resolves to and
      the values its external calls return. */
  datatype Request =
    | RegisterRequest(email: string, password: string)
    | LoginRequest(email: string, password: string)
    | GenerateRequest(caller: string, topic: Option<string>, generation: Generation, createdAt: string)
    | CheckoutRequest(caller: string, initialization: Initialization)
    | WebhookRequest(event: Event)
    | StatsRequest(caller: string)

  /** The tables after one request; login, checkout and the statistics only read. */
  function Step(t: Tables, r: Request): Tables
  {
    match r
    case RegisterRequest(email, password) => Register(t, email, password).after
    case GenerateRequest(caller, topic, generation, createdAt) => Generate(t, caller, topic, generation, createdAt).after
    case WebhookRequest(ev) => Webhook(t, ev).after
    case LoginRequest(_, _) => t
    case CheckoutRequest(_, _) => t
    case StatsRequest(_) => t
  }

  /** The tables after the requests, served one after the other. */
  function Run(t: Tables, rs: seq<Request>): Tables
    decreases |rs|
  {
    if rs == [] then t else Run(Step(t, rs[0]), rs[1..])
  }
}
