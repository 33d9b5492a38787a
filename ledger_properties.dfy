/** What the ledger's handlers promise, proved about the functions of module
    Ledger: the defaults of a new account, the cases of the generation gate,
    the webhook's effect, and the invariants every sequential run keeps. */
module LedgerProperties {
  import opened Ledger

  // ----------------------------------------------------------- blog counts

  lemma {:induction false} CountBlogsAppend(blogs: seq<BlogRecord>, r: BlogRecord, id: nat)
    ensures CountBlogs(blogs + [r], id) == CountBlogs(blogs, id) + (if r.userId == id then 1 else 0)
  {
    assert (blogs + [r])[..|blogs|] == blogs;
  }

  /** No post belongs to an id that was not handed out yet. */
  lemma {:induction false} CountBlogsOfUnusedId(blogs: seq<BlogRecord>, id: nat)
    requires forall i :: 0 <= i < |blogs| ==> blogs[i].userId < id
    ensures CountBlogs(blogs, id) == 0
  {
    if blogs != [] {
      CountBlogsOfUnusedId(blogs[..|blogs| - 1], id);
    }
  }

  // ------------------------------------------------------------- register

  /** A new email gets a row with the column defaults: not subscribed, three
      free credits, and an id no other row has; nothing else changes. */
  lemma RegisterCreatesDefaultAccount(t: Tables, email: string, password: string)
    requires Valid(t)
    requires email !in t.users
    ensures var r := Register(t, email, password);
      && r.status == StatusOk
      && r.after.users.Keys == t.users.Keys + {email}
      && !r.after.users[email].subscribed
      && r.after.users[email].freeCredits == InitialFreeCredits
      && r.after.users[email].password == password
      && (forall e :: e in t.users ==> r.after.users[email].id != t.users[e].id)
      && (forall e :: e in t.users ==> r.after.users[e] == t.users[e])
      && r.after.blogs == t.blogs
  {
  }

  /** Registering a known email fails with 400 and changes nothing. */
  lemma RegisterDuplicateFails(t: Tables, email: string, password: string)
    requires email in t.users
    ensures Register(t, email, password) == Effect(t, StatusBadRequest)
  {
  }

  /** After a successful registration the login query accepts exactly the
      registered password for that email, and answers as before for every
      other email. */
  lemma RegisterThenLogin(t: Tables, email: string, password: string, attempt: string)
    requires email !in t.users
    ensures var after := Register(t, email, password).after;
      && (CredentialsMatch(after.users, email, attempt) <==> attempt == password)
      && (forall other :: other != email ==>
            (CredentialsMatch(after.users, other, attempt) <==> CredentialsMatch(t.users, other, attempt)))
  {
  }

  lemma RegisterPreservesValid(t: Tables, email: string, password: string)
    requires Valid(t)
    ensures Valid(Register(t, email, password).after)
  {
    if email !in t.users {
      CountBlogsOfUnusedId(t.blogs, t.nextUserId);
    }
  }

  // ------------------------------------------------------------- generate

  /** An identity without an account gets 404 and both tables stay as they are. */
  lemma GenerateUnknownCaller(t: Tables, email: string, topic: Option<string>, generation: Generation, createdAt: string)
    requires email !in t.users
    ensures Generate(t, email, topic, generation, createdAt) == Effect(t, StatusNotFound)
  {
  }

  /** An unsubscribed account without credits gets 402 and nothing is written. */
  lemma GenerateOutOfCredits(t: Tables, email: string, topic: Option<string>, generation: Generation, createdAt: string)
    requires email in t.users && t.users[email].freeCredits <= 0 && !t.users[email].subscribed
    ensures Generate(t, email, topic, generation, createdAt) == Effect(t, StatusPaymentRequired)
  {
  }

  /** A failed generation writes no post and takes no credit, whoever asks. */
  lemma GenerationFailureIsFree(t: Tables, email: string, topic: Option<string>, createdAt: string)
    ensures var r := Generate(t, email, topic, GenerationFailed, createdAt);
      r.after == t && r.status != StatusOk
  {
  }

  /** With unique ids, debiting the caller's id changes the caller's row only. */
  lemma DebitOnlyCaller(users: map<string, Account>, email: string)
    requires UniqueIds(users)
    requires email in users
    ensures DebitById(users, users[email].id)
         == users[email := users[email].(freeCredits := users[email].freeCredits - 1)]
  {
    var id := users[email].id;
    forall e | e in users && e != email
      ensures DebitById(users, id)[e] == users[e]
    {
      assert users[e].id != id;
    }
  }

  /** A successful generation appends exactly one post, for the caller's id
      and topic, takes one credit from an unsubscribed caller and none from a
      subscribed one, and leaves every other account as it was. */
  lemma GenerateSuccess(t: Tables, email: string, topic: Option<string>, document: string, createdAt: string)
    requires UniqueIds(t.users)
    requires email in t.users && !OutOfCredits(t.users[email])
    ensures var r := Generate(t, email, topic, Generated(document), createdAt);
      var a := t.users[email];
      && r.status == StatusOk
      && r.after.blogs == t.blogs + [BlogRecord(a.id, topic, document, createdAt)]
      && r.after.users.Keys == t.users.Keys
      && r.after.users[email] == a.(freeCredits := if a.subscribed then a.freeCredits else a.freeCredits - 1)
      && (forall e :: e in t.users && e != email ==> r.after.users[e] == t.users[e])
      && r.after.nextUserId == t.nextUserId
  {
    if !t.users[email].subscribed {
      DebitOnlyCaller(t.users, email);
    }
  }

  /** A subscribed account always passes the gate, whatever its credits, and
      its credits do not move. */
  lemma SubscribedAlwaysEntitled(t: Tables, email: string, topic: Option<string>, document: string, createdAt: string)
    requires email in t.users && t.users[email].subscribed
    ensures var r := Generate(t, email, topic, Generated(document), createdAt);
      r.status == StatusOk && r.after.users == t.users
  {
  }

  lemma GeneratePreservesValid(t: Tables, email: string, topic: Option<string>, generation: Generation, createdAt: string)
    requires Valid(t)
    ensures Valid(Generate(t, email, topic, generation, createdAt).after)
  {
    if email in t.users && !OutOfCredits(t.users[email]) && generation.Generated? {
      var a := t.users[email];
      var rec := BlogRecord(a.id, topic, generation.document, createdAt);
      var after := Generate(t, email, topic, generation, createdAt).after;
      GenerateSuccess(t, email, topic, generation.document, createdAt);
      forall e | e in after.users && !after.users[e].subscribed
        ensures after.users[e].freeCredits + CountBlogs(after.blogs, after.users[e].id) == InitialFreeCredits
      {
        CountBlogsAppend(t.blogs, rec, t.users[e].id);
      }
    }
  }

  // -------------------------------------------------------------- webhook

  /** charge.success subscribes the named account, touches nothing else, and
      a redelivery of the same event changes nothing more. */
  lemma ChargeSuccessSubscribes(t: Tables, email: string)
    ensures var ev := Event(ChargeSuccess, Some(email));
      var r := Webhook(t, ev);
      && r.status == StatusOk
      && r.after.users.Keys == t.users.Keys
      && (email in t.users ==> r.after.users[email] == t.users[email].(subscribed := true))
      && (forall e :: e in t.users && e != email ==> r.after.users[e] == t.users[e])
      && r.after.blogs == t.blogs
      && r.after.nextUserId == t.nextUserId
      && Webhook(r.after, ev) == r
  {
  }

  /** Any other event kind is acknowledged with 200 and ignored. */
  lemma WebhookIgnoresOtherEvents(t: Tables, ev: Event)
    requires !IsChargeSuccess(ev)
    ensures Webhook(t, ev) == Effect(t, StatusOk)
  {
  }

  /** No event moves a credit, removes an account or writes a post. */
  lemma WebhookKeepsCredits(t: Tables, ev: Event)
    ensures var after := Webhook(t, ev).after;
      && after.users.Keys == t.users.Keys
      && (forall e :: e in t.users ==> after.users[e].freeCredits == t.users[e].freeCredits)
      && after.blogs == t.blogs
  {
  }

  lemma WebhookPreservesValid(t: Tables, ev: Event)
    requires Valid(t)
    ensures Valid(Webhook(t, ev).after)
  {
  }

  // ------------------------------------------------------------------ runs

  lemma StepPreservesValid(t: Tables, r: Request)
    requires Valid(t)
    ensures Valid(Step(t, r))
  {
    match r
    case RegisterRequest(email, password) => RegisterPreservesValid(t, email, password);
    case GenerateRequest(caller, topic, generation, createdAt) => GeneratePreservesValid(t, caller, topic, generation, createdAt);
    case WebhookRequest(ev) => WebhookPreservesValid(t, ev);
    case LoginRequest(_, _) =>
    case CheckoutRequest(_, _) =>
    case StatsRequest(_) =>
  }

  /** Every sequential run keeps the ledger valid: ids unique, credits never
      negative, and every post of an unsubscribed account paid for. */
  lemma {:induction false} RunPreservesValid(t: Tables, rs: seq<Request>)
    requires Valid(t)
    ensures Valid(Run(t, rs))
    decreases |rs|
  {
    if rs != [] {
      StepPreservesValid(t, rs[0]);
      RunPreservesValid(Step(t, rs[0]), rs[1..]);
    }
  }

  /** `t2` is a later state of `t1`: no account is removed or changes its id
      or password, no subscription is revoked, and posts are only appended. */
  ghost predicate Extends(t1: Tables, t2: Tables)
  {
    && t1.nextUserId <= t2.nextUserId
    && (forall e :: e in t1.users ==>
          && e in t2.users
          && t2.users[e].id == t1.users[e].id
          && t2.users[e].password == t1.users[e].password
          && (t1.users[e].subscribed ==> t2.users[e].subscribed))
    && t1.blogs <= t2.blogs
  }

  lemma StepExtends(t: Tables, r: Request)
    ensures Extends(t, Step(t, r))
  {
  }

  lemma ExtendsTransitive(t1: Tables, t2: Tables, t3: Tables)
    requires Extends(t1, t2) && Extends(t2, t3)
    ensures Extends(t1, t3)
  {
  }

  /** Over any sequential run, accounts persist with their ids and passwords,
      a subscription once granted is never reset, and the blog table only grows. */
  lemma {:induction false} RunExtends(t: Tables, rs: seq<Request>)
    ensures Extends(t, Run(t, rs))
    decreases |rs|
  {
    if rs != [] {
      StepExtends(t, rs[0]);
      RunExtends(Step(t, rs[0]), rs[1..]);
      ExtendsTransitive(t, Step(t, rs[0]), Run(Step(t, rs[0]), rs[1..]));
    }
  }

  /** From an empty database, whatever the requests, an account that is not
      subscribed has a non-negative balance and at most three posts. */
  lemma FreeAllowanceBound(rs: seq<Request>)
    ensures var t := Run(Empty(), rs);
      forall e :: e in t.users && !t.users[e].subscribed ==>
        && 0 <= t.users[e].freeCredits
        && CountBlogs(t.blogs, t.users[e].id) <= InitialFreeCredits
  {
    RunPreservesValid(Empty(), rs);
  }

  // ------------------------------------------------------------- scenarios

  /** A new account generates three posts, its credits falling to 2, 1 and 0;
      a fourth request is refused with 402. */
  lemma ThreeFreePosts(email: string, password: string, topic: Option<string>, d1: string, d2: string, d3: string, d4: string, at: string)
    ensures var t0 := Register(Empty(), email, password).after;
      var r1 := Generate(t0, email, topic, Generated(d1), at);
      var r2 := Generate(r1.after, email, topic, Generated(d2), at);
      var r3 := Generate(r2.after, email, topic, Generated(d3), at);
      var r4 := Generate(r3.after, email, topic, Generated(d4), at);
      && r1.status == StatusOk && r1.after.users[email].freeCredits == 2
      && r2.status == StatusOk && r2.after.users[email].freeCredits == 1
      && r3.status == StatusOk && r3.after.users[email].freeCredits == 0
      && r4 == Effect(r3.after, StatusPaymentRequired)
      && |r3.after.blogs| == 3
  {
    var t0 := Register(Empty(), email, password).after;
    var r1 := Generate(t0, email, topic, Generated(d1), at);
    var r2 := Generate(r1.after, email, topic, Generated(d2), at);
    GenerateSuccess(t0, email, topic, d1, at);
    GenerateSuccess(r1.after, email, topic, d2, at);
    GenerateSuccess(r2.after, email, topic, d3, at);
  }

  /** Once a charge.success event names the account, it generates again with
      no credits left, and its balance stays at zero. */
  lemma SubscriptionLiftsLimit(t: Tables, email: string, topic: Option<string>, document: string, at: string)
    requires email in t.users && t.users[email].freeCredits == 0
    ensures var s := Webhook(t, Event(ChargeSuccess, Some(email))).after;
      var r := Generate(s, email, topic, Generated(document), at);
      && r.status == StatusOk
      && r.after.users[email].freeCredits == 0
      && |r.after.blogs| == |t.blogs| + 1
  {
  }
}
