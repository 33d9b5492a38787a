/** The request handlers of the BlogMatic server, acting in place on the
    shared `users` and `blogs` tables.  Each handler returns the HTTP status
    it answers with; the identity a token resolves to and the results of the
    external generation and payment calls come in as parameters.  Every
    handler that writes is tied by its postcondition to the function of
    module Ledger that gives its effect, whose properties are proved in
    module LedgerProperties. */
module Server {
  import opened Ledger
  import LedgerProperties

  class App {
    var users: map<string, Account>
    var blogs: seq<BlogRecord>
    var nextUserId: nat

    /** The two tables as one value. */
    function State(): Tables
      reads this
    {
      Tables(users, blogs, nextUserId)
    }

    ghost predicate Valid()
      reads this
    {
      Ledger.Valid(State())
    }

    /** Creating both tables in a fresh database. */
    constructor ()
      ensures Valid() && State() == Empty()
    {
      users := map[];
      blogs := [];
      nextUserId := FirstUserId;
    }

    /** POST /api/register. */
    method Register(email: string, password: string) returns (status: int)
      requires Valid()
      modifies this
      ensures Valid()
      ensures Effect(State(), status) == Ledger.Register(old(State()), email, password)
    {
      LedgerProperties.RegisterPreservesValid(State(), email, password);
      if email in users {
        // the UNIQUE constraint rejects the insert; the handler catches it
        return StatusBadRequest;
      }
      users := users[email := NewAccount(nextUserId, password)];
      nextUserId := nextUserId + 1;
      status := StatusOk;
    }

    /** POST /api/login: succeeds exactly when a row has this email and password. */
    method Login(email: string, password: string) returns (status: int)
      ensures status == StatusOk <==> CredentialsMatch(users, email, password)
      ensures status == StatusOk || status == StatusUnauthorized
    {
      if CredentialsMatch(users, email, password) {
        status := StatusOk;
      } else {
        status := StatusUnauthorized;
      }
    }

    /** POST /api/generate for the identity `email`; `generation` is what the
        external generation call and the parsing of its reply yield. */
    method Generate(email: string, topic: Option<string>, generation: Generation, createdAt: string) returns (status: int)
      requires Valid()
      modifies this
      ensures Valid()
      ensures Effect(State(), status) == Ledger.Generate(old(State()), email, topic, generation, createdAt)
    {
      LedgerProperties.GeneratePreservesValid(State(), email, topic, generation, createdAt);
      if email !in users {
        return StatusNotFound;
      }
      var user := users[email];
      if OutOfCredits(user) {
        return StatusPaymentRequired;
      }
      if generation.GenerationFailed? {
        // the exception escapes the handler before any write
        return StatusServerError;
      }
      blogs := blogs + [BlogRecord(user.id, topic, generation.document, createdAt)];
      if !user.subscribed {
        users := DebitById(users, user.id);
      }
      status := StatusOk;
    }

    /** POST /api/checkout for the identity `email`: only the local lookup; the
        transaction itself is opened by the payment provider, whose answer is
        `initialization`.  Nothing local is written. */
    method Checkout(email: string, initialization: Initialization) returns (status: int, url: Option<string>)
      ensures email !in users ==> status == StatusNotFound && url == None
      ensures email in users && initialization.InitializationFailed? ==> status == StatusServerError && url == None
      ensures email in users && initialization.Initialized? ==>
                status == StatusOk && url == Some(initialization.authorizationUrl)
    {
      if email !in users {
        return StatusNotFound, None;
      }
      match initialization
      case InitializationFailed =>
        status, url := StatusServerError, None;
      case Initialized(authorizationUrl) =>
        status, url := StatusOk, Some(authorizationUrl);
    }

    /** POST /webhook. */
    method Webhook(ev: Event) returns (status: int)
      requires Valid()
      modifies this
      ensures Valid()
      ensures Effect(State(), status) == Ledger.Webhook(old(State()), ev)
    {
      LedgerProperties.WebhookPreservesValid(State(), ev);
      if IsChargeSuccess(ev) {
        match ev.customerEmail
        case None =>
          // the payload lacks data.customer.email: the lookup raises
          return StatusServerError;
        case Some(email) =>
          if email in users {
            users := users[email := users[email].(subscribed := true)];
          }
      }
      status := StatusOk;
    }

    /** GET /api/admin/stats for the identity `email`: the designated admin
        gets every account's email, subscription flag and credits, in no
        particular order; anyone else gets 403. */
    method AdminStats(email: string) returns (status: int, rows: seq<StatsRow>)
      ensures status == StatusOk <==> IsAdmin(email)
      ensures status == StatusOk || status == StatusForbidden
      ensures IsAdmin(email) ==> IsStatsDump(users, rows)
      ensures !IsAdmin(email) ==> rows == []
    {
      if !IsAdmin(email) {
        return StatusForbidden, [];
      }
      rows := [];
      var pending := users.Keys;
      while pending != {}
        invariant pending <= users.Keys
        invariant forall i :: 0 <= i < |rows| ==>
          rows[i].email in users && rows[i].email !in pending && rows[i] == RowOf(rows[i].email, users[rows[i].email])
        invariant forall i, j :: 0 <= i < j < |rows| ==> rows[i].email != rows[j].email
        invariant forall e :: e in users && e !in pending ==> exists i :: 0 <= i < |rows| && rows[i].email == e
        decreases pending
      {
        var e :| e in pending;
        ghost var listed := rows;
        rows := rows + [RowOf(e, users[e])];
        pending := pending - {e};
        assert rows[|listed|].email == e;
        assert forall i :: 0 <= i < |listed| ==> rows[i] == listed[i];
      }
      status := StatusOk;
    }
  }
}
