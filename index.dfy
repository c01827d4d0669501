/** The main process glue: the one-shot loopback server that receives the OAuth
    redirect, and the IPC handlers that tie the token manager, the normaliser and
    the store together.  The HTTP machinery, URL parsing, timers and the window
    are reduced to what the handlers observe of them. */
module Index {
  import opened Wrappers
  import Auth
  import Gmail
  import Database

  /** A port the operating system assigns when a listener binds port 0. */
  type Port = p: int | 1 <= p <= 65535 witness 1

  /** A parsed query parameter: a repeated key gives a list. */
  datatype QueryValue = One(text: string) | Many(items: seq<string>)

  /** JavaScript truthiness of a query value: a list is always truthy. */
  predicate QueryTruthy(v: QueryValue) {
    v.One? ==> v.text != ""
  }

  /** An inbound request, its URL already parsed. */
  datatype Request = Request(pathname: string, query: map<string, QueryValue>)

  datatype ResponseBody = SuccessPage | NoBody
  datatype Response = Response(status: int, contentType: Option<string>, body: ResponseBody)

  /** What the request handler does: the response, the code forwarded to the
      renderer, and whether a close is scheduled. */
  datatype Reaction = Reaction(response: Response, forwarded: Option<QueryValue>, scheduleClose: bool)

  /** The request handler's decision. */
  function React(req: Request, windowAvailable: bool): (r: Reaction)
    ensures r.response.status == 200 || r.response.status == 404
    ensures r.response.status == 200 <==>
              req.pathname == "/" && "code" in req.query && QueryTruthy(req.query["code"])
    ensures r.response.status == 200 ==>
              r.response.contentType == Some("text/html") && r.response.body == SuccessPage && r.scheduleClose
    ensures r.response.status == 404 ==>
              r.response == Response(404, None, NoBody) && r.forwarded.None? && !r.scheduleClose
    ensures r.forwarded.Some? <==> r.response.status == 200 && windowAvailable
    ensures r.forwarded.Some? ==> r.forwarded.value == req.query["code"]
  {
    if req.pathname == "/" && "code" in req.query && QueryTruthy(req.query["code"]) then
      Reaction(Response(200, Some("text/html"), SuccessPage),
               if windowAvailable then Some(req.query["code"]) else None,
               true)
    else
      Reaction(Response(404, None, NoBody), None, false)
  }

  /** A loopback listener. */
  class Server {
    const port: Port
    var listening: bool

    constructor (port: Port)
      ensures this.port == port && listening
    {
      this.port := port;
      listening := true;
    }
  }

  datatype FetchOutcome = FetchSucceeded(count: nat, emails: seq<Gmail.Email>) | FetchFailed(error: string)
  datatype LookupOutcome = Found(email: Database.Record) | LookupFailed(error: string)
  datatype ListOutcome = EmailsListed(emails: seq<Database.Summary>) | ListFailed(error: string)
  datatype Sample = Sample(id: string, subject: string, sender: string)
  datatype DbStatus = DbStatus(count: nat, sample: bool, sampleData: Option<Sample>)

  const EmailNotFound: string := "Email not found"

  /** The `maxResults || 100` default. */
  function EffectiveMax(maxResults: Option<int>): int {
    if maxResults.None? || maxResults.value == 0 then 100 else maxResults.value
  }

  /** The `get-email-by-id` handler's answer to what the point read did: a thrown
      error becomes a failure with its message, a null the not-found failure. */
  function LookupOutcomeOf(read: Result<Option<Database.Record>, string>): LookupOutcome {
    match read
    case Err(e) => LookupFailed(e)
    case Ok(None) => LookupFailed(EmailNotFound)
    case Ok(Some(email)) => Found(email)
  }

  /** The `get-emails` handler's answer to what the paged read did. */
  function ListOutcomeOf(read: Result<seq<Database.Summary>, string>): ListOutcome {
    match read
    case Err(e) => ListFailed(e)
    case Ok(emails) => EmailsListed(emails)
  }

  /** The main process's module-level state. */
  class App {
    const auth: Auth.TokenManager
    const store: Database.EmailStore
    /** The most recently created auth server. */
    var authServer: Server?
    /** The main window exists and is not destroyed. */
    var windowAvailable: bool
    /** This module's own database handle is set. */
    var dbReady: bool
    /** Codes sent to the renderer, oldest first. */
    var sentCodes: seq<QueryValue>
    /** Close timers scheduled and not yet fired. */
    var pendingCloses: nat

    /** The store is consistent, this module's handle is set only once the schema
        exists, and the redirect URI in force is that of the most recent auth server. */
    ghost predicate Valid()
      reads this, auth, store, authServer
    {
      && store.Valid()
      && (dbReady ==> store.hasSchema)
      && (authServer != null ==> auth.redirectUri == Auth.LoopbackUri(authServer.port))
    }

    constructor (auth: Auth.TokenManager, store: Database.EmailStore, windowAvailable: bool)
      requires store.Valid()
      ensures Valid()
      ensures this.auth == auth && this.store == store && this.windowAvailable == windowAvailable
      ensures authServer == null && !dbReady && sentCodes == [] && pendingCloses == 0
    {
      this.auth := auth;
      this.store := store;
      this.windowAvailable := windowAvailable;
      authServer := null;
      dbReady := false;
      sentCodes := [];
      pendingCloses := 0;
    }

    /** `get-auth-url`: starts a fresh server on the port the system assigns,
        overwriting the previous one (which is left listening), and builds the
        consent URL for exactly that port. */
    method GetAuthUrlHandler(boundPort: Port, generate: Auth.ConsentRequest -> string) returns (url: string)
      requires Valid()
      modifies this, auth
      ensures Valid()
      ensures authServer != null && fresh(authServer) && authServer.port == boundPort && authServer.listening
      ensures auth.redirectUri == Auth.LoopbackUri(boundPort)
      ensures url == generate(Auth.Consent(Auth.LoopbackUri(boundPort)))
      ensures auth.storedToken == old(auth.storedToken) && auth.client == Some(old(auth.LazyClient()))
      ensures old(authServer) != null ==> old(authServer).listening == old(authServer.listening)
      ensures windowAvailable == old(windowAvailable) && dbReady == old(dbReady)
      ensures sentCodes == old(sentCodes) && pendingCloses == old(pendingCloses)
    {
      var server := new Server(boundPort);
      authServer := server;
      url := auth.GetAuthUrl(Some(boundPort as nat), generate);
    }

    /** The auth server's request handler, run by the listening server `receiver`
        that received the request; the handler itself never looks at which
        server that is. */
    method HandleAuthRequest(receiver: Server, req: Request) returns (resp: Response)
      requires receiver.listening
      modifies this
      ensures resp == React(req, windowAvailable).response
      ensures sentCodes == old(sentCodes) +
                (if React(req, windowAvailable).forwarded.Some? then [React(req, windowAvailable).forwarded.value] else [])
      ensures pendingCloses == old(pendingCloses) + (if React(req, windowAvailable).scheduleClose then 1 else 0)
      ensures authServer == old(authServer) && windowAvailable == old(windowAvailable) && dbReady == old(dbReady)
    {
      var reaction := React(req, windowAvailable);
      resp := reaction.response;
      if reaction.forwarded.Some? {
        sentCodes := sentCodes + [reaction.forwarded.value];
      }
      if reaction.scheduleClose {
        pendingCloses := pendingCloses + 1;
      }
    }

    /** A scheduled close fires: the server that is current now is closed if it is
        still listening, whichever server scheduled the close. */
    method FireCloseTimer()
      requires pendingCloses > 0
      modifies this, authServer
      ensures pendingCloses == old(pendingCloses) - 1
      ensures authServer == old(authServer) && (authServer != null ==> !authServer.listening)
      ensures windowAvailable == old(windowAvailable) && dbReady == old(dbReady) && sentCodes == old(sentCodes)
    {
      pendingCloses := pendingCloses - 1;
      if authServer != null && authServer.listening {
        authServer.listening := false;
      }
    }

    /** `handle-auth-callback`: the code is exchanged against the redirect URI of
        the most recent auth server, whichever server received it. */
    method SubmitAuthCode(code: string, exchange: (string, string) -> Result<Auth.Token, string>,
                          storeError: Option<string>) returns (r: Auth.AuthResult)
      requires Valid()
      modifies auth
      ensures Valid()
      ensures authServer != null ==>
                var x := exchange(code, Auth.LoopbackUri(authServer.port));
                && (x.Err? ==> r == Auth.AuthFailed(x.error) && auth.storedToken == old(auth.storedToken))
                && (x.Ok? && storeError.None? ==> r == Auth.AuthSucceeded && auth.storedToken == Some(x.value))
      ensures authServer == null ==>
                var x := exchange(code, old(auth.redirectUri));
                && (x.Err? ==> r == Auth.AuthFailed(x.error) && auth.storedToken == old(auth.storedToken))
                && (x.Ok? && storeError.None? ==> r == Auth.AuthSucceeded && auth.storedToken == Some(x.value))
    {
      r := auth.HandleAuthCallback(code, exchange, storeError);
    }

    /** `fetch-emails`: fetch, save only a non-empty list, and turn any error into a
        failure outcome.  A failure leaves the store's tables as they were. */
    method FetchEmailsHandler(maxResults: Option<int>,
                              list: int -> Result<Option<seq<string>>, string>,
                              get: string -> Result<Gmail.Message, string>, decode: string -> string,
                              fault: Gmail.Email -> Option<string>) returns (r: FetchOutcome)
      requires Valid()
      modifies auth, store
      ensures Valid()
      ensures r.FetchFailed? ==> store.tables == old(store.tables)
      ensures r.FetchSucceeded? ==>
                && r.count == |r.emails|
                && store.tables == Database.SaveAll(old(store.tables), r.emails)
                && old(auth.storedToken).Some? && list(EffectiveMax(maxResults)).Ok?
                && Gmail.FetchedInOrder(Gmail.Listed(list(EffectiveMax(maxResults)).value),
                                        id => Gmail.Normalize(get, decode, id), Ok(r.emails))
                && (forall i | 0 <= i < |r.emails| :: fault(r.emails[i]).None?)
      ensures r.FetchSucceeded? && r.emails == [] ==> unchanged(store)
      ensures auth.storedToken == old(auth.storedToken) && auth.redirectUri == old(auth.redirectUri)
      ensures auth.client == Some(old(auth.LazyClient()))
      ensures old(auth.storedToken).None? ==> r == FetchFailed(Auth.NoTokenError)
      ensures old(auth.storedToken).Some? && list(EffectiveMax(maxResults)).Ok? &&
              (var ids := Gmail.Listed(list(EffectiveMax(maxResults)).value);
               forall i | 0 <= i < |ids| :: Gmail.Normalize(get, decode, ids[i]).Ok? &&
                                            fault(Gmail.Normalize(get, decode, ids[i]).value).None?)
              ==> r.FetchSucceeded?
    {
      var fetched := Gmail.FetchEmails(auth, EffectiveMax(maxResults), list, get, decode);
      if fetched.Err? {
        return FetchFailed(fetched.error);
      }
      var emails := fetched.value;
      if |emails| > 0 {
        var saved := store.SaveEmails(emails, fault);
        if saved.Err? {
          return FetchFailed(saved.error);
        }
      }
      r := FetchSucceeded(|emails|, emails);
    }

    /** `get-emails` as written: the paged read always throws, and the handler
        reports its message. */
    method GetEmailsHandler(limit: Option<int>, offset: Option<int>) returns (r: ListOutcome)
      requires Valid()
      modifies store
      ensures Valid() && store.tables == old(store.tables)
      ensures r == ListFailed(Database.FromSyntaxError)
    {
      var emails := store.GetEmails(limit, offset);
      r := ListOutcomeOf(emails);
    }

    /** `get-emails` over the corrected paged read: a page of the stored rows,
        newest first. */
    method GetEmailsHandlerIntended(limit: Option<int>, offset: Option<int>) returns (r: ListOutcome)
      requires Valid()
      modifies store
      ensures Valid() && store.tables == old(store.tables)
      ensures r.EmailsListed?
      ensures exists order | Database.IsDateOrder(store.tables.rows, order) ::
                r.emails == Database.Summaries(store.tables, Database.SqlPage(order, limit.GetOr(100), offset.GetOr(0)))
    {
      var emails := store.GetEmailsIntended(limit, offset);
      r := ListOutcomeOf(Ok(emails));
    }

    /** `get-email-by-id` as written: the point read always throws, so the handler
        reports the syntax error and never the record or "Email not found". */
    method GetEmailByIdHandler(id: string) returns (r: LookupOutcome)
      requires Valid()
      modifies store
      ensures Valid() && store.tables == old(store.tables)
      ensures r == LookupFailed(Database.FromSyntaxError)
    {
      var email := store.GetEmailById(id);
      r := LookupOutcomeOf(email);
    }

    /** `get-email-by-id` over the corrected point read: the record, or a not-found
        failure. */
    method GetEmailByIdHandlerIntended(id: string) returns (r: LookupOutcome)
      requires Valid()
      modifies store
      ensures Valid() && store.tables == old(store.tables)
      ensures Database.FindById(store.tables, id).None? ==> r == LookupFailed(EmailNotFound)
      ensures Database.FindById(store.tables, id).Some? ==> r == Found(Database.FindById(store.tables, id).value)
    {
      var email := store.GetEmailByIdIntended(id);
      r := LookupOutcomeOf(Ok(email));
    }

    /** `check-database`: the row count, and a sample row's id, subject and sender
        only when there is at least one row. */
    method CheckDatabaseHandler() returns (r: DbStatus)
      requires Valid()
      modifies this, store
      ensures Valid() && dbReady && store.tables == old(store.tables)
      ensures authServer == old(authServer) && sentCodes == old(sentCodes) && pendingCloses == old(pendingCloses)
      ensures windowAvailable == old(windowAvailable)
      ensures r.count == |store.tables.rows|
      ensures r.sample <==> r.count > 0
      ensures r.sampleData.Some? <==> r.count > 0
      ensures r.sampleData.Some? ==>
                var s := r.sampleData.value;
                s.id in store.tables.rows && s.subject == store.tables.rows[s.id].subject &&
                s.sender == store.tables.rows[s.id].sender
    {
      if !dbReady {
        store.InitDatabase();
        dbReady := true;
      }
      var rows := store.tables.rows;
      var count := |rows|;
      var sampleData: Option<Sample> := None;
      if count > 0 {
        var id :| id in rows;
        sampleData := Some(Sample(id, rows[id].subject, rows[id].sender));
      }
      r := DbStatus(count, sampleData.Some?, sampleData);
    }
  }

  /** Two consent flows in a row, then the callback arrives at the first server:
      the close it schedules shuts the second server and leaves the first
      listening. */
  method StaleServerStaysOpen(a: Port, b: Port, code: string, generate: Auth.ConsentRequest -> string)
    returns (first: Server, second: Server)
    requires code != ""
    ensures first.port == a && second.port == b
    ensures first.listening && !second.listening
  {
    var auth := new Auth.TokenManager(None);
    var store := new Database.EmailStore(false, Database.EmptyTables);
    var app := new App(auth, store, true);
    var _ := app.GetAuthUrlHandler(a, generate);
    first := app.authServer;
    var _ := app.GetAuthUrlHandler(b, generate);
    second := app.authServer;
    var resp := app.HandleAuthRequest(first, Request("/", map["code" := One(code)]));
    app.FireCloseTimer();
  }
}
