/** The OAuth2 token manager of the main process: the mutable redirect URI, the
    lazily created OAuth2 client, and the single "gmail-token" slot of the
    credential store.  Google's consent-URL builder and token endpoint are
    oracles passed in by the caller. */
module Auth {
  import opened Wrappers
  import Digits

  /** The redirect URI before any port is known. */
  const DefaultRedirectUri: string := "http://127.0.0.1"
  /** What a port number is appended to. */
  const LoopbackPrefix: string := "http://127.0.0.1:"
  /** The only scope requested. */
  const GmailReadonlyScope: string := "https://www.googleapis.com/auth/gmail.readonly"
  /** The credential-store key the token is kept under. */
  const TokenKey: string := "gmail-token"
  /** The message of the error thrown when no token is stored. */
  const NoTokenError: string := "No authentication token found. Please authenticate first."

  /** The token record returned by the token endpoint; the core never looks inside it. */
  datatype Token = Token(
    accessToken: Option<string>,
    refreshToken: Option<string>,
    tokenType: Option<string>,
    expiryDate: Option<int>,
    scope: Option<string>)

  /** The OAuth2 client object, reduced to the credentials set on it. */
  datatype Client = Client(credentials: Option<Token>)

  /** The options handed to the consent-URL builder. */
  datatype ConsentRequest = ConsentRequest(
    accessType: string,
    scope: seq<string>,
    redirectUri: string,
    prompt: string)

  /** What the code exchange reports to its caller. */
  datatype AuthResult = AuthSucceeded | AuthFailed(error: string)

  /** The consent request for a redirect URI: offline access, the read-only Gmail
      scope, forced re-consent. */
  function Consent(redirectUri: string): (c: ConsentRequest)
    ensures c.accessType == "offline" && c.prompt == "consent"
    ensures c.scope == [GmailReadonlyScope] && c.redirectUri == redirectUri
  {
    ConsentRequest("offline", [GmailReadonlyScope], redirectUri, "consent")
  }

  function DigitChar(d: nat): (c: char)
    requires d < 10
    ensures '0' <= c <= '9' && c as int - '0' as int == d
  {
    ('0' as int + d) as char
  }

  /** The decimal rendering of a port number, as a JavaScript template literal gives it. */
  function Decimal(n: nat): (s: string)
    ensures |s| >= 1
    ensures forall i | 0 <= i < |s| :: '0' <= s[i] <= '9'
    ensures n < 10 <==> |s| == 1
  {
    if n < 10 then [DigitChar(n)] else Decimal(n / 10) + [DigitChar(n % 10)]
  }

  /** Different numbers render as different strings. */
  lemma {:induction false} DecimalInjective(a: nat, b: nat)
    ensures Decimal(a) == Decimal(b) ==> a == b
  {
    if Decimal(a) == Decimal(b) {
      if a >= 10 && b >= 10 {
        var sa, sb := Decimal(a), Decimal(b);
        assert sa[|sa| - 1] == sb[|sb| - 1];
        assert a % 10 == b % 10;
        assert Decimal(a / 10) == sa[..|sa| - 1] == sb[..|sb| - 1] == Decimal(b / 10);
        DecimalInjective(a / 10, b / 10);
      }
    }
  }

  /** A port's decimal rendering denotes that port: the redirect URI carries the
      number the listener was bound to. */
  lemma {:induction false} DecimalDenotes(n: nat)
    ensures Digits.IsDigits(Decimal(n)) && Digits.Value(Decimal(n)) == n
  {
    var c := DigitChar(n % 10);
    if n < 10 {
      assert Decimal(n) == [] + [c];
      Digits.ValueAppend([], c);
    } else {
      DecimalDenotes(n / 10);
      Digits.ValueAppend(Decimal(n / 10), c);
    }
  }

  /** The redirect URI for a listener bound to `port`. */
  function LoopbackUri(port: nat): string {
    LoopbackPrefix + Decimal(port)
  }

  /** A loopback URI names its port exactly, and never equals the default URI. */
  lemma LoopbackUriIdentifiesPort(p: nat, q: nat)
    ensures LoopbackUri(p) == LoopbackUri(q) <==> p == q
    ensures LoopbackUri(p) != DefaultRedirectUri
  {
    if LoopbackUri(p) == LoopbackUri(q) {
      assert Decimal(p) == LoopbackUri(p)[|LoopbackPrefix|..] == LoopbackUri(q)[|LoopbackPrefix|..] == Decimal(q);
      DecimalInjective(p, q);
    }
  }

  /** JavaScript truthiness of the optional port argument: absent and 0 are falsy. */
  predicate PortIsTruthy(port: Option<nat>) {
    port.Some? && port.value != 0
  }

  /** The redirect URI after one consent-URL request with `port`. */
  function NextRedirect(current: string, port: Option<nat>): string {
    if PortIsTruthy(port) then LoopbackUri(port.value) else current
  }

  /** The redirect URI after a series of consent-URL requests, oldest first. */
  function RedirectAfter(start: string, ports: seq<Option<nat>>): string {
    if ports == [] then start else NextRedirect(RedirectAfter(start, ports[..|ports| - 1]), ports[|ports| - 1])
  }

  /** The redirect URI in force is the loopback URI of the most recent truthy port;
      with no truthy port it is still the starting URI. */
  lemma {:induction false} RedirectIsLastTruthyPort(start: string, ports: seq<Option<nat>>)
    ensures (forall i | 0 <= i < |ports| :: !PortIsTruthy(ports[i])) ==> RedirectAfter(start, ports) == start
    ensures forall i | 0 <= i < |ports| && PortIsTruthy(ports[i]) && (forall j | i < j < |ports| :: !PortIsTruthy(ports[j])) ::
              RedirectAfter(start, ports) == LoopbackUri(ports[i].value)
  {
    if ports != [] {
      var init := ports[..|ports| - 1];
      RedirectIsLastTruthyPort(start, init);
      assert forall i | 0 <= i < |init| :: init[i] == ports[i];
    }
  }

  /** The module-level state of the token manager. */
  class TokenManager {
    /** The redirect URI cell, reassigned by GetAuthUrl. */
    var redirectUri: string
    /** The OAuth2 client, created on first use. */
    var client: Option<Client>
    /** The credential store's "gmail-token" slot. */
    var storedToken: Option<Token>

    /** Process start: default redirect URI, no client yet, whatever token a
        previous run persisted. */
    constructor (persisted: Option<Token>)
      ensures redirectUri == DefaultRedirectUri && client == None && storedToken == persisted
    {
      redirectUri := DefaultRedirectUri;
      client := None;
      storedToken := persisted;
    }

    /** The client a lazy initialisation leaves in place: the existing one, or a
        fresh one holding the stored token. */
    function LazyClient(): Client
      reads this
    {
      if client.Some? then client.value else Client(storedToken)
    }

    /** Creates a new client and loads the stored token into it when there is one;
        an existing client is replaced. */
    method InitAuth() returns (c: Client)
      modifies this
      ensures c == Client(storedToken) && client == Some(c)
      ensures redirectUri == old(redirectUri) && storedToken == old(storedToken)
    {
      c := Client(storedToken);
      client := Some(c);
    }

    /** Creates the client if there is none yet. */
    method EnsureClient()
      modifies this
      ensures client == Some(old(LazyClient()))
      ensures redirectUri == old(redirectUri) && storedToken == old(storedToken)
    {
      if client.None? {
        var _ := InitAuth();
      }
    }

    /** Builds the consent URL; a truthy port first installs its loopback URI as
        the redirect URI. */
    method GetAuthUrl(port: Option<nat>, generate: ConsentRequest -> string) returns (url: string)
      modifies this
      ensures client == Some(old(LazyClient())) && storedToken == old(storedToken)
      ensures redirectUri == NextRedirect(old(redirectUri), port)
      ensures PortIsTruthy(port) ==> redirectUri == LoopbackUri(port.value)
      ensures !PortIsTruthy(port) ==> redirectUri == old(redirectUri)
      ensures url == generate(Consent(redirectUri))
    {
      EnsureClient();
      if port.Some? && port.value != 0 {
        redirectUri := LoopbackUri(port.value);
      }
      url := generate(Consent(redirectUri));
    }

    /** Exchanges an authorisation code for tokens, using the redirect URI in force.
        On success the client's credentials and the stored token both become the
        returned tokens; a failed exchange changes neither.  `storeError` is the
        error the credential store raises on write, if any: the credentials have
        then already been set. */
    method HandleAuthCallback(code: string, exchange: (string, string) -> Result<Token, string>,
                              storeError: Option<string>) returns (r: AuthResult)
      modifies this
      ensures redirectUri == old(redirectUri)
      ensures exchange(code, old(redirectUri)).Err? ==>
                r == AuthFailed(exchange(code, old(redirectUri)).error) &&
                client == Some(old(LazyClient())) && storedToken == old(storedToken)
      ensures exchange(code, old(redirectUri)).Ok? ==>
                client == Some(Client(Some(exchange(code, old(redirectUri)).value)))
      ensures exchange(code, old(redirectUri)).Ok? && storeError.None? ==>
                r == AuthSucceeded && storedToken == Some(exchange(code, old(redirectUri)).value)
      ensures exchange(code, old(redirectUri)).Ok? && storeError.Some? ==>
                r == AuthFailed(storeError.value) && storedToken == old(storedToken)
    {
      EnsureClient();
      var response := exchange(code, redirectUri);
      if response.Err? {
        return AuthFailed(response.error);
      }
      client := Some(Client(Some(response.value)));
      if storeError.Some? {
        return AuthFailed(storeError.value);
      }
      storedToken := Some(response.value);
      r := AuthSucceeded;
    }

    /** The client for API calls; fails when the store holds no token.  Only the
        lazy initialisation changes anything. */
    method GetOAuth2Client() returns (r: Result<Client, string>)
      modifies this
      ensures client == Some(old(LazyClient()))
      ensures redirectUri == old(redirectUri) && storedToken == old(storedToken)
      ensures storedToken.None? ==> r == Err(NoTokenError)
      ensures storedToken.Some? ==> r == Ok(client.value)
    {
      EnsureClient();
      if storedToken.None? {
        return Err(NoTokenError);
      }
      r := Ok(client.value);
    }
  }
}
