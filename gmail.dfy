/** The message normaliser: a Gmail API message payload becomes a flat email
    record (header lookup and body-part selection), and a fetch lists message ids
    and normalises the fetched message of each.  The Gmail API's list and get
    calls and the base64/UTF-8 decoder are oracles passed in by the caller. */
module Gmail {
  import opened Wrappers
  import Auth

  /** The placeholder subject ("no subject" in Korean). */
  const NoSubject: string := "(\U{C81C}\U{BAA9} \U{C5C6}\U{C74C})"

  /** The messages of the TypeErrors the normaliser throws on a missing field. */
  const NoPayloadError: string := "Cannot read properties of undefined (reading 'headers')"
  const NoHeadersError: string := "Cannot read properties of undefined (reading 'find')"
  const NoPartBodyError: string := "Cannot read properties of undefined (reading 'data')"

  datatype Header = Header(name: string, value: string)
  /** A message part body; `data` is base64-encoded content. */
  datatype Body = Body(data: Option<string>)
  datatype Part = Part(mimeType: string, body: Option<Body>)
  datatype Payload = Payload(headers: Option<seq<Header>>, parts: Option<seq<Part>>, body: Option<Body>)

  /** A message as the Gmail API's get call returns it. */
  datatype Message = Message(
    id: string,
    threadId: string,
    labelIds: Option<seq<string>>,
    snippet: string,
    internalDate: string,
    payload: Option<Payload>)

  /** The normalised record handed to the store. */
  datatype Email = Email(
    id: string,
    threadId: string,
    labelIds: Option<seq<string>>,
    snippet: string,
    subject: string,
    from: string,
    to: string,
    date: string,
    body: string,
    internalDate: string)

  /** The index of the first element satisfying `p` (Array.prototype.find). */
  function Find<T>(s: seq<T>, p: T -> bool): (r: Option<nat>)
    ensures r.None? <==> forall i | 0 <= i < |s| :: !p(s[i])
    ensures r.Some? ==> r.value < |s| && p(s[r.value]) && forall j | 0 <= j < r.value :: !p(s[j])
    ensures forall i | 0 <= i < |s| && p(s[i]) && (forall j | 0 <= j < i :: !p(s[j])) :: r == Some(i)
  {
    if |s| == 0 then None
    else if p(s[0]) then Some(0)
    else match Find(s[1..], p)
      case None => None
      case Some(i) => Some(i + 1)
  }

  /** The value of the first header named exactly `name`, or `default` when there
      is none or its value is empty. */
  function HeaderValue(hs: seq<Header>, name: string, default: string): (v: string)
    ensures (forall i | 0 <= i < |hs| :: hs[i].name != name) ==> v == default
    ensures forall i | 0 <= i < |hs| && hs[i].name == name && (forall j | 0 <= j < i :: hs[j].name != name) ::
              v == (if hs[i].value != "" then hs[i].value else default)
  {
    match Find(hs, (h: Header) => h.name == name)
    case None => default
    case Some(i) => if hs[i].value != "" then hs[i].value else default
  }

  /** A part that the body selection accepts. */
  predicate IsTextPart(p: Part) {
    p.mimeType == "text/plain" || p.mimeType == "text/html"
  }

  /** JavaScript truthiness of an optional string. */
  predicate IsTruthy(s: Option<string>) {
    s.Some? && s.value != ""
  }

  /** The decoded content of an optional body, or "" when it holds no data. */
  function BodyText(b: Body, decode: string -> string): string {
    if IsTruthy(b.data) then decode(b.data.value) else ""
  }

  /** The body text: with a non-empty parts list, the first plain-text or HTML part
      decides alone; otherwise the payload's own body. */
  function ExtractBody(pl: Payload, decode: string -> string): (r: Result<string, string>)
    ensures (pl.parts.Some? && |pl.parts.value| > 0 &&
             forall i | 0 <= i < |pl.parts.value| :: !IsTextPart(pl.parts.value[i])) ==> r == Ok("")
    ensures pl.parts.Some? && |pl.parts.value| > 0 ==>
              forall i | 0 <= i < |pl.parts.value| && IsTextPart(pl.parts.value[i]) &&
                         (forall j | 0 <= j < i :: !IsTextPart(pl.parts.value[j])) ::
                r == (if pl.parts.value[i].body.None? then Err(NoPartBodyError)
                      else Ok(BodyText(pl.parts.value[i].body.value, decode)))
    ensures (pl.parts.None? || |pl.parts.value| == 0) ==>
              r == Ok(if pl.body.Some? then BodyText(pl.body.value, decode) else "")
  {
    if pl.parts.Some? && |pl.parts.value| > 0 then
      match Find(pl.parts.value, IsTextPart)
      case None => Ok("")
      case Some(i) =>
        var part := pl.parts.value[i];
        if part.body.None? then Err(NoPartBodyError) else Ok(BodyText(part.body.value, decode))
    else if pl.body.Some? then Ok(BodyText(pl.body.value, decode))
    else Ok("")
  }

  /** Flattens a message into the record the store keeps. */
  function ProcessEmail(m: Message, decode: string -> string): (r: Result<Email, string>)
    ensures m.payload.None? ==> r == Err(NoPayloadError)
    ensures m.payload.Some? && m.payload.value.headers.None? ==> r == Err(NoHeadersError)
    ensures m.payload.Some? && m.payload.value.headers.Some? ==>
              (r.Err? <==> ExtractBody(m.payload.value, decode).Err?)
    ensures m.payload.Some? && m.payload.value.headers.Some? && ExtractBody(m.payload.value, decode).Err? ==>
              r == Err(ExtractBody(m.payload.value, decode).error)
    ensures r.Ok? ==> m.payload.Some? && m.payload.value.headers.Some?
    ensures r.Ok? ==>
              var hs := m.payload.value.headers.value;
              && r.value.id == m.id && r.value.threadId == m.threadId && r.value.labelIds == m.labelIds
              && r.value.snippet == m.snippet && r.value.internalDate == m.internalDate
              && r.value.subject == HeaderValue(hs, "Subject", NoSubject)
              && r.value.from == HeaderValue(hs, "From", "")
              && r.value.to == HeaderValue(hs, "To", "")
              && r.value.date == HeaderValue(hs, "Date", "")
              && r.value.body == ExtractBody(m.payload.value, decode).value
  {
    if m.payload.None? then Err(NoPayloadError)
    else if m.payload.value.headers.None? then Err(NoHeadersError)
    else
      var hs := m.payload.value.headers.value;
      match ExtractBody(m.payload.value, decode)
      case Err(e) => Err(e)
      case Ok(body) =>
        Ok(Email(m.id, m.threadId, m.labelIds, m.snippet,
                 HeaderValue(hs, "Subject", NoSubject), HeaderValue(hs, "From", ""),
                 HeaderValue(hs, "To", ""), HeaderValue(hs, "Date", ""),
                 body, m.internalDate))
  }

  /** Fetching and normalising one listed message. */
  function Normalize(get: string -> Result<Message, string>, decode: string -> string, id: string): Result<Email, string> {
    match get(id)
    case Err(e) => Err(e)
    case Ok(m) => ProcessEmail(m, decode)
  }

  /** The all-or-nothing, order-preserving outcome of running `fetchOne` over `ids`:
      one record per id in listing order when every call succeeds, and otherwise
      the error of one of the failed calls and no records. */
  ghost predicate FetchedInOrder(ids: seq<string>, fetchOne: string -> Result<Email, string>,
                                 r: Result<seq<Email>, string>)
  {
    && (r.Ok? <==> forall i | 0 <= i < |ids| :: fetchOne(ids[i]).Ok?)
    && (r.Ok? ==> |r.value| == |ids| && forall i | 0 <= i < |ids| :: fetchOne(ids[i]) == Ok(r.value[i]))
    && (r.Err? ==> exists i | 0 <= i < |ids| :: fetchOne(ids[i]) == Err(r.error))
  }

  /** Runs the per-message fetch over every listed id (the Promise.all over the ids). */
  method FetchAll(ids: seq<string>, fetchOne: string -> Result<Email, string>)
    returns (r: Result<seq<Email>, string>)
    ensures FetchedInOrder(ids, fetchOne, r)
  {
    var emails: seq<Email> := [];
    var i := 0;
    while i < |ids|
      invariant 0 <= i <= |ids| && |emails| == i
      invariant forall j | 0 <= j < i :: fetchOne(ids[j]) == Ok(emails[j])
    {
      var n := fetchOne(ids[i]);
      if n.Err? {
        return Err(n.error);
      }
      emails := emails + [n.value];
      i := i + 1;
    }
    r := Ok(emails);
  }

  /** The ids of a listing; an absent list counts as empty. */
  function Listed(messages: Option<seq<string>>): seq<string> {
    messages.GetOr([])
  }

  /** Lists up to `maxResults` message ids and fetches each one.  Fails as the
      client lookup, the listing or any single message fails. */
  method FetchEmails(auth: Auth.TokenManager, maxResults: int,
                     list: int -> Result<Option<seq<string>>, string>,
                     get: string -> Result<Message, string>, decode: string -> string)
    returns (r: Result<seq<Email>, string>)
    modifies auth
    ensures auth.client == Some(old(auth.LazyClient()))
    ensures auth.redirectUri == old(auth.redirectUri) && auth.storedToken == old(auth.storedToken)
    ensures auth.storedToken.None? ==> r == Err(Auth.NoTokenError)
    ensures auth.storedToken.Some? && list(maxResults).Err? ==> r == Err(list(maxResults).error)
    ensures auth.storedToken.Some? && list(maxResults).Ok? ==>
              FetchedInOrder(Listed(list(maxResults).value), id => Normalize(get, decode, id), r)
  {
    var client := auth.GetOAuth2Client();
    if client.Err? {
      return Err(client.error);
    }
    var response := list(maxResults);
    if response.Err? {
      return Err(response.error);
    }
    var ids := Listed(response.value);
    if |ids| == 0 {
      return Ok([]);
    }
    r := FetchAll(ids, id => Normalize(get, decode, id));
  }

  /** The body selection takes whichever accepted part comes first: an HTML part
      ahead of a plain-text part wins, and plain text is not preferred. */
  lemma FirstTextPartWins(html: string, plain: string, decode: string -> string)
    requires html != "" && plain != ""
    ensures ExtractBody(Payload(Some([]), Some([Part("text/html", Some(Body(Some(html)))),
                                              Part("text/plain", Some(Body(Some(plain))))]), None), decode)
            == Ok(decode(html))
  {
  }

  /** When the selected part carries no data the body is empty: no later part is
      tried and the payload's own body is ignored. */
  lemma SelectedPartWithoutDataGivesEmptyBody(plain: string, own: string, decode: string -> string)
    requires plain != "" && own != ""
    ensures ExtractBody(Payload(Some([]), Some([Part("text/html", Some(Body(None))),
                                              Part("text/plain", Some(Body(Some(plain))))]),
                                Some(Body(Some(own)))), decode)
            == Ok("")
  {
  }
}
