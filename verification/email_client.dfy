/**
 * The transactional e-mail client: the request `send_email` builds and the
 * way it turns what the transport reports into success or a delivery
 * error. The HTTP transport itself is a parameter: a function from the
 * request to the outcome it produced.
 */
module Email {
  import opened Wrappers
  import opened Text
  import opened Domain
  import opened Configuration

  /** The client: sender, endpoint, credential, and the timeout its transport was built with. */
  datatype EmailClient = EmailClient(
    sender: SubscriberEmail,
    baseUrl: string,
    timeout: Duration,
    apiKey: string)

  /** `EmailClient::new`: keeps the three values unchanged and builds the transport with the timeout. */
  function New(baseUrl: string, sender: SubscriberEmail, apiKey: string, timeout: Duration): (c: EmailClient)
    ensures c.baseUrl == baseUrl && c.sender == sender && c.apiKey == apiKey
    ensures TotalNanos(c.timeout) == TotalNanos(timeout)
  {
    EmailClient(sender, baseUrl, timeout, apiKey)
  }

  /** The JSON body, field by field in declaration order. */
  datatype SendEmailRequest = SendEmailRequest(
    from: string,
    to: string,
    subject: string,
    text: string,
    html: string)

  /** The five members of the JSON object. */
  datatype Member = From | To | Subject | TextPart | Html

  /** The name each member is serialised under: the field's own name. */
  function MemberName(m: Member): (r: string)
    ensures |r| > 0
  {
    match m
    case From => "from"
    case To => "to"
    case Subject => "subject"
    case TextPart => "text"
    case Html => "html"
  }

  /** The five names are distinct, so every member can be found by its name. */
  lemma MemberNamesDistinct(m1: Member, m2: Member)
    ensures MemberName(m1) == MemberName(m2) <==> m1 == m2
  {
    if m1 != m2 {
      var n1, n2 := MemberName(m1), MemberName(m2);
      assert n1[0] != n2[0] || |n1| != |n2|;
    }
  }

  /** The body as serialised: a JSON object whose members follow the declaration order. */
  function BodyFields(body: SendEmailRequest): seq<(Member, string)> {
    [(From, body.from), (To, body.to), (Subject, body.subject), (TextPart, body.text), (Html, body.html)]
  }

  function Keys<K>(fields: seq<(K, string)>): seq<K> {
    if fields == [] then [] else [fields[0].0] + Keys(fields[1..])
  }

  /** The value stored under `key`: what `body.get(key)` or a header lookup returns. */
  function Lookup<K(==)>(fields: seq<(K, string)>, key: K): Option<string> {
    if fields == [] then None
    else if fields[0].0 == key then Some(fields[0].1)
    else Lookup(fields[1..], key)
  }

  /** A lookup finds nothing exactly when no member has the name, and otherwise the first value stored under it. */
  lemma {:induction false} LookupFindsFirst<K>(fields: seq<(K, string)>, key: K)
    ensures Lookup(fields, key).None? <==> key !in Keys(fields)
    ensures Lookup(fields, key).Some? ==>
              exists i :: 0 <= i < |fields| && fields[i] == (key, Lookup(fields, key).value)
                          && forall j :: 0 <= j < i ==> fields[j].0 != key
  {
    if fields != [] && fields[0].0 != key {
      LookupFindsFirst(fields[1..], key);
      if Lookup(fields, key).Some? {
        var i :| 0 <= i < |fields[1..]| && fields[1..][i] == (key, Lookup(fields, key).value)
                 && forall j :: 0 <= j < i ==> fields[1..][j].0 != key;
        assert fields[i + 1] == (key, Lookup(fields, key).value);
        assert forall j :: 0 < j < i + 1 ==> fields[j] == fields[1..][j - 1];
      }
    } else if fields != [] {
      assert fields[0] == (key, Lookup(fields, key).value);
    }
  }

  /** Each of the five members is present, in declaration order, holding the field of the same name. */
  lemma BodyFieldsLookup(body: SendEmailRequest)
    ensures Keys(BodyFields(body)) == [From, To, Subject, TextPart, Html]
    ensures Lookup(BodyFields(body), From) == Some(body.from)
    ensures Lookup(BodyFields(body), To) == Some(body.to)
    ensures Lookup(BodyFields(body), Subject) == Some(body.subject)
    ensures Lookup(BodyFields(body), TextPart) == Some(body.text)
    ensures Lookup(BodyFields(body), Html) == Some(body.html)
  {
    var f0 := BodyFields(body);
    var f1 := f0[1..];
    var f2 := f1[1..];
    var f3 := f2[1..];
    var f4 := f3[1..];
    assert f4 == [(Html, body.html)] && f4[1..] == [];
    assert Lookup(f4, Html) == Some(body.html);
    assert Lookup(f3, Html) == Lookup(f4, Html) && Lookup(f3, TextPart) == Some(body.text);
    assert Lookup(f2, Html) == Lookup(f3, Html) && Lookup(f2, TextPart) == Lookup(f3, TextPart);
    assert Lookup(f1, Html) == Lookup(f2, Html) && Lookup(f1, TextPart) == Lookup(f2, TextPart);
    assert Lookup(f0, Html) == Lookup(f1, Html) && Lookup(f0, TextPart) == Lookup(f1, TextPart);
    assert Lookup(f1, Subject) == Lookup(f2, Subject) == Some(body.subject);
    assert Lookup(f0, Subject) == Lookup(f1, Subject);
    assert Lookup(f0, To) == Lookup(f1, To) == Some(body.to);
    assert Keys(f4) == [Html];
    assert Keys(f3) == [TextPart, Html];
    assert Keys(f2) == [Subject, TextPart, Html];
    assert Keys(f1) == [To, Subject, TextPart, Html];
  }

  datatype Method = Get | Post

  datatype Request = Request(verb: Method, url: string, headers: seq<(string, string)>, body: seq<(Member, string)>)

  const MessagesPath := "/messages"
  const BasicScheme := "Basic "

  /** The request `send_email` hands to the transport. */
  function BuildRequest(client: EmailClient, recipient: SubscriberEmail, subject: string, html: string, text: string)
    : (r: Request)
    ensures r.verb == Post
    ensures r.url == client.baseUrl + MessagesPath
    ensures Lookup(r.headers, "Authorization") == Some(BasicScheme + client.apiKey)
    ensures Lookup(r.headers, "Content-Type") == Some("application/json")
    ensures r.body == BodyFields(SendEmailRequest(client.sender.address, recipient.address, subject, text, html))
  {
    var body := SendEmailRequest(client.sender.address, recipient.address, subject, text, html);
    var headers := [("Authorization", BasicScheme + client.apiKey), ("Content-Type", "application/json")];
    assert "Authorization"[0] == 'A' && "Content-Type"[0] == 'C';
    assert headers[1..] == [("Content-Type", "application/json")];
    Request(Post, client.baseUrl + MessagesPath, headers, BodyFields(body))
  }

  /**
   * The body of a built request: the sender and the recipient, and each
   * argument under the member of its own name, although the parameters come
   * in the order subject, html, text.
   */
  lemma RequestBody(client: EmailClient, recipient: SubscriberEmail, subject: string, html: string, text: string)
    ensures var r := BuildRequest(client, recipient, subject, html, text);
            && Keys(r.body) == [From, To, Subject, TextPart, Html]
            && Lookup(r.body, From) == Some(client.sender.address)
            && Lookup(r.body, To) == Some(recipient.address)
            && Lookup(r.body, Subject) == Some(subject)
            && Lookup(r.body, TextPart) == Some(text)
            && Lookup(r.body, Html) == Some(html)
  {
    BodyFieldsLookup(SendEmailRequest(client.sender.address, recipient.address, subject, text, html));
  }

  /** What a server reads from the Authorization header: the parameter of the Basic scheme. */
  function BasicCredential(value: string): (r: Option<string>)
    ensures r.Some? <==> StartsWith(value, BasicScheme)
  {
    if StartsWith(value, BasicScheme) then Some(value[|BasicScheme|..]) else None
  }

  /** The key travels verbatim: the header's Basic parameter is the configured key, not an encoding of it. */
  lemma AuthorizationCarriesKey(client: EmailClient, recipient: SubscriberEmail, subject: string, html: string, text: string)
    ensures var value := Lookup(BuildRequest(client, recipient, subject, html, text).headers, "Authorization").value;
            BasicCredential(value) == Some(client.apiKey)
  {
    var value := BasicScheme + client.apiKey;
    assert value[..|BasicScheme|] == BasicScheme;
    assert value[|BasicScheme|..] == client.apiKey;
  }

  /** The URL is a plain concatenation: a base URL ending in '/' yields "//messages". */
  lemma NoSlashNormalisation(client: EmailClient, recipient: SubscriberEmail, subject: string, html: string, text: string)
    requires |client.baseUrl| > 0 && client.baseUrl[|client.baseUrl| - 1] == '/'
    ensures var url := BuildRequest(client, recipient, subject, html, text).url;
            url[|client.baseUrl| - 1..] == "/" + MessagesPath
  {
    var url := client.baseUrl + MessagesPath;
    assert url[|client.baseUrl| - 1..] == [client.baseUrl[|client.baseUrl| - 1]] + MessagesPath;
  }

  /** The mock server's body matcher: a JSON object with all five members present. */
  predicate BodyMatches(body: seq<(Member, string)>) {
    Lookup(body, From).Some? && Lookup(body, To).Some? && Lookup(body, Subject).Some?
    && Lookup(body, Html).Some? && Lookup(body, TextPart).Some?
  }

  /** Every request `send_email` builds satisfies the unit test's matchers. */
  lemma RequestMatchesMock(client: EmailClient, recipient: SubscriberEmail, subject: string, html: string, text: string,
                           serverUri: string)
    requires client.baseUrl == serverUri
    ensures var r := BuildRequest(client, recipient, subject, html, text);
            && r.verb == Post
            && Lookup(r.headers, "Authorization").Some?
            && Lookup(r.headers, "Content-Type") == Some("application/json")
            && r.url == serverUri + "/messages"
            && BodyMatches(r.body)
  {
    BodyFieldsLookup(SendEmailRequest(client.sender.address, recipient.address, subject, text, html));
  }

  // ---------------------------------------------------------------- outcome

  /** An HTTP status code, as the transport represents one. */
  type StatusCode = s: int | 100 <= s <= 999 witness 200

  /** What the transport reports: a response with its delay in milliseconds, or a transport-level failure. */
  datatype Outcome = Response(status: StatusCode, delayMs: nat) | TransportError

  /** The single error type of `send_email`; the variant is a detail carried inside it. */
  datatype DeliveryError = TimedOut | ErrorStatus(status: StatusCode) | TransportFailed

  /** `error_for_status`: client errors (4xx) and server errors (5xx). */
  predicate IsErrorStatus(status: StatusCode) {
    400 <= status <= 599
  }

  /** A response counts only if it arrives before the transport's timeout elapses. */
  predicate ArrivesInTime(timeout: Duration, delayMs: nat) {
    delayMs * NanosPerMilli < TotalNanos(timeout)
  }

  /** `send(...).await?` then `error_for_status()?` then `Ok(())`. */
  function Classify(timeout: Duration, outcome: Outcome): (r: Result<(), DeliveryError>)
    ensures r.Ok? <==> outcome.Response? && ArrivesInTime(timeout, outcome.delayMs) && !IsErrorStatus(outcome.status)
    ensures outcome.TransportError? ==> r == Err(TransportFailed)
  {
    match outcome
    case TransportError => Err(TransportFailed)
    case Response(status, delayMs) =>
      if !ArrivesInTime(timeout, delayMs) then Err(TimedOut)
      else if IsErrorStatus(status) then Err(ErrorStatus(status))
      else Ok(())
  }

  /** `send_email`: one request, handed once to the transport, and its outcome classified. */
  function SendEmail(client: EmailClient, recipient: SubscriberEmail, subject: string, html: string, text: string,
                     transport: Request -> Outcome): (r: Result<(), DeliveryError>)
    ensures var outcome := transport(BuildRequest(client, recipient, subject, html, text));
            r.Ok? <==> outcome.Response? && ArrivesInTime(client.timeout, outcome.delayMs) && !IsErrorStatus(outcome.status)
  {
    Classify(client.timeout, transport(BuildRequest(client, recipient, subject, html, text)))
  }

  /** The test client's timeout: 200 milliseconds. */
  function TestTimeout(): (d: Duration)
    ensures TotalNanos(d) == 200 * NanosPerMilli
  {
    FromMillis(200)
  }

  /** A prompt 200 is a success. */
  lemma SucceedsOn200(client: EmailClient, recipient: SubscriberEmail, subject: string, html: string, text: string,
                      transport: Request -> Outcome)
    requires client.timeout == TestTimeout()
    requires forall req :: transport(req) == Response(200, 0)
    ensures SendEmail(client, recipient, subject, html, text, transport) == Ok(())
  {
  }

  /** A 500 is a delivery error. */
  lemma FailsOn500(client: EmailClient, recipient: SubscriberEmail, subject: string, html: string, text: string,
                   transport: Request -> Outcome)
    requires forall req :: transport(req) == Response(500, 0)
    ensures SendEmail(client, recipient, subject, html, text, transport).Err?
  {
  }

  /** A 200 that takes three minutes against a 200 ms timeout is a delivery error, and a timeout. */
  lemma TimesOutOnSlowServer(client: EmailClient, recipient: SubscriberEmail, subject: string, html: string, text: string,
                             transport: Request -> Outcome)
    requires client.timeout == TestTimeout()
    requires forall req :: transport(req) == Response(200, 180_000)
    ensures SendEmail(client, recipient, subject, html, text, transport) == Err(TimedOut)
  {
  }

  /** A rejection and a network failure reach the caller as the same error type; nothing else distinguishes them. */
  lemma ErrorsShareOneKind(timeout: Duration, status: StatusCode, delayMs: nat)
    requires IsErrorStatus(status) && ArrivesInTime(timeout, delayMs)
    ensures Classify(timeout, Response(status, delayMs)).Err?
    ensures Classify(timeout, TransportError).Err?
  {
  }

  /** Sending does not depend on earlier sends: the same client and arguments give the same request every time. */
  lemma RepeatedSendsShareClientValues(client: EmailClient, to1: SubscriberEmail, to2: SubscriberEmail,
                                       s1: string, h1: string, t1: string, s2: string, h2: string, t2: string)
    ensures var r1 := BuildRequest(client, to1, s1, h1, t1);
            var r2 := BuildRequest(client, to2, s2, h2, t2);
            r1.url == r2.url && r1.headers == r2.headers && Lookup(r1.body, From) == Some(client.sender.address)
            && Lookup(r2.body, From) == Some(client.sender.address)
  {
    BodyFieldsLookup(SendEmailRequest(client.sender.address, to1.address, s1, t1, h1));
    BodyFieldsLookup(SendEmailRequest(client.sender.address, to2.address, s2, t2, h2));
  }

  // ---------------------------------------------------------------- wiring

  /** Builds the client from resolved settings: the sender must parse, the timeout is the configured one. */
  function ClientFromSettings(settings: EmailClientSettings, parser: EmailParser): (r: Result<EmailClient, string>)
    ensures r.Ok? <==> parser.accepts(settings.senderEmail)
    ensures r.Err? ==> r.error == parser.reason(settings.senderEmail)
  {
    match Sender(settings, parser)
    case Err(e) => Err(e)
    case Ok(sender) => Ok(New(settings.baseUrl, sender, settings.apiKey, Timeout(settings)))
  }

  /** A client built from settings sends to the configured endpoint, with the configured key and sender. */
  lemma ConfiguredRequest(settings: EmailClientSettings, parser: EmailParser, recipient: SubscriberEmail,
                          subject: string, html: string, text: string)
    requires parser.accepts(settings.senderEmail)
    ensures var client := ClientFromSettings(settings, parser).value;
            var r := BuildRequest(client, recipient, subject, html, text);
            && r.url == settings.baseUrl + "/messages"
            && Lookup(r.headers, "Authorization") == Some("Basic " + settings.apiKey)
            && Lookup(r.body, From) == Some(settings.senderEmail)
            && TotalNanos(client.timeout) == settings.timeoutMilliseconds * NanosPerMilli
  {
    var client := ClientFromSettings(settings, parser).value;
    BodyFieldsLookup(SendEmailRequest(client.sender.address, recipient.address, subject, text, html));
  }
}
