// The request handler of the contact-email function: the order in which it
// answers a preflight, rate-limits the caller, parses and validates the
// body, and hands the sanitized submission to the webhook and the mailer.
// Outbound calls are recorded as effects; whether each mail send throws is
// a parameter.

module Handler {
  import opened Text
  import opened Html
  import opened Intake
  import opened RateLimit
  import opened Cors

  /** What `await req.json()` produces: an object (any other JSON value but
      `null` reads as an object whose properties are all absent), `null`,
      on which reading `website` throws, or a parse error. */
  datatype Body = Parsed(data: ContactRequest) | NullBody | Malformed

  /** The parts of the request the handler reads. */
  datatype Request = Request(
    httpMethod: string,
    origin: Option<string>,
    forwardedFor: Option<string>,
    cfConnectingIp: Option<string>,
    body: Body)

  /** The JSON reply; `Preflight` is the empty body of the OPTIONS answer. */
  datatype Reply = Preflight | Success | TooManyRequests | InvalidInput | SendFailed

  function ReplyText(r: Reply): string
  {
    match r
    case Preflight => ""
    case Success => "{\"success\":true}"
    case TooManyRequests => "{\"error\":\"Too many requests. Please try again later.\"}"
    case InvalidInput => "{\"error\":\"Invalid input. Please check your form data.\"}"
    case SendFailed => "{\"error\":\"Unable to send message. Please try again later.\"}"
  }

  datatype Response = Response(status: nat, reply: Reply, cors: CorsHeaders)

  /** An outbound call, carrying the record it sends. */
  datatype Effect = Webhook(record: ContactRequest) | Notification(record: ContactRequest) | Confirmation(record: ContactRequest)

  /** Which of the two awaited mail sends throws. The webhook call catches
      its own errors and is not awaited, so it never fails the request. */
  datatype Mail = Mail(notificationThrows: bool, confirmationThrows: bool)

  /** The response, the limiter's table afterwards, and the outbound calls
      made, in order. */
  datatype Handled = Handled(response: Response, table: map<string, Window>, effects: seq<Effect>)

  // ---------------------------------------------------------------------
  // The client key

  /** `s.split(",")[0]`: everything before the first comma. */
  function FirstEntry(s: string): (r: string)
    ensures r <= s && ',' !in r
    ensures |r| < |s| ==> s[|r|] == ','
  {
    if s == [] || s[0] == ',' then [] else [s[0]] + FirstEntry(s[1..])
  }

  /** `x-forwarded-for?.split(",")[0]?.trim() || cf-connecting-ip || "unknown"`;
      an empty string is falsy at each step. */
  function ClientIp(forwardedFor: Option<string>, cfConnectingIp: Option<string>): string
  {
    var first := if forwardedFor.Some? then Trim(FirstEntry(forwardedFor.value)) else [];
    if first != [] then first
    else if cfConnectingIp.Some? && cfConnectingIp.value != [] then cfConnectingIp.value
    else "unknown"
  }

  /** The key is never empty; it is the trimmed first forwarded address when
      that is not blank, then the Cloudflare header when that is not empty,
      and otherwise the shared key "unknown". */
  lemma ClientIpChoice(forwardedFor: Option<string>, cfConnectingIp: Option<string>)
    ensures ClientIp(forwardedFor, cfConnectingIp) != []
    ensures forwardedFor.Some? && !AllWhitespace(FirstEntry(forwardedFor.value)) ==>
      ClientIp(forwardedFor, cfConnectingIp) == Trim(FirstEntry(forwardedFor.value))
      && ',' !in ClientIp(forwardedFor, cfConnectingIp)
    ensures (forwardedFor.None? || AllWhitespace(FirstEntry(forwardedFor.value))) ==>
      ClientIp(forwardedFor, cfConnectingIp) ==
        (if cfConnectingIp.Some? && cfConnectingIp.value != [] then cfConnectingIp.value else "unknown")
  {
    if forwardedFor.Some? {
      var f := FirstEntry(forwardedFor.value);
      TrimEmptyIff(f);
      TrimIsInfix(f);
    }
  }

  // ---------------------------------------------------------------------
  // The handler

  /** The status, reply and outbound calls of the part of the handler that
      runs once the caller has been admitted. */
  datatype Verdict = Verdict(status: nat, reply: Reply, effects: seq<Effect>)

  /** The awaited sends of an accepted submission: the webhook (never
      failing), the notification, then the confirmation. */
  function Deliver(s: ContactRequest, mail: Mail): (v: Verdict)
    ensures 2 <= |v.effects| <= 3 && v.effects[..2] == [Webhook(s), Notification(s)]
    ensures forall i :: 0 <= i < |v.effects| ==> v.effects[i].record == s
    ensures |v.effects| == 3 <==> !mail.notificationThrows
    ensures |v.effects| == 3 ==> v.effects[2] == Confirmation(s)
    ensures v.status == 200 <==> !mail.notificationThrows && !mail.confirmationThrows
    ensures v.status != 200 ==> v == Verdict(500, SendFailed, v.effects)
  {
    var sent := [Webhook(s), Notification(s)];
    if mail.notificationThrows then Verdict(500, SendFailed, sent)
    else if mail.confirmationThrows then Verdict(500, SendFailed, sent + [Confirmation(s)])
    else Verdict(200, Success, sent + [Confirmation(s)])
  }

  /** From `await req.json()` to the end of the `try` block. */
  function Submit(body: Body, mail: Mail): (v: Verdict)
    ensures v.status in {200, 400, 500}
    ensures v.status == 200 <==> v.reply == Success
    ensures v.status == 500 <==> v.reply == SendFailed
  {
    if !body.Parsed? then Verdict(500, SendFailed, [])
    else
      match Validate(body.data)
      case Thrown => Verdict(500, SendFailed, [])
      case Normal(v) =>
        if v.isBot then Verdict(200, Success, [])
        else if !v.valid then Verdict(400, InvalidInput, [])
        else Deliver(v.sanitized, mail)
  }

  /** What one request does, from the first line of `handler` to its
      response. */
  function HandleSpec(req: Request, table: map<string, Window>, now: int, mail: Mail): (h: Handled)
    ensures h.response.cors == GetCorsHeaders(req.origin)
    ensures h.response.status in {200, 400, 429, 500}
    ensures h.response.status == 200 <==> h.response.reply in {Preflight, Success}
    ensures h.response.status == 500 <==> h.response.reply == SendFailed
    ensures h.table == table || (req.httpMethod != "OPTIONS" && h.table == Check(table, ClientIp(req.forwardedFor, req.cfConnectingIp), now).table)
  {
    var cors := GetCorsHeaders(req.origin);
    if req.httpMethod == "OPTIONS" then
      Handled(Response(200, Preflight, cors), table, [])
    else
      var rl := Check(table, ClientIp(req.forwardedFor, req.cfConnectingIp), now);
      if !rl.allowed then
        Handled(Response(429, TooManyRequests, cors), rl.table, [])
      else
        var v := Submit(req.body, mail);
        Handled(Response(v.status, v.reply, cors), rl.table, v.effects)
  }

  /** The `try` block after the rate limit: parse, validate, send. */
  method Process(body: Body, mail: Mail) returns (status: nat, reply: Reply, effects: seq<Effect>)
    ensures Verdict(status, reply, effects) == Submit(body, mail)
  {
    effects := [];
    if !body.Parsed? {
      return 500, SendFailed, effects;
    }
    var result := ValidateAndSanitizeInput(body.data);
    if result.Thrown? {
      return 500, SendFailed, effects;
    }
    var v := result.value;
    if v.isBot {
      return 200, Success, effects;
    }
    if !v.valid {
      return 400, InvalidInput, effects;
    }

    var sanitized := v.sanitized;
    assert Submit(body, mail) == Deliver(sanitized, mail);
    effects := [Webhook(sanitized), Notification(sanitized)];
    if mail.notificationThrows {
      return 500, SendFailed, effects;
    }
    effects := effects + [Confirmation(sanitized)];
    if mail.confirmationThrows {
      return 500, SendFailed, effects;
    }
    return 200, Success, effects;
  }

  /** `handler(req)`, with the module-level limiter passed in. */
  method Handle(limiter: RateLimiter, req: Request, now: int, mail: Mail) returns (response: Response, effects: seq<Effect>)
    requires limiter.Valid()
    modifies limiter
    ensures limiter.Valid()
    ensures Handled(response, limiter.table, effects) == HandleSpec(req, old(limiter.table), now, mail)
  {
    var cors := GetCorsHeaders(req.origin);
    if req.httpMethod == "OPTIONS" {
      return Response(200, Preflight, cors), [];
    }

    var clientIp := ClientIp(req.forwardedFor, req.cfConnectingIp);
    var allowed := limiter.CheckRateLimit(clientIp, now);
    if !allowed {
      return Response(429, TooManyRequests, cors), [];
    }

    var status, reply;
    status, reply, effects := Process(req.body, mail);
    response := Response(status, reply, cors);
  }

  // ---------------------------------------------------------------------
  // The decision order

  /** A preflight is answered before anything else: no limiter slot is
      used and nothing is sent. */
  lemma PreflightTouchesNothing(req: Request, table: map<string, Window>, now: int, mail: Mail)
    requires req.httpMethod == "OPTIONS"
    ensures HandleSpec(req, table, now, mail) == Handled(Response(200, Preflight, GetCorsHeaders(req.origin)), table, [])
  {
  }

  /** Every other request takes a limiter slot before its body is read, so
      bots, invalid submissions and unparsable bodies use one too. */
  lemma SlotTakenBeforeBody(req: Request, table: map<string, Window>, now: int, mail: Mail)
    requires req.httpMethod != "OPTIONS"
    ensures var key := ClientIp(req.forwardedFor, req.cfConnectingIp);
      HandleSpec(req, table, now, mail).table == Check(table, key, now).table
      && (Check(table, key, now).allowed <==> HandleSpec(req, table, now, mail).response.status != 429)
  {
  }

  /** A refused caller gets 429 whatever the body, and nothing is sent. */
  lemma RateLimitedIgnoresBody(req: Request, body: Body, table: map<string, Window>, now: int, mail: Mail)
    requires req.httpMethod != "OPTIONS"
    requires !Check(table, ClientIp(req.forwardedFor, req.cfConnectingIp), now).allowed
    ensures HandleSpec(req, table, now, mail) == HandleSpec(req.(body := body), table, now, mail)
    ensures HandleSpec(req, table, now, mail) == Handled(Response(429, TooManyRequests, GetCorsHeaders(req.origin)), table, [])
  {
  }

  /** Not a preflight, and the limiter lets the caller through. */
  predicate Admitted(req: Request, table: map<string, Window>, now: int)
  {
    req.httpMethod != "OPTIONS"
    && Check(table, ClientIp(req.forwardedFor, req.cfConnectingIp), now).allowed
  }

  /** An admitted request is answered by the `try` block; any other gets
      its answer with nothing sent. */
  lemma AdmittedSubmits(req: Request, table: map<string, Window>, now: int, mail: Mail)
    ensures var h := HandleSpec(req, table, now, mail);
      Admitted(req, table, now) ==>
        var v := Submit(req.body, mail);
        h.response.status == v.status && h.response.reply == v.reply && h.effects == v.effects
    ensures !Admitted(req, table, now) ==> HandleSpec(req, table, now, mail).effects == []
  {
  }

  /** A filled honeypot gets the same 200 as a real submission, and nothing
      is sent. */
  lemma BotGetsSilentSuccess(d: ContactRequest, mail: Mail)
    requires d.website.Str? && !AllWhitespace(d.website.s)
    ensures Submit(Parsed(d), mail) == Verdict(200, Success, [])
  {
    HoneypotShortCircuits(d);
  }

  /** Mail goes out exactly for a parsed, acceptable submission that is not
      a bot and does not throw, and then it carries the sanitized record. */
  lemma SendsIff(body: Body, mail: Mail)
    ensures Submit(body, mail).effects != [] <==>
      body.Parsed? && Validate(body.data).Normal? && !Validate(body.data).value.isBot
      && Acceptable(body.data)
    ensures Submit(body, mail).effects != [] ==> Submit(body, mail) == Deliver(SanitizedRecord(body.data), mail)
  {
    if body.Parsed? && Validate(body.data).Normal? && !Validate(body.data).value.isBot {
      NonBotResult(body.data);
    }
  }

  /** The status is decided by the first step that stops the request: 400
      only for a non-bot submission that breaks a rule; 500 only for an
      unreadable body, a throwing validation or a throwing mail send. */
  lemma StatusIff(body: Body, mail: Mail)
    ensures Submit(body, mail).status == 400 <==>
      body.Parsed? && Validate(body.data).Normal?
      && !Validate(body.data).value.isBot && !Acceptable(body.data)
    ensures Submit(body, mail).status == 500 <==>
      !body.Parsed? || Validate(body.data).Thrown?
      || (Submit(body, mail).effects != [] && (mail.notificationThrows || mail.confirmationThrows))
  {
    SendsIff(body, mail);
    if body.Parsed? && Validate(body.data).Normal? && !Validate(body.data).value.isBot {
      NonBotResult(body.data);
    }
  }

  /** Everything sent out is the sanitized record: its text fields hold no
      markup, the honeypot is dropped, and the confirmation goes to the
      submitted address, lowercased. */
  lemma OnlySanitizedLeaves(d: ContactRequest, mail: Mail)
    ensures var effects := Submit(Parsed(d), mail).effects;
      forall i :: 0 <= i < |effects| ==> effects[i].record == SanitizedRecord(d)
    ensures Submit(Parsed(d), mail).effects != [] ==>
      var r := SanitizedRecord(d);
      r.website == Missing && HtmlSafe(r.name) && HtmlSafe(r.message) && HtmlSafe(r.formType)
      && r.email == Str(ToLower(d.email.s))
  {
    SendsIff(Parsed(d), mail);
    if Submit(Parsed(d), mail).effects != [] {
      SanitizedRecordSafe(d);
      AcceptedRecordFaithful(d);
    }
  }
}
