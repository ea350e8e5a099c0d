/** `validateAndSanitizeInput` of the contact-email function: the honeypot
    check, the collected rule violations and the sanitized record. */
module Intake {
  import opened Text
  import opened Html
  import opened Validators

  /** A property of the parsed JSON body: absent, a string, or some other
      JSON value, which is truthy (`true`, a non-zero number, an array, an
      object) or falsy (`null`, `false`, `0`). */
  datatype Field = Missing | Str(s: string) | NonText(truthy: bool)

  /** JavaScript truthiness of the property's value. */
  predicate Truthy(f: Field)
  {
    match f
    case Missing => false
    case Str(s) => s != []
    case NonText(t) => t
  }

  /** A truthy value that is not a string: calling `.trim()` on it throws. */
  predicate ThrowsOnTrim(f: Field)
  {
    f == NonText(true)
  }

  /** The `ContactEmailRequest` body; `website` is the honeypot. */
  datatype ContactRequest = ContactRequest(
    name: Field, email: Field, phone: Field, company: Field, jobTitle: Field,
    industry: Field, message: Field, formType: Field, budget: Field,
    timeline: Field, serviceInterest: Field, problemStatement: Field,
    website: Field)

  datatype ValidationResult = ValidationResult(
    valid: bool, errors: seq<ErrorMessage>, sanitized: ContactRequest, isBot: bool)

  /** How a JavaScript call ends: with a value, or by throwing. */
  datatype Completion<T> = Normal(value: T) | Thrown

  const NameCap := 100
  const MessageCap := 5000
  const FormTypeCap := 50
  const CompanyCap := 100
  const JobTitleCap := 100
  const IndustryCap := 100
  const BudgetCap := 50
  const TimelineCap := 50
  const ServiceInterestCap := 100
  const ProblemStatementCap := 1000

  /** The messages pushed onto `errors`, one per rule outcome, plus the
      single message of a tripped honeypot. */
  datatype ErrorMessage =
    | BotMessage
    | NameRequired | NameLength
    | EmailRequired | EmailInvalid
    | MessageRequired | MessageLength
    | FormTypeRequired | FormTypeTooLong
    | PhoneInvalid
    | CompanyTooLong | JobTitleTooLong | IndustryTooLong
    | BudgetInvalid | TimelineInvalid | ServiceInterestInvalid
    | ProblemStatementTooLong

  /** The text each message carries. */
  function MessageText(m: ErrorMessage): string
  {
    match m
    case BotMessage => "Invalid submission"
    case NameRequired => "Name is required"
    case NameLength => "Name must be between 1 and 100 characters"
    case EmailRequired => "Email is required"
    case EmailInvalid => "Invalid email format or too long"
    case MessageRequired => "Message is required"
    case MessageLength => "Message must be between 1 and 5000 characters"
    case FormTypeRequired => "Form type is required"
    case FormTypeTooLong => "Form type is too long"
    case PhoneInvalid => "Invalid phone format"
    case CompanyTooLong => "Company name must be less than 100 characters"
    case JobTitleTooLong => "Job title must be less than 100 characters"
    case IndustryTooLong => "Industry must be less than 100 characters"
    case BudgetInvalid => "Budget selection is invalid"
    case TimelineInvalid => "Timeline selection is invalid"
    case ServiceInterestInvalid => "Service interest is invalid"
    case ProblemStatementTooLong => "Problem statement must be less than 1000 characters"
  }

  /** Number of rules, one per checked field. */
  const RuleCount := 12

  /** `data.website && data.website.trim().length > 0`. */
  function Honeypot(website: Field): Completion<bool>
  {
    match website
    case Missing => Normal(false)
    case Str(s) => Normal(Trim(s) != [])
    case NonText(t) => if t then Thrown else Normal(false)
  }

  /** The property is a non-empty string: the negation of
      `!data.x || typeof data.x !== 'string'`. */
  predicate Present(f: Field)
  {
    f.Str? && f.s != []
  }

  // Each rule below is one if-block of the source: given the errors
  // collected so far, it pushes its message when the rule is violated.
  // No rule removes or reorders what is already there.

  function CheckName(e: seq<ErrorMessage>, f: Field): (r: seq<ErrorMessage>)
    ensures e <= r && |r| <= |e| + 1
  {
    if !Present(f) then e + [NameRequired]
    else if Trim(f.s) == [] || |f.s| > NameCap then e + [NameLength]
    else e
  }

  function CheckEmail(e: seq<ErrorMessage>, f: Field): (r: seq<ErrorMessage>)
    ensures e <= r && |r| <= |e| + 1
  {
    if !Present(f) then e + [EmailRequired]
    else if !ValidateEmail(f.s) then e + [EmailInvalid]
    else e
  }

  function CheckMessage(e: seq<ErrorMessage>, f: Field): (r: seq<ErrorMessage>)
    ensures e <= r && |r| <= |e| + 1
  {
    if !Present(f) then e + [MessageRequired]
    else if Trim(f.s) == [] || |f.s| > MessageCap then e + [MessageLength]
    else e
  }

  /** Only emptiness and length are checked: a blank form type passes. */
  function CheckFormType(e: seq<ErrorMessage>, f: Field): (r: seq<ErrorMessage>)
    ensures e <= r && |r| <= |e| + 1
  {
    if !Present(f) then e + [FormTypeRequired]
    else if |f.s| > FormTypeCap then e + [FormTypeTooLong]
    else e
  }

  /** `data.phone && !validatePhone(data.phone)`. */
  function CheckPhone(e: seq<ErrorMessage>, f: Field): (r: seq<ErrorMessage>)
    ensures e <= r && |r| <= |e| + 1
  {
    if Truthy(f) && !(f.Str? && ValidatePhone(f.s)) then e + [PhoneInvalid] else e
  }

  /** `data.x && (typeof data.x !== 'string' || data.x.length > cap)`. */
  function CheckCap(e: seq<ErrorMessage>, f: Field, cap: nat, msg: ErrorMessage): (r: seq<ErrorMessage>)
    ensures e <= r && |r| <= |e| + 1
  {
    if Truthy(f) && (!f.Str? || |f.s| > cap) then e + [msg] else e
  }

  /** The first five rules, in source order: name, email, message,
      formType, phone. */
  function RequiredChecks(e: seq<ErrorMessage>, d: ContactRequest): seq<ErrorMessage>
  {
    CheckPhone(CheckFormType(CheckMessage(CheckEmail(CheckName(
      e, d.name), d.email), d.message), d.formType), d.phone)
  }

  /** The caps on the remaining optional fields, in source order. */
  function OptionalChecks(e: seq<ErrorMessage>, d: ContactRequest): seq<ErrorMessage>
  {
    CheckCap(CheckCap(CheckCap(CheckCap(CheckCap(CheckCap(CheckCap(
      e, d.company, CompanyCap, CompanyTooLong),
      d.jobTitle, JobTitleCap, JobTitleTooLong),
      d.industry, IndustryCap, IndustryTooLong),
      d.budget, BudgetCap, BudgetInvalid),
      d.timeline, TimelineCap, TimelineInvalid),
      d.serviceInterest, ServiceInterestCap, ServiceInterestInvalid),
      d.problemStatement, ProblemStatementCap, ProblemStatementTooLong)
  }

  /** Every rule violation, one message per violated rule, in source order;
      no rule stops the ones after it. */
  function ErrorMessages(d: ContactRequest): seq<ErrorMessage>
  {
    OptionalChecks(RequiredChecks([], d), d)
  }

  /** `sanitizeHtml(x.trim().slice(0, cap))`: trim, then cut, then escape.
      The escape is written in its single-pass form `Escape`, which
      `CleanTextIsSanitizeHtml` shows equal to the replacement chain. */
  function CleanText(s: string, cap: nat): string
  {
    Escape(Take(Trim(s), cap))
  }

  /** A required field: `(data.x || '')`, cleaned. */
  function CleanRequired(f: Field, cap: nat): Field
  {
    Str(CleanText(if f.Str? then f.s else [], cap))
  }

  /** An optional field: cleaned when truthy, otherwise `undefined`. */
  function CleanOptional(f: Field, cap: nat): Field
  {
    if Present(f) then Str(CleanText(f.s, cap)) else Missing
  }

  /** The email: trimmed, cut to 255 and lowercased, but not escaped. */
  function CleanEmail(f: Field): Field
  {
    Str(ToLower(Take(Trim(if f.Str? then f.s else []), MaxEmailLength)))
  }

  /** Building the sanitized record calls `.trim()` on every truthy field. */
  predicate SanitizeThrows(d: ContactRequest)
  {
    ThrowsOnTrim(d.name) || ThrowsOnTrim(d.email) || ThrowsOnTrim(d.phone)
    || ThrowsOnTrim(d.company) || ThrowsOnTrim(d.jobTitle) || ThrowsOnTrim(d.industry)
    || ThrowsOnTrim(d.message) || ThrowsOnTrim(d.formType) || ThrowsOnTrim(d.budget)
    || ThrowsOnTrim(d.timeline) || ThrowsOnTrim(d.serviceInterest)
    || ThrowsOnTrim(d.problemStatement)
  }

  /** The sanitized record; `website` is never carried over. */
  function SanitizedRecord(d: ContactRequest): ContactRequest
  {
    ContactRequest(
      name := CleanRequired(d.name, NameCap),
      email := CleanEmail(d.email),
      phone := CleanOptional(d.phone, MaxPhoneLength),
      company := CleanOptional(d.company, CompanyCap),
      jobTitle := CleanOptional(d.jobTitle, JobTitleCap),
      industry := CleanOptional(d.industry, IndustryCap),
      message := CleanRequired(d.message, MessageCap),
      formType := CleanRequired(d.formType, FormTypeCap),
      budget := CleanOptional(d.budget, BudgetCap),
      timeline := CleanOptional(d.timeline, TimelineCap),
      serviceInterest := CleanOptional(d.serviceInterest, ServiceInterestCap),
      problemStatement := CleanOptional(d.problemStatement, ProblemStatementCap),
      website := Missing)
  }

  /** What `validateAndSanitizeInput` returns, or that it throws. */
  function Validate(d: ContactRequest): Completion<ValidationResult>
  {
    match Honeypot(d.website)
    case Thrown => Thrown
    case Normal(bot) =>
      if bot then Normal(ValidationResult(false, [BotMessage], d, true))
      else if SanitizeThrows(d) then Thrown
      else
        var errors := ErrorMessages(d);
        Normal(ValidationResult(errors == [], errors, SanitizedRecord(d), false))
  }

  /** A submission that is neither a bot nor throws gets the collected
      errors and the sanitized record. */
  lemma CheckedOutcome(d: ContactRequest)
    requires !ThrowsOnTrim(d.website) && !(d.website.Str? && Trim(d.website.s) != [])
    requires !SanitizeThrows(d)
    ensures Validate(d) == Normal(ValidationResult(ErrorMessages(d) == [], ErrorMessages(d), SanitizedRecord(d), false))
  {
    assert Honeypot(d.website) == Normal(false);
  }

  /** The first five if-blocks of `validateAndSanitizeInput`, pushing onto
      `errors` in source order. */
  method CollectRequiredErrors(d: ContactRequest) returns (errors: seq<ErrorMessage>)
    ensures errors == RequiredChecks([], d)
  {
    errors := [];
    ghost var e := errors;
    if !Present(d.name) {
      errors := errors + [NameRequired];
    } else if Trim(d.name.s) == [] || |d.name.s| > NameCap {
      errors := errors + [NameLength];
    }
    assert errors == CheckName(e, d.name);
    e := errors;
    if !Present(d.email) {
      errors := errors + [EmailRequired];
    } else if !ValidateEmail(d.email.s) {
      errors := errors + [EmailInvalid];
    }
    assert errors == CheckEmail(e, d.email);
    e := errors;
    if !Present(d.message) {
      errors := errors + [MessageRequired];
    } else if Trim(d.message.s) == [] || |d.message.s| > MessageCap {
      errors := errors + [MessageLength];
    }
    assert errors == CheckMessage(e, d.message);
    e := errors;
    if !Present(d.formType) {
      errors := errors + [FormTypeRequired];
    } else if |d.formType.s| > FormTypeCap {
      errors := errors + [FormTypeTooLong];
    }
    assert errors == CheckFormType(e, d.formType);
    e := errors;
    if Truthy(d.phone) && !(d.phone.Str? && ValidatePhone(d.phone.s)) {
      errors := errors + [PhoneInvalid];
    }
  }

  /** One of the seven length-cap if-blocks on the optional fields. */
  method CapBlock(errors: seq<ErrorMessage>, f: Field, cap: nat, msg: ErrorMessage) returns (r: seq<ErrorMessage>)
    ensures r == CheckCap(errors, f, cap, msg)
  {
    r := errors;
    if Truthy(f) && (!f.Str? || |f.s| > cap) {
      r := r + [msg];
    }
  }

  /** The seven cap blocks, in source order, after the required rules. */
  method CollectOptionalErrors(e: seq<ErrorMessage>, d: ContactRequest) returns (errors: seq<ErrorMessage>)
    ensures errors == OptionalChecks(e, d)
  {
    errors := CapBlock(e, d.company, CompanyCap, CompanyTooLong);
    errors := CapBlock(errors, d.jobTitle, JobTitleCap, JobTitleTooLong);
    errors := CapBlock(errors, d.industry, IndustryCap, IndustryTooLong);
    errors := CapBlock(errors, d.budget, BudgetCap, BudgetInvalid);
    errors := CapBlock(errors, d.timeline, TimelineCap, TimelineInvalid);
    errors := CapBlock(errors, d.serviceInterest, ServiceInterestCap, ServiceInterestInvalid);
    errors := CapBlock(errors, d.problemStatement, ProblemStatementCap, ProblemStatementTooLong);
  }

  /** The step-by-step version: the honeypot returns early, then each rule
      in turn pushes onto `errors` (no rule stops the others), then the
      record is built. */
  method ValidateAndSanitizeInput(d: ContactRequest) returns (r: Completion<ValidationResult>)
    ensures r == Validate(d)
  {
    if ThrowsOnTrim(d.website) {
      return Thrown;
    }
    if d.website.Str? && Trim(d.website.s) != [] {
      return Normal(ValidationResult(false, [BotMessage], d, true));
    }

    var errors := CollectRequiredErrors(d);
    errors := CollectOptionalErrors(errors, d);

    if SanitizeThrows(d) {
      return Thrown;
    }
    var sanitized := SanitizedRecord(d);
    r := Normal(ValidationResult(|errors| == 0, errors, sanitized, false));
    CheckedOutcome(d);
  }

  // ---------------------------------------------------------------------
  // What an acceptable submission is, stated field by field.

  predicate NameOk(f: Field)
  {
    f.Str? && !AllWhitespace(f.s) && |f.s| <= NameCap
  }

  predicate EmailOk(f: Field)
  {
    f.Str? && ValidateEmail(f.s)
  }

  predicate MessageOk(f: Field)
  {
    f.Str? && !AllWhitespace(f.s) && |f.s| <= MessageCap
  }

  /** Only emptiness and length: a whitespace-only form type passes. */
  predicate FormTypeOk(f: Field)
  {
    f.Str? && f.s != [] && |f.s| <= FormTypeCap
  }

  predicate PhoneOk(f: Field)
  {
    !Truthy(f) || (f.Str? && ValidatePhone(f.s))
  }

  predicate WithinCap(f: Field, cap: nat)
  {
    !Truthy(f) || (f.Str? && |f.s| <= cap)
  }

  predicate Acceptable(d: ContactRequest)
  {
    NameOk(d.name) && EmailOk(d.email) && MessageOk(d.message) && FormTypeOk(d.formType)
    && PhoneOk(d.phone) && WithinCap(d.company, CompanyCap) && WithinCap(d.jobTitle, JobTitleCap)
    && WithinCap(d.industry, IndustryCap) && WithinCap(d.budget, BudgetCap)
    && WithinCap(d.timeline, TimelineCap) && WithinCap(d.serviceInterest, ServiceInterestCap)
    && WithinCap(d.problemStatement, ProblemStatementCap)
  }

  function Flag(violated: bool): nat
  {
    if violated then 1 else 0
  }

  /** How many of the first five rules `d` violates. */
  function RequiredViolations(d: ContactRequest): nat
  {
    Flag(!NameOk(d.name)) + Flag(!EmailOk(d.email)) + Flag(!MessageOk(d.message))
    + Flag(!FormTypeOk(d.formType)) + Flag(!PhoneOk(d.phone))
  }

  /** How many of the seven optional-field caps `d` exceeds. */
  function OptionalViolations(d: ContactRequest): nat
  {
    Flag(!WithinCap(d.company, CompanyCap)) + Flag(!WithinCap(d.jobTitle, JobTitleCap))
    + Flag(!WithinCap(d.industry, IndustryCap)) + Flag(!WithinCap(d.budget, BudgetCap))
    + Flag(!WithinCap(d.timeline, TimelineCap))
    + Flag(!WithinCap(d.serviceInterest, ServiceInterestCap))
    + Flag(!WithinCap(d.problemStatement, ProblemStatementCap))
  }

  /** How many of the twelve rules `d` violates. */
  function ViolationCount(d: ContactRequest): nat
  {
    RequiredViolations(d) + OptionalViolations(d)
  }

  lemma ValidEmailNonEmpty(s: string)
    requires ValidateEmail(s)
    ensures s != []
  {
  }

  /** The name rule adds one message exactly when it is violated. */
  lemma NameRule(e: seq<ErrorMessage>, f: Field)
    ensures |CheckName(e, f)| == |e| + Flag(!NameOk(f))
  {
    if f.Str? { TrimEmptyIff(f.s); }
  }

  lemma EmailRule(e: seq<ErrorMessage>, f: Field)
    ensures |CheckEmail(e, f)| == |e| + Flag(!EmailOk(f))
  {
    if f.Str? && ValidateEmail(f.s) { ValidEmailNonEmpty(f.s); }
  }

  lemma MessageRule(e: seq<ErrorMessage>, f: Field)
    ensures |CheckMessage(e, f)| == |e| + Flag(!MessageOk(f))
  {
    if f.Str? { TrimEmptyIff(f.s); }
  }

  /** The first five rules add one message per violated rule. */
  lemma RequiredCount(e: seq<ErrorMessage>, d: ContactRequest)
    ensures |RequiredChecks(e, d)| == |e| + RequiredViolations(d)
  {
    NameRule(e, d.name);
    var e1 := CheckName(e, d.name);
    EmailRule(e1, d.email);
    MessageRule(CheckEmail(e1, d.email), d.message);
  }

  /** The capped optional fields add one message per field over its cap. */
  lemma OptionalCount(e: seq<ErrorMessage>, d: ContactRequest)
    ensures |OptionalChecks(e, d)| == |e| + OptionalViolations(d)
  {
  }

  /** The error list holds one message per violated rule. */
  lemma ErrorCountIsViolationCount(d: ContactRequest)
    ensures |ErrorMessages(d)| == ViolationCount(d)
    ensures |ErrorMessages(d)| <= RuleCount
  {
    RequiredCount([], d);
    OptionalCount(RequiredChecks([], d), d);
  }

  /** No error is collected exactly when every rule is satisfied. */
  lemma NoErrorsIffAcceptable(d: ContactRequest)
    ensures ErrorMessages(d) == [] <==> Acceptable(d)
  {
    ErrorCountIsViolationCount(d);
  }

  // ---------------------------------------------------------------------
  // The result of validateAndSanitizeInput.

  /** A honeypot with any non-whitespace content short-circuits: the input
      comes back untouched, flagged as a bot, with one fixed error. */
  lemma HoneypotShortCircuits(d: ContactRequest)
    requires d.website.Str? && !AllWhitespace(d.website.s)
    ensures Validate(d) == Normal(ValidationResult(false, [BotMessage], d, true))
  {
    TrimEmptyIff(d.website.s);
  }

  /** A whitespace-only honeypot is not a bot signal. */
  lemma BlankHoneypotIsNotBot(d: ContactRequest)
    requires d.website.Str? && AllWhitespace(d.website.s)
    requires !SanitizeThrows(d)
    ensures Validate(d).Normal? && !Validate(d).value.isBot
  {
    TrimEmptyIff(d.website.s);
  }

  /** The call throws exactly when the honeypot is a truthy non-string, or
      when the honeypot is not tripped and some field is a truthy non-string. */
  lemma ValidateThrowsIff(d: ContactRequest)
    ensures Validate(d).Thrown? <==>
      (ThrowsOnTrim(d.website)
       || (!(d.website.Str? && !AllWhitespace(d.website.s)) && SanitizeThrows(d)))
  {
    if d.website.Str? { TrimEmptyIff(d.website.s); }
  }

  /** A truthy phone value that is not a string never reaches the caller
      through the phone rule: the sanitization's `.trim()` throws on it, or
      the honeypot has already returned the bot result. */
  lemma NonTextPhoneNeverReported(d: ContactRequest)
    requires d.phone == NonText(true)
    ensures Validate(d).Thrown? || Validate(d).value == ValidationResult(false, [BotMessage], d, true)
  {
  }

  /** `valid` holds exactly when the submission is not a bot and satisfies
      every rule, and then exactly when no error was collected. */
  lemma ValidIffAcceptable(d: ContactRequest)
    requires Validate(d).Normal?
    ensures Validate(d).value.valid <==> !Validate(d).value.isBot && Acceptable(d)
    ensures !Validate(d).value.isBot ==> (Validate(d).value.valid <==> Validate(d).value.errors == [])
  {
    NoErrorsIffAcceptable(d);
  }

  /** When the call does not throw and is no bot, its record is the
      sanitized one and it is valid exactly when no error was collected. */
  lemma NonBotResult(d: ContactRequest)
    requires Validate(d).Normal? && !Validate(d).value.isBot
    ensures Validate(d).value.sanitized == SanitizedRecord(d)
    ensures Validate(d).value.valid <==> Acceptable(d)
  {
    ValidIffAcceptable(d);
  }

  /** A submission missing its name, email or message is never valid. */
  lemma MissingRequiredIsInvalid(d: ContactRequest)
    requires !Present(d.name) || !Present(d.email) || !Present(d.message)
    requires Validate(d).Normal?
    ensures !Validate(d).value.valid
  {
    ValidIffAcceptable(d);
  }

  lemma BlankFormTypePasses()
    ensures CheckFormType([], Str(" ")) == [] && FormTypeOk(Str(" "))
  {
  }

  /** Each cleaned text is exactly what the source's chain
      `sanitizeHtml(x.trim().slice(0, cap))` produces. */
  lemma CleanTextIsSanitizeHtml(s: string, cap: nat)
    ensures CleanText(s, cap) == SanitizeHtml(Take(Trim(s), cap))
  {
    SanitizeIsEscape(Take(Trim(s), cap));
  }

  /** The markup characters are absent from `f`'s text, if it has any. */
  predicate HtmlSafe(f: Field)
  {
    f.Str? ==> forall i :: 0 <= i < |f.s| ==> !IsMarkup(f.s[i])
  }

  lemma CleanTextSafe(s: string, cap: nat)
    ensures HtmlSafe(Str(CleanText(s, cap)))
  {
    EscapeNoMarkup(Take(Trim(s), cap));
  }

  lemma CleanRequiredSafe(f: Field, cap: nat)
    ensures CleanRequired(f, cap).Str? && HtmlSafe(CleanRequired(f, cap))
  {
    CleanTextSafe(if f.Str? then f.s else [], cap);
  }

  /** An optional field that was falsy is dropped; one that was kept holds
      no markup. */
  predicate OptionalCleaned(original: Field, cleaned: Field)
  {
    (!Truthy(original) ==> cleaned == Missing) && HtmlSafe(cleaned)
  }

  lemma CleanOptionalSafe(f: Field, cap: nat)
    ensures OptionalCleaned(f, CleanOptional(f, cap))
  {
    if Present(f) { CleanTextSafe(f.s, cap); }
  }

  /** In the sanitized record every field but the email is free of markup,
      optional fields that were falsy are absent, and the honeypot is gone. */
  lemma SanitizedRecordSafe(d: ContactRequest)
    ensures var r := SanitizedRecord(d);
      r.website == Missing && r.email.Str?
      && r.name.Str? && HtmlSafe(r.name)
      && r.message.Str? && HtmlSafe(r.message)
      && r.formType.Str? && HtmlSafe(r.formType)
      && OptionalCleaned(d.phone, r.phone) && OptionalCleaned(d.company, r.company)
      && OptionalCleaned(d.jobTitle, r.jobTitle) && OptionalCleaned(d.industry, r.industry)
      && OptionalCleaned(d.budget, r.budget) && OptionalCleaned(d.timeline, r.timeline)
      && OptionalCleaned(d.serviceInterest, r.serviceInterest)
      && OptionalCleaned(d.problemStatement, r.problemStatement)
  {
    CleanRequiredSafe(d.name, NameCap);
    CleanRequiredSafe(d.message, MessageCap);
    CleanRequiredSafe(d.formType, FormTypeCap);
    CleanOptionalSafe(d.phone, MaxPhoneLength);
    CleanOptionalSafe(d.company, CompanyCap);
    CleanOptionalSafe(d.jobTitle, JobTitleCap);
    CleanOptionalSafe(d.industry, IndustryCap);
    CleanOptionalSafe(d.budget, BudgetCap);
    CleanOptionalSafe(d.timeline, TimelineCap);
    CleanOptionalSafe(d.serviceInterest, ServiceInterestCap);
    CleanOptionalSafe(d.problemStatement, ProblemStatementCap);
  }

  /** Escaping happens after the cut, so a cleaned text is bounded by six
      times the cap, not by the cap. */
  lemma CleanTextBound(s: string, cap: nat)
    ensures |CleanText(s, cap)| <= 6 * cap
  {
    EscapeLength(Take(Trim(s), cap));
  }

  /** ... and it does exceed the cap: two `<` under a cap of 2 become eight
      characters. */
  lemma EscapedTextCanExceedCap()
    ensures CleanText("<<", 2) == "&lt;&lt;"
    ensures |CleanText("<<", 2)| > 2
  {
    var s := "<<";
    assert !IsWhitespace(s[0]) && !IsWhitespace(s[1]);
    TrimOfNoWhitespace(s);
    assert Take(Trim(s), 2) == s;
    assert Escape(s[1..]) == "&lt;" + Escape([]);
    assert Escape(s) == "&lt;" + Escape(s[1..]);
  }

  /** For a text within its cap nothing is cut: decoding the stored text
      gives the trimmed input back. */
  lemma CleanWithinCap(s: string, cap: nat)
    requires |s| <= cap
    ensures Unescape(CleanText(s, cap)) == Trim(s)
  {
    assert Take(Trim(s), cap) == Trim(s);
    UnescapeEscape(Trim(s));
  }

  /** A valid address is stored lowercased and otherwise unchanged. */
  lemma CleanValidEmail(e: string)
    requires ValidateEmail(e)
    ensures CleanEmail(Str(e)) == Str(ToLower(e))
  {
    assert Take(e, MaxEmailLength) == e;
    ValidEmailIsTrimmed(e);
  }

  /** For an acceptable submission the caps never cut anything: the stored
      name, message and form type decode to the trimmed inputs, and the
      stored email is the input lowercased. */
  lemma AcceptedRecordFaithful(d: ContactRequest)
    requires Acceptable(d)
    ensures var r := SanitizedRecord(d);
      Unescape(r.name.s) == Trim(d.name.s)
      && Unescape(r.message.s) == Trim(d.message.s)
      && Unescape(r.formType.s) == Trim(d.formType.s)
      && r.email == Str(ToLower(d.email.s))
      && (Present(d.problemStatement) ==> Unescape(r.problemStatement.s) == Trim(d.problemStatement.s))
  {
    CleanWithinCap(d.name.s, NameCap);
    CleanWithinCap(d.message.s, MessageCap);
    CleanWithinCap(d.formType.s, FormTypeCap);
    CleanValidEmail(d.email.s);
    if Present(d.problemStatement) { CleanWithinCap(d.problemStatement.s, ProblemStatementCap); }
  }

  /** The email is the one field that is not escaped: a valid address may
      carry markup into the sanitized record. */
  lemma EmailKeepsMarkup()
    ensures ValidateEmail("<b>@x.co")
    ensures CleanEmail(Str("<b>@x.co")).s[0] == '<'
  {
    var e := "<b>@x.co";
    assert e[3] == '@' && e[5] == '.';
    assert e[..3] == "<b>" && e[4..5] == "x" && e[6..] == "co";
    assert AtomRun(e[..3]) && AtomRun(e[4..5]) && AtomRun(e[6..]);
    assert EmailSplit(e, 3, 5);
    CleanValidEmail(e);
    ToLowerAt(e, 0);
  }
}
