# Contact-form intake: a verified model

This project models the server side of a consulting site's contact form. The
`send-contact-email` edge function receives a JSON form submission and does the following:

- answers CORS preflights;
- rate-limits callers per client address, with a fixed one-hour window;
- screens out bots through a hidden honeypot field;
- validates every field, collecting all violations;
- builds an HTML-escaped copy of the submission;
- passes that copy to a webhook, a notification mail and a confirmation mail.

The project also models the form configuration shared by the front end: the budget, timeline and
service option tables with their value-to-label lookups, and the blank form.

Modules, one file each:

| file | module | what it holds |
|---|---|---|
| text.dfy | `Text` | `trim`, `slice(0, n)`, ASCII `toLowerCase` |
| html.dfy | `Html` | `sanitizeHtml`, its single-pass form `Escape`, and the decoder `Unescape` |
| validators.dfy | `Validators` | `validateEmail`, `validatePhone` |
| intake.dfy | `Intake` | `validateAndSanitizeInput`: honeypot, twelve rules, sanitized record |
| ratelimit.dfy | `RateLimit` | `rateLimitMap` and `checkRateLimit`, as the class `RateLimiter` |
| cors.dfy | `Cors` | `ALLOWED_ORIGINS`, the preview-domain pattern, `getCorsHeaders` |
| handler.dfy | `Handler` | `handler`: the decision order from preflight to the final response |
| formconfig.dfy | `FormConfig` | option tables, `getBudgetLabel`/`getTimelineLabel`/`getServiceLabel`, `initialFormData` |

Modelling choices:

- **Field values.** A property of the JSON body is a `Field`: absent, a string, or another JSON value that is
  truthy or falsy. The source guards each rule with `typeof … !== 'string'`, so this distinction
  matters. A truthy non-string reaching `.trim()` throws, and the handler's `catch` turns that into a 500.
- **Error handling.** A call that may throw returns a `Completion` (`Normal(value)` or `Thrown`).
- **Pure and stateful parts.** Every pure operation is a function with properties proved about it.
  - The rate limiter is a class whose `table` field plays the role of the module-level map.
  - The validation routine is a method that pushes onto `errors` block by block, as the source does.
    Its postcondition ties it to the function `Validate`.
  - The handler is a method with the source's early returns, tied to the function `HandleSpec`.
- **Parameters for what the model cannot see.** The clock (`now`, in milliseconds) is a parameter,
  and so is whether each mail send throws.
- **Outbound calls as effects.** The webhook POST and the two mail sends are recorded as effects,
  each carrying the record it sends.
- **Text.** Strings are sequences of Unicode scalar values (Dafny `char`s), and the caps and `slice` count those,
  not UTF-16 code units. `trim` removes the ECMAScript WhiteSpace and
  LineTerminator characters. Lowercasing covers the ASCII letters only.

## Model

| member | source | states |
|---|---|---|
| Text.TrimEmptyIff | supabase/functions/send-contact-email/index.ts:87 | `s.trim()` is empty exactly when `s` is all whitespace (the honeypot test and the blank-name/message tests) |
| Text.TrimIsInfix | supabase/functions/send-contact-email/index.ts:152-163 | `trim` keeps one contiguous piece of the input that neither starts nor ends with whitespace and removes only whitespace around it |
| Text.TrimOfNoWhitespace | supabase/functions/send-contact-email/index.ts:153 | a string without whitespace is unchanged by `trim` |
| Text.ToLowerAt | supabase/functions/send-contact-email/index.ts:153 | lowercasing maps each character independently and leaves no ASCII capital |
| Html.SanitizeHtml | supabase/functions/send-contact-email/index.ts:69-76 | definition: the five global replacements applied in source order, `&` first and `'` last |
| Html.SanitizeChar | supabase/functions/send-contact-email/index.ts:69-76 | on one character, the five-stage replacement chain yields exactly that character's reference (`&amp;`, `&lt;`, `&gt;`, `&quot;`, `&#039;`) or the character itself |
| Html.SanitizeAppend | supabase/functions/send-contact-email/index.ts:69-76 | the replacement chain distributes over concatenation |
| Html.SanitizeIsEscape | supabase/functions/send-contact-email/index.ts:69-76 | because `&` is replaced first, the chain equals the single-pass escape `Escape` (no reference is escaped twice) |
| Html.UnescapeSanitize | supabase/functions/send-contact-email/index.ts:69-76 | decoding the five references recovers the input exactly |
| Html.SanitizeInjective | supabase/functions/send-contact-email/index.ts:69-76 | distinct inputs never give the same output |
| Html.SanitizeNoMarkup | supabase/functions/send-contact-email/index.ts:69-76 | the output contains no `<`, `>`, `"` or `'` |
| Html.SanitizeUnchanged | supabase/functions/send-contact-email/index.ts:69-76 | a string with none of `& < > " '` is returned unchanged |
| Html.SanitizeLength | supabase/functions/send-contact-email/index.ts:69-76 | the output is at least as long as the input and at most six times as long |
| Validators.EmailPattern | supabase/functions/send-contact-email/index.ts:59-60 | definition: the email pattern matches when the string splits as a run of non-whitespace, non-`@` characters, `@`, such a run, `.`, such a run |
| Validators.ValidateEmail | supabase/functions/send-contact-email/index.ts:58-61 | definition: the pattern matches and the address has at most 255 characters |
| Validators.ValidateEmailIffShape | supabase/functions/send-contact-email/index.ts:58-61 | an address passes exactly when it has at most 255 characters, exactly one `@` with a non-empty part before it, no whitespace, and after the `@` a `.` that is neither the first nor the last character of the domain |
| Validators.EmailPatternGivesShape | supabase/functions/send-contact-email/index.ts:59 | a match of the pattern at a given `@` and `.` has no whitespace and no other `@` |
| Validators.ValidEmailIsTrimmed | supabase/functions/send-contact-email/index.ts:58-61 | an accepted address is unchanged by `trim` |
| Validators.EmailWithoutAtRejected | supabase/functions/send-contact-email/index.ts:58-61 | an address with no `@` is refused |
| Validators.EmailWithoutDotRejected | supabase/functions/send-contact-email/index.ts:58-61 | an address with no `.` strictly inside its part after the `@` is refused |
| Validators.ValidatePhone | supabase/functions/send-contact-email/index.ts:63-67 | definition: the empty number passes; any other passes when every character is in `[\d\s\-+()]` and it has at most 20 characters |
| Validators.PhoneMatchIff | supabase/functions/send-contact-email/index.ts:65 | an independent one-character-per-step matcher for `^[\d\s\-+()]+$` accepts exactly the non-empty runs of class characters |
| Validators.ValidatePhoneIffMatch | supabase/functions/send-contact-email/index.ts:63-67 | `validatePhone` passes exactly the empty number and the numbers the matcher accepts that have at most 20 characters |
| Validators.ValidPhoneBounded | supabase/functions/send-contact-email/index.ts:63-67 | an accepted non-empty number has at most 20 characters, each a digit, whitespace, `-`, `+`, `(` or `)` |
| Validators.PhoneWithLetterRejected | supabase/functions/send-contact-email/index.ts:65-66 | a number containing an ASCII letter is refused |
| Validators.PhoneExamples | supabase/functions/send-contact-email/index.ts:63-67 | `"+1 (555) 123-4567"` is accepted; `"555-CALL"` and a 21-digit number are refused |
| Validators.EmailExamples | supabase/functions/send-contact-email/index.ts:58-61 | `"a@b.co"` is accepted and `"a b@c.de"` is refused |
| Intake.Honeypot | supabase/functions/send-contact-email/index.ts:87 | definition: a bot exactly when `website` is a string that is not all whitespace; a truthy non-string throws at `.trim()` |
| Intake.ErrorMessages | supabase/functions/send-contact-email/index.ts:84-148 | definition: the five leading rules, then the seven caps, each pushing at most one message, in source order |
| Intake.SanitizedRecord | supabase/functions/send-contact-email/index.ts:151-164 | definition: required fields trimmed, cut and escaped (absent as `''`), the email trimmed, cut to 255 and lowercased, optional fields cleaned when truthy and otherwise absent, and no `website` |
| Intake.Validate | supabase/functions/send-contact-email/index.ts:78-167 | definition: the honeypot result, a throw when a truthy field is not a string, or `valid` as "no errors" with the errors and the sanitized record |
| Intake.CheckCap | supabase/functions/send-contact-email/index.ts:122-148 | each optional-field cap rule keeps the errors already collected and adds at most one |
| Intake.CollectRequiredErrors | supabase/functions/send-contact-email/index.ts:84-120 | pushing onto `errors` block by block gives the name, email, message, form-type and phone rules in source order |
| Intake.CapBlock | supabase/functions/send-contact-email/index.ts:122-124 | one cap block pushes its message exactly when the field is truthy and is either not a string or too long |
| Intake.CollectOptionalErrors | supabase/functions/send-contact-email/index.ts:122-148 | the seven cap blocks, in source order, extend the list exactly as the rules say |
| Intake.ValidateAndSanitizeInput | supabase/functions/send-contact-email/index.ts:78-167 | the step-by-step routine returns exactly what `Validate` specifies, including when it throws |
| Intake.CheckedOutcome | supabase/functions/send-contact-email/index.ts:150-166 | a submission that is no bot and has no throwing field gets `valid` equal to "no errors", the collected errors, and the sanitized record (an unfolding of one branch of `Validate`, stated for callers) |
| Intake.NonBotResult | supabase/functions/send-contact-email/index.ts:151-166 | a result that is neither thrown nor a bot carries the sanitized record, and is valid exactly when the submission is acceptable |
| Intake.HoneypotShortCircuits | supabase/functions/send-contact-email/index.ts:87-90 | a non-blank string honeypot gives `valid = false`, `errors = ["Invalid submission"]`, the unchanged input as `sanitized`, and `isBot = true` |
| Intake.BlankHoneypotIsNotBot | supabase/functions/send-contact-email/index.ts:87 | a whitespace-only honeypot does not trip the check |
| Intake.ValidateThrowsIff | supabase/functions/send-contact-email/index.ts:87-164 | the routine throws exactly when the honeypot is a truthy non-string, or when the honeypot is not tripped and some field is a truthy non-string |
| Intake.NonTextPhoneNeverReported | supabase/functions/send-contact-email/index.ts:118-164 | a truthy non-string phone always ends in a throw or in the bot result, so the phone rule's answer on it never reaches the caller |
| Intake.ErrorCountIsViolationCount | supabase/functions/send-contact-email/index.ts:92-148 | each violated rule adds exactly one message, so the error count equals the number of violated rules and is at most 12 |
| Intake.RequiredCount | supabase/functions/send-contact-email/index.ts:92-120 | the five leading rules add exactly one message per violated rule |
| Intake.OptionalCount | supabase/functions/send-contact-email/index.ts:122-148 | the seven cap rules add exactly one message per violated rule |
| Intake.NameRule | supabase/functions/send-contact-email/index.ts:93-97 | the name rule adds a message exactly when the name is not a non-blank string of at most 100 characters |
| Intake.EmailRule | supabase/functions/send-contact-email/index.ts:99-103 | the email rule adds a message exactly when the email is not a string passing `validateEmail` |
| Intake.MessageRule | supabase/functions/send-contact-email/index.ts:105-109 | the message rule adds a message exactly when the message is not a non-blank string of at most 5000 characters |
| Intake.NoErrorsIffAcceptable | supabase/functions/send-contact-email/index.ts:92-148 | no error is collected exactly when every field satisfies its rule |
| Intake.ValidIffAcceptable | supabase/functions/send-contact-email/index.ts:166 | `valid` holds exactly when the submission is no bot and every rule holds, and for a non-bot exactly when `errors` is empty |
| Intake.MissingRequiredIsInvalid | supabase/functions/send-contact-email/index.ts:93-109 | a missing name, email or message makes the submission invalid |
| Intake.BlankFormTypePasses | supabase/functions/send-contact-email/index.ts:111-115 | a whitespace-only form type passes its rule (only emptiness and length are checked) |
| Intake.ValidEmailNonEmpty | supabase/functions/send-contact-email/index.ts:58-61 | an accepted address is never empty |
| Intake.CleanTextIsSanitizeHtml | supabase/functions/send-contact-email/index.ts:152-163 | a cleaned text field is `sanitizeHtml` applied to the trimmed, cut input |
| Intake.CleanTextSafe | supabase/functions/send-contact-email/index.ts:152-163 | a cleaned text field holds no markup character |
| Intake.CleanRequiredSafe | supabase/functions/send-contact-email/index.ts:152-159 | a required field is always present in the record and free of markup |
| Intake.CleanOptionalSafe | supabase/functions/send-contact-email/index.ts:154-163 | a falsy optional field becomes `undefined`, and a kept one is free of markup |
| Intake.SanitizedRecordSafe | supabase/functions/send-contact-email/index.ts:151-164 | in the sanitized record every field but the email is free of markup, falsy optional fields are absent, and `website` is gone |
| Intake.CleanTextBound | supabase/functions/send-contact-email/index.ts:152-163 | because escaping follows the cut, a cleaned field has at most six times its cap |
| Intake.EscapedTextCanExceedCap | supabase/functions/send-contact-email/index.ts:152-163 | the cleaned text can be longer than its cap: `"<<"` with cap 2 becomes `"&lt;&lt;"` |
| Intake.CleanWithinCap | supabase/functions/send-contact-email/index.ts:152-163 | a text within its cap decodes back to its trimmed self |
| Intake.CleanValidEmail | supabase/functions/send-contact-email/index.ts:153 | an accepted address is stored lowercased and otherwise unchanged |
| Intake.AcceptedRecordFaithful | supabase/functions/send-contact-email/index.ts:151-166 | for an acceptable submission nothing is cut: name, message, form type and problem statement decode to the trimmed inputs, and the email is the input lowercased |
| Intake.EmailKeepsMarkup | supabase/functions/send-contact-email/index.ts:153 | the email is not escaped: the valid address `<b>@x.co` keeps its `<` in the record |
| RateLimit.Check | supabase/functions/send-contact-email/index.ts:169-185 | one call changes only its own key's record. It is admitted exactly when the key is new, its window has expired (`now > resetTime`), or the count is below 5. A refusal changes nothing. Counts never pass 5 |
| RateLimit.RateLimiter.CheckRateLimit | supabase/functions/send-contact-email/index.ts:169-185 | the method returns the admission of `Check` and leaves its table, and it keeps every count at most 5 |
| RateLimit.RateLimiter.constructor | supabase/functions/send-contact-email/index.ts:37 | the limiter starts with an empty map |
| RateLimit.CheckKeepsBounded | supabase/functions/send-contact-email/index.ts:169-185 | no call raises a count above 5 |
| RateLimit.FullWindowRefusesAtResetTime | supabase/functions/send-contact-email/index.ts:172-180 | a full window still refuses at exactly its reset time and starts afresh one millisecond later |
| RateLimit.WithinOpenWindow | supabase/functions/send-contact-email/index.ts:169-185 | while a key's window is open, any sequence of calls (other keys interleaved) admits the key at most as often as its window has left |
| RateLimit.AtMostMaxPerWindow | supabase/functions/send-contact-email/index.ts:169-185 | the call that opens a window plus all later calls for that key within the hour are admitted at most 5 times |
| RateLimit.OpenWindowCounts | supabase/functions/send-contact-email/index.ts:183-184 | calls within an open window each add one to the count and keep the reset time |
| RateLimit.SixthInWindowRefused | supabase/functions/send-contact-email/index.ts:169-185 | after five requests from one address within an hour, a sixth in that hour is refused while a new address is admitted |
| Cors.IsPreviewOrigin | supabase/functions/send-contact-email/index.ts:21 | definition: the preview pattern matches when some `--` splits the text between `https://` and `.lovable.app` into two non-empty runs of `[a-z0-9-]` |
| Cors.GetCorsHeaders | supabase/functions/send-contact-email/index.ts:23-34 | Allow-Methods is always `POST, OPTIONS`, and Allow-Origin is always a listed origin or a preview origin |
| Cors.AllowOriginEchoIff | supabase/functions/send-contact-email/index.ts:10-34 | an accepted origin is echoed and any other caller gets `https://agenticailab.in`; a sent origin comes back exactly when it is listed or matches the preview pattern |
| Cors.PreviewOriginShape | supabase/functions/send-contact-email/index.ts:21 | a preview origin is `https://`, lower-case letters, digits and dashes, then `.lovable.app` |
| Cors.PreviewExample | supabase/functions/send-contact-email/index.ts:21 | `https://app--x1.lovable.app` matches the preview pattern |
| Cors.PreviewCounterExamples | supabase/functions/send-contact-email/index.ts:21 | a host without `--`, or with a capital letter, does not match |
| Cors.ForeignOriginNotEchoed | supabase/functions/send-contact-email/index.ts:23-27 | an unlisted non-preview origin gets the default origin |
| Handler.ClientIp | supabase/functions/send-contact-email/index.ts:219-221 | definition: the trimmed first `x-forwarded-for` entry if non-empty, else a non-empty `cf-connecting-ip`, else `unknown` |
| Handler.FirstEntry | supabase/functions/send-contact-email/index.ts:219 | `split(",")[0]` is the longest comma-free prefix |
| Handler.ClientIpChoice | supabase/functions/send-contact-email/index.ts:219-221 | the rate-limit key is never empty. It is the trimmed first forwarded address when that is not blank, else the non-empty `cf-connecting-ip`, else `"unknown"` |
| Handler.Deliver | supabase/functions/send-contact-email/index.ts:268-335 | an accepted submission goes to the webhook and the notification first, and the confirmation is attempted only if the notification did not throw. Every call carries the sanitized record. The answer is 200 exactly when neither send throws, and 500 otherwise |
| Handler.Submit | supabase/functions/send-contact-email/index.ts:235-353 | after admission the status is 200, 400 or 500, with `{success:true}` exactly for 200 and the generic failure message exactly for 500 |
| Handler.HandleSpec | supabase/functions/send-contact-email/index.ts:208-354 | every response carries the CORS headers of the request's origin. The status is 200, 400, 429 or 500, and the limiter table is untouched or advanced by one check of the client key |
| Handler.Process | supabase/functions/send-contact-email/index.ts:235-335 | the `try` block's steps give exactly the status, reply and calls of `Submit` |
| Handler.Handle | supabase/functions/send-contact-email/index.ts:208-354 | the handler's steps give exactly `HandleSpec`'s response, table and calls, and keep the limiter's invariant |
| Handler.PreflightTouchesNothing | supabase/functions/send-contact-email/index.ts:213-215 | OPTIONS gets an empty 200 with the CORS headers; no limiter slot is used and nothing is sent (an unfolding of one branch of `HandleSpec`, stated for callers) |
| Handler.SlotTakenBeforeBody | supabase/functions/send-contact-email/index.ts:219-235 | every non-preflight request takes a limiter slot before its body is read, and the answer is 429 exactly when the limiter refuses (an unfolding of one branch of `HandleSpec`, stated for callers) |
| Handler.RateLimitedIgnoresBody | supabase/functions/send-contact-email/index.ts:224-233 | a refused caller gets 429 whatever the body, with no change to the table and nothing sent |
| Handler.AdmittedSubmits | supabase/functions/send-contact-email/index.ts:217-335 | an admitted request is answered by the parse-validate-send steps, and any other request sends nothing (an unfolding of one branch of `HandleSpec`, stated for callers) |
| Handler.BotGetsSilentSuccess | supabase/functions/send-contact-email/index.ts:241-246 | a filled honeypot gets `{success:true}` with 200 and nothing is sent |
| Handler.SendsIff | supabase/functions/send-contact-email/index.ts:235-325 | something is sent exactly when the body parses, validation does not throw, the sender is no bot and every rule holds. What is sent is then the sanitized record |
| Handler.StatusIff | supabase/functions/send-contact-email/index.ts:235-353 | 400 exactly for a non-bot submission breaking a rule. 500 exactly for an unreadable body, a throwing validation, or a throwing mail send |
| Handler.OnlySanitizedLeaves | supabase/functions/send-contact-email/index.ts:259-325 | every outbound call carries the sanitized record, whose text fields hold no markup and which has no honeypot. Its email is the submitted address lowercased |
| FormConfig.LabelOf | src/lib/form-config.ts:30-37 | definition: the label of the first option whose value matches when that label is non-empty, and otherwise the value itself |
| FormConfig.GetBudgetLabel | src/lib/form-config.ts:30-31 | definition: `LabelOf` over the budget options |
| FormConfig.GetTimelineLabel | src/lib/form-config.ts:33-34 | definition: `LabelOf` over the timeline options |
| FormConfig.GetServiceLabel | src/lib/form-config.ts:36-37 | definition: `LabelOf` over the service options |
| FormConfig.Find | src/lib/form-config.ts:30-37 | `find` returns the first index whose value matches, or none when no value matches |
| FormConfig.LookupListed | src/lib/form-config.ts:30-37 | in a table with distinct values and non-empty labels, a listed value maps to its own label |
| FormConfig.LookupUnlisted | src/lib/form-config.ts:30-37 | a value not in the table is returned unchanged |
| FormConfig.LookupIff | src/lib/form-config.ts:30-37 | for a well-formed table, the lookup returns its input exactly when the input is not a listed value. Otherwise it returns that value's label |
| FormConfig.LookupIdempotent | src/lib/form-config.ts:30-37 | for a well-formed table, looking up a result again changes nothing |
| FormConfig.BudgetValuesDistinct | src/lib/form-config.ts:4-9 | the budget values are pairwise distinct and every label is non-empty |
| FormConfig.BudgetLabelsApart | src/lib/form-config.ts:4-9 | no budget label equals a budget value |
| FormConfig.TimelineValuesDistinct | src/lib/form-config.ts:11-16 | the timeline values are pairwise distinct and every label is non-empty |
| FormConfig.TimelineLabelsApart | src/lib/form-config.ts:11-16 | no timeline label equals a timeline value (the labels use an en dash, the values a hyphen) |
| FormConfig.ServiceValuesDistinct | src/lib/form-config.ts:18-24 | the service values are pairwise distinct and every label is non-empty |
| FormConfig.ServiceLabelsApart | src/lib/form-config.ts:18-24 | no service label equals a service value |
| FormConfig.BudgetLabels | src/lib/form-config.ts:30-31 | each budget value maps to its label (`under-5k` to `< $5k`), anything else (`""` included) is unchanged, and a second lookup changes nothing |
| FormConfig.TimelineLabels | src/lib/form-config.ts:33-34 | each timeline value maps to its label, anything else (`""` included) is unchanged, and a second lookup changes nothing |
| FormConfig.ServiceLabels | src/lib/form-config.ts:36-37 | each service value maps to its label, anything else (`""` included) is unchanged, and a second lookup changes nothing |
| FormConfig.InitialFormData | src/lib/form-config.ts:54-64 | every field of the blank form is empty, so each label lookup on it gives `""` |

## Left out

- I/O is outside the model. This covers `fetch` to the webhook (`sendToWebhook`), the mail provider client, `serve` and
  `Deno.env`. The webhook is recorded as an effect that never fails the request, because `sendToWebhook` catches
  its own errors and is not awaited. Each mail send is a parameter saying whether it throws.
- `Date.now()` is the parameter `now`. `new Date().toISOString()`, the fixed `source` tag of the webhook
  payload, and all `console` logging are not modelled.
- The webhook payload's `|| null` mapping of absent optional fields is not modelled; the effect carries the sanitized record itself.
- The HTML text of the two mails and their subjects are not modelled. What the model states is that
  both mails are built from the sanitized record only.
- The response's `Content-Type` header is not modelled. The model keeps the status, the JSON reply and the CORS headers.
- `rateLimitMap` is instance-local and is lost on a cold start. Several instances, and concurrent requests
  interleaving inside one, are not modelled. Requests are handled one at a time against one table.
- The numbers are unbounded. `now + 3600000` and the counter cannot overflow a double in any reachable state.
- JSON parsing is reduced to three outcomes: an object (any non-null JSON value reads as one, with its
  properties), `null`, or a parse error. Both of the last two give 500.
- Intake.CollectRequiredErrors: the phone rule on a truthy non-string value is not modelled exactly. The model
  records "Invalid phone format" for every such value, while `validatePhone` converts it with `String()` and may
  accept it (`[5]` reads as `"5"`). `Intake.CheckPhone`, `Intake.PhoneOk` and `Intake.ErrorMessages` share this.
  No returned value differs: such a value makes the sanitization throw or meets the bot result first
  (`Intake.NonTextPhoneNeverReported`).
- Unicode case mapping is left out. `toLowerCase` is modelled on ASCII letters only, and other characters pass through.
- UTF-16 code units are left out. A character outside the Basic Multilingual Plane has length 1 here where
  JavaScript's `length` gives 2, so a cap admits such text that the source would refuse or cut. A lone surrogate cannot be represented.
- `src/lib/validations.ts` is not part of this model. Its zod schemas rely on a library whose
  semantics are not visible here.
- The React pages and components are not part of this model. That includes the forms that call the
  lookups, cookie consent and the animations.
- The `FormType` string union of form-config.ts is not part of this model. It is a type with no run-time behaviour.

Points where the code's behaviour is easy to misread:

- Text fields are trimmed, cut to their cap, and only then escaped. A cleaned field can therefore be longer
  than its cap (`Intake.EscapedTextCanExceedCap`).
- The phone pattern's `\s` admits every whitespace character, not just the space.
- A whitespace-only form type passes validation (`Intake.BlankFormTypePasses`).
- A truthy field that is not a string (a number, say) makes the sanitization's `.trim()` throw. The
  request then gets a 500, not a 400, whatever the field rules collected (`Intake.ValidateThrowsIff`).
