# Zyph contact form: a Dafny model

This project models the contact form of the Zyph Technologies website. There
are two sides:

- The backend service (`backend/server.js`) defines two validators,
  `validateEmail` and `validatePhone`, and a `contactSchema` for stored
  contacts. Its `POST /api/contact` route checks that the five form fields
  (`nombre`, `empresa`, `email`, `telefono`, `mensaje`) are present, saves
  one contact and answers 400, 201 or 500.
- The React component (`frontend/src/components/ZyphWebsite.js`) holds the
  form state (`formData`, `submitStatus`, `isSubmitting`). `validateForm`
  checks the five fields and returns a list of error messages.
  `handleInputChange` edits one field. `handleSubmit` validates the form,
  sends it and shows the outcome.

Modules, one per concern:

- `Text` (`text.dfy`): JavaScript's `\s` character class, `trim` and
  `length`. `length` counts UTF-16 code units.
- `Validation` (`validation.dfy`): `validateEmail`, the phone strip step and
  `validatePhone`. Each validator is defined as the exact language of its
  regular expression. The field-by-field characterisations are proved as
  lemmas.
- `ContactApi` (`contact_api.dfy`): the request body, the stored `Contact`
  and its schema validators, the replies, and class `ContactStore` with the
  route as method `HandleContact`.
- `ContactForm` (`contact_form.dfy`): `FormData`, the five checks, the
  error list (function `FormErrors`, method `ValidateForm`), and class
  `ContactFormState` with `HandleInputChange` and `HandleSubmit`.
- `EndToEnd` (`end_to_end.dfy`): the form's request body and how the form
  reads the route's reply.

The only inputs from the outside world are parameters:

- the client address (`ip`) and the clock reading (`now`) of the route;
- whether the database save succeeds (`storageUp`);
- the outcome of the browser's request (`FetchOutcome`).

What the code does, and does not do, in the parts that are easy to misread:

- The route checks presence only. `validateEmail` and `validatePhone` are
  defined in `server.js` but never called: line 113 is a comment. Neither
  side puts an upper bound on the length of any field.
- The route sends no email. Line 125 is a comment, so there is no
  notification step and no notification failure.
- The frontend collects every failing check, not only the first. It then
  shows only the first message.
- The frontend measures lengths on the untrimmed string.

## Model

| member | source | states |
|---|---|---|
| `Text.IsWhitespace` | backend/server.js:84 | The class `\s`, as the code points ECMAScript lists. No printable ASCII character other than the space belongs to it; every member is a space, a control character from tab to carriage return, or beyond ASCII. |
| `Text.Trim` | frontend/src/components/ZyphWebsite.js:75-95 | `trim`: the input is whitespace, then the result, then whitespace. The result neither starts nor ends with whitespace. It is empty iff the input is all whitespace. |
| `Text.Utf16Length` | frontend/src/components/ZyphWebsite.js:75-95 | `length` counts UTF-16 code units. It lies between the number of code points and twice that, and equals it when every code point is in the Basic Multilingual Plane. |
| `Validation.ValidateEmail` | backend/server.js:83-86 | `validateEmail` is defined as the language of `^[^\s@]+@[^\s@]+\.[^\s@]+$`: a run, `@`, a run, `.`, a run, each run non-empty and free of whitespace and `@`. An accepted address has at least five characters and no whitespace. |
| `Validation.ValidateEmailShape` | backend/server.js:83-86 | The regex `^[^\s@]+@[^\s@]+\.[^\s@]+$` accepts exactly the strings with no whitespace, exactly one `@`, a non-empty part before it, and a `.` after it that is neither the first nor the last character of the domain part. Both directions are proved. |
| `Validation.EmailRejectsWhitespace` | backend/server.js:84 | A whitespace character anywhere makes the address invalid. |
| `Validation.EmailRejectsSecondAt` | backend/server.js:84 | A second `@` anywhere makes the address invalid. |
| `Validation.EmailRejectsExample` | backend/server.js:84 | `"not-an-email"` is rejected. |
| `Validation.EmailAcceptsExample` | backend/server.js:84 | `"a@b.co"` is accepted. |
| `Validation.IsPhoneSeparator` | backend/server.js:90 | The class `[\s\-\(\)]` the strip removes. None of its characters is a digit or `+`, so the strip never removes a character the pattern could match. |
| `Validation.StripPhone` | backend/server.js:90 | The strip step's result contains no whitespace, `-`, `(` or `)` and is no longer than its input. |
| `Validation.StripPhoneAppend` | backend/server.js:90 | Stripping distributes over concatenation, so the kept characters stay in their original order. |
| `Validation.StripPhoneCounts` | backend/server.js:90 | Every non-separator character is kept as many times as it occurs. Every separator is dropped. |
| `Validation.StripPhoneUnchanged` | backend/server.js:90 | A string without separators comes back unchanged. |
| `Validation.StripPhoneIdempotent` | backend/server.js:90 | Stripping twice gives the same result as stripping once. |
| `Validation.DialDigits` | backend/server.js:89 | `[1-9][\d]{0,15}`: a non-empty run of at most sixteen digits whose first is not `0`. |
| `Validation.ValidatePhone` | backend/server.js:88-91 | `validatePhone` matches the stripped string against an optional `+` followed by the dial digits. What an accepted number strips to has 1 to 17 characters, all digits except a `+` that can only come first. |
| `Validation.ValidatePhoneStripped` | backend/server.js:88-91 | `validatePhone(strip(s)) == validatePhone(s)`. |
| `Validation.ValidatePhoneIgnoresSeparator` | backend/server.js:88-91 | Inserting a separator anywhere into a phone number does not change the verdict. |
| `Validation.ValidatePhoneAlphabet` | backend/server.js:89-90 | In an accepted phone number, every character is a digit, a `+` or a separator. |
| `Validation.StripPhoneEmpty` | backend/server.js:90 | A string the strip turns into `""` consists of separators only. |
| `Validation.ValidatePhonePlusLeads` | backend/server.js:89-90 | In an accepted phone number, everything before a `+` is a separator. The `+` comes before every digit. |
| `Validation.PhoneRejectsLeadingZero` | backend/server.js:89 | `"0123"` is rejected, because the first digit must be 1 to 9. |
| `Validation.PhoneAcceptsDigits` | backend/server.js:89 | `"12345"` is accepted. |
| `Validation.PhoneAcceptsFormatted` | backend/server.js:89-90 | `"+595 (21) 123-4567"` is accepted. It strips to `"+595211234567"`. |
| `ContactApi.Truthy` | backend/server.js:108 | A string field is falsy exactly when it is missing or `""`. |
| `ContactApi.AllFieldsPresent` | backend/server.js:106-108 | The route's guard lets a request through only when all five fields are present and non-empty. |
| `ContactApi.SchemaValid` | backend/server.js:56-69 | The schema's validators hold: the five required strings are non-empty, and `estado` is `"nuevo"`, `"contactado"` or `"cerrado"`. |
| `ContactApi.BuiltContactSchemaValid` | backend/server.js:56-69 | A contact the route builds passes the schema's `required` validators, and its default `estado`, `"nuevo"`, is in the schema's enum. |
| `ContactApi.ContactStore.constructor` | backend/server.js:71 | The store starts empty and satisfies its invariant: every stored contact passes the schema, `estado` is in {`nuevo`, `contactado`, `cerrado`}, and ids are distinct. |
| `ContactApi.ContactStore.HandleContact` | backend/server.js:102-139 | A missing or empty field gives 400 with "Todos los campos son obligatorios", and the store is unchanged. A failed save gives 500 with the generic message, and the store is unchanged. Otherwise exactly one contact is appended, carrying the five fields as sent, `ip`, the clock reading and `estado = "nuevo"`; the reply is 201 with that contact's id, which no earlier contact has. The store invariant is preserved. |
| `ContactForm.FormData.With` | frontend/src/components/ZyphWebsite.js:63-66 | The record update sets the given field to the new value. The other four fields keep their values. |
| `ContactForm.Passes` | frontend/src/components/ZyphWebsite.js:75-95 | Each field's check: the trimmed name and company are non-empty, the name has at least 2 code units and the message at least 10, the email and phone match the same patterns as the service's validators. No check lets an empty field through. |
| `ContactForm.FormErrors` | frontend/src/components/ZyphWebsite.js:72-98 | A check's message is in the list iff that check fails. Every entry is one of the five messages. The entries appear in the fixed order nombre, empresa, email, telefono, mensaje, so none repeats. The list is empty iff all checks pass. |
| `ContactForm.ValidateForm` | frontend/src/components/ZyphWebsite.js:72-98 | The step-by-step pushes produce exactly `FormErrors(form)`. |
| `ContactForm.TextChecks` | frontend/src/components/ZyphWebsite.js:75-95 | The name passes iff it is not all whitespace and its raw length is at least 2. The company passes iff it is not all whitespace. The message passes iff it is not all whitespace and its raw length is at least 10. There is no upper bound. |
| `ContactForm.NombreCheckExamples` | frontend/src/components/ZyphWebsite.js:75-77 | `"  "` fails the name check, because it trims to nothing. `" a"` passes it, because its length is taken before trimming. |
| `ContactForm.ServerErrorText` | frontend/src/components/ZyphWebsite.js:139-143 | The text shown for a failed answer is never empty. It is the server's error when that is present and non-empty, and the default text otherwise. |
| `ContactForm.ContactFormState.constructor` | frontend/src/components/ZyphWebsite.js:22-30 | The form starts with five empty fields, no status and not submitting. |
| `ContactForm.ContactFormState.HandleInputChange` | frontend/src/components/ZyphWebsite.js:62-70 | Only the edited field changes. The status is cleared, and `isSubmitting` is unchanged. |
| `ContactForm.ContactFormState.HandleSubmit` | frontend/src/components/ZyphWebsite.js:100-155 | With errors, it shows the first error and sends nothing; `formData` and `isSubmitting` are unchanged. Otherwise it sends the current form. After `ok && success`, it shows the success text and empties all five fields. After any other answer, it shows `result.error` or the default text and keeps the form. After a connection failure, it shows the connection text and keeps the form. On every path that sends, `isSubmitting` is false at the end. |
| `EndToEnd.RequestOf` | frontend/src/components/ZyphWebsite.js:117-122 | `JSON.stringify(formData)` sends all five fields. The route's presence check passes on it exactly when no field is empty. |
| `EndToEnd.AnswerOf` | frontend/src/components/ZyphWebsite.js:124-126 | Every reply of the route reaches the form as an answer. `success` holds exactly for the 201 body, and an error text is present exactly for the 400 and 500 bodies. |
| `EndToEnd.ValidFormPassesPresenceCheck` | backend/server.js:108-112 | A form that passes every frontend check is never rejected by the route's presence check. |
| `EndToEnd.RepliesAsShown` | frontend/src/components/ZyphWebsite.js:126-144 | The route's 201 reply reads as success. Its 400 and 500 replies read as failures, and the form shows the route's own error text, since neither text is empty. |

## Left out

- Rate limiting (`express-rate-limit`, 15 minutes, 5 requests per address) is left out. It is a configured third-party library whose windowing logic is not visible.
- Express middleware is left out: `helmet`, CORS, body parsers and `trust proxy`. So are `app.listen` and the health route. They are plumbing with no logic of the service's own.
- The MongoDB connection and its events are left out. `save()` is reduced to the flag `storageUp`: false stands for any error thrown while saving. Durability is not modelled.
- The document identifier is modelled as a counter (`nextId`) advanced when a contact is built. The creation date is the integer parameter `now`.
- Request fields are strings or absent. JSON numbers, booleans and objects in a field are not modelled, and neither is mongoose's casting of them to strings.
- The nodemailer transporter is not modelled. It is configured but never used: the email step at line 125 and the admin routes at line 141 are comments.
- `fetch` and `response.json()` are not modelled. Their result is the input `FetchOutcome`, and a body that fails to parse counts as a connection failure.
- ContactForm.ContactFormState.HandleSubmit: the intermediate state while the request is in flight (`isSubmitting` true, status cleared) is set inside the method but does not appear in its postcondition. React's batching of state updates and re-renders is not modelled.
- Rendering is left out: the JSX, the `services` and `projects` arrays, the scroll listener and `scrollToSection`. They are display-only.
- `Text.IsWhitespace` lists the code points of ECMAScript's `\s`. The regular expressions work on UTF-16 code units, so a code point above U+FFFF is one character in the model and two in JavaScript. This changes no verdict: surrogate halves are neither whitespace, `@`, `.`, `+` nor digits. Lengths are counted in code units through `Text.Utf16Length`.
