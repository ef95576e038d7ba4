# Test-code validation of the quiz login page

A trainee opens an exam by typing its six-digit "Unique Test ID". The code is
checked twice: in the browser, by `static/js/validation.js`, and on the
server, by the `login` route of `app.py`. This project models both checks
and proves what each of them promises and how they agree.

- **Server** (module `App`). `is_valid_test_code` is a full match of `\d{6}`.
  The POST branch of `login` strips the submitted text and applies an
  ordered chain of checks: empty, not numeric (`str.isdigit`), not six
  characters long, not matching `\d{6}`. The first failing check picks the
  flashed message. A code that passes every check is looked up, and the route
  either redirects to that test's exam page or reports the code as unknown.
  The database is a set of known test codes. `Decide` is the decision;
  `Login` adds the request method and the form field.
- **Client** (module `Validation`). The input handler replaces the field's
  text by its first six ASCII digits (`Sanitize`). The submit handler trims
  the value and repeats the first three server checks with the same
  messages. It either blocks submission and marks the field invalid, or
  clears the mark and lets the form through. The field is the class
  `LoginField`: its value, the "is-invalid" mark and the feedback text.
- **Agreement** (module `Agreement`). These lemmas connect the two sides.
  A trimmed value the client accepts passes every server check. The shared
  failures carry identical messages. On one string whose only digits are
  ASCII digits, the client's checks and the server's checks make the same
  decision. These facts are about the trimmed value the client inspects. The
  form, however, submits the untrimmed field value, which the server strips
  with its own whitespace set. For that raw value,
  `Agreement.SanitizedSubmissionReachesLookup` covers a value left by the
  input handler. `Agreement.AcceptedSubmissionReachesLookup` covers any
  value, provided what `trim` removes, `strip` removes too.

Character classes are parameters, not Unicode tables. `Chars.CharClasses`
holds four sets:

- the characters `\d` matches in Python;
- the characters `str.isdigit` accepts;
- the whitespace `str.strip()` removes;
- the whitespace `String.prototype.trim` removes.

`CharClasses.Valid` states only the inclusions that Unicode guarantees.
Python's `isdigit` accepts more characters than its `\d` does, so the
"Invalid Test ID format." branch can be reached. `App.BadFormatReachableIff`
proves that it is reachable exactly when the two sets differ. JavaScript's
`\d` is ASCII-only.

The two whitespace sets are not known to be equal. `Agreement.AcceptedSubmissionReachesLookup`
assumes that what `trim` removes, `strip` removes too. `Agreement.TrimStripDivergence`
shows what happens without that assumption: a character that only `trim` removes
gets through the client and is rejected by the server. An example is
U+FEFF, which `trim` removes and `str.isspace` does not accept.

Files: `wrappers.dfy` (Option), `chars.dfy` (character classes),
`whitespace.dfy` (strip/trim for a given whitespace set), `app.dfy`,
`validation.dfy`, `agreement.dfy`.

## Model

| member | source | states |
|---|---|---|
| App.Message | app.py:26-45 | every flashed message is non-empty, so `if error:` always flashes it |
| App.FullMatchDigits | app.py:18 | matching `\d{n}` over the whole string holds iff the string has length n and every character is in `\d` |
| App.IsValidTestCode | app.py:16-18 | a code is valid iff it is exactly six characters, each matched by `\d` |
| App.IsDigitString | app.py:28 | `str.isdigit` holds iff the text is non-empty and every character is one `isdigit` accepts |
| App.Validate | app.py:26-34 | the chain reports no error only for a valid test code and never reports an unknown code |
| App.Decide | app.py:24-45 | a redirect carries the stripped code, which is known; a redirect or "does not exist" happen only for a stripped code that satisfies `is_valid_test_code` |
| App.SubmittedCode | app.py:24 | the submitted code is the `test_code` form field, or the empty string when the field is missing |
| App.Login | app.py:20-48 | a GET renders the page with no message; a POST either redirects or flashes exactly one message; it redirects iff `Decide` does, to the stripped submitted code, which is known and valid; otherwise the page flashes exactly the message of `Decide`'s error |
| App.DecideFirstFailure | app.py:26-45 | the route reports error e iff the check for e fails and every check before it in the chain passes |
| App.DecideRedirects | app.py:26-43 | the route redirects iff all checks, the lookup included, pass |
| App.ValidateAcceptsValidCodes | app.py:16-33 | under Unicode's inclusions, the four checks together accept exactly the codes `is_valid_test_code` accepts |
| App.DecideIgnoresPadding | app.py:24 | leading or trailing whitespace never changes the outcome |
| App.DecideBlank | app.py:24-27 | all-whitespace input, the empty string included, is reported as a missing code |
| App.NoLookupBeforeValidation | app.py:26-38 | when a check fails, the outcome does not depend on the database |
| App.DecideLookup | app.py:34-45 | a code past the checks redirects iff it is known, and is reported as not existing iff it is not |
| App.BadFormatReachableIff | app.py:28-33 | some input reaches "Invalid Test ID format." iff `isdigit` and `\d` accept different characters |
| App.BadFormatWitness | app.py:28-33 | six characters that `isdigit` accepts, not all accepted by `\d` (six superscript twos, say), reach "Invalid Test ID format." |
| App.BadFormatUnreachable | app.py:28-33 | when `isdigit` and `\d` accept the same characters, no input reaches "Invalid Test ID format." |
| Whitespace.TrimStart | app.py:24 | the result is a suffix of the input, what was removed is all whitespace, and the result does not start with whitespace |
| Whitespace.TrimEnd | app.py:24 | the result is a prefix of the input, what was removed is all whitespace, and the result does not end with whitespace |
| Whitespace.Strip | app.py:24 | the stripped text neither starts nor ends with whitespace |
| Whitespace.StripOfWhitespace | app.py:24-26 | stripping gives the empty string iff the text is all whitespace |
| Whitespace.StripPadded | static/js/validation.js:24 | a core without whitespace at its ends, padded with whitespace, strips back to that core |
| Whitespace.StripUnpadded | app.py:24 | a text that neither starts nor ends with whitespace strips to itself |
| Whitespace.StripSplits | static/js/validation.js:24 | every text is its stripped core with whitespace on either side |
| Whitespace.StripIgnoresPadding | app.py:24 | adding whitespace around a text does not change its stripped form |
| Whitespace.StripIdempotent | static/js/validation.js:24 | stripping twice is stripping once |
| Validation.KeepDigits | static/js/validation.js:19 | the result holds only ASCII digits and is no longer than the input |
| Validation.KeepDigitsOfDigits | static/js/validation.js:19 | text that is all ASCII digits is kept whole |
| Validation.KeepDigitsOfNonDigits | static/js/validation.js:19 | text with no ASCII digit is dropped entirely |
| Validation.KeepDigitsConcat | static/js/validation.js:19 | filtering distributes over concatenation, so digits keep their original order |
| Validation.Sanitize | static/js/validation.js:19 | the sanitised value holds only ASCII digits, at most six, is a prefix of the input's digits, is all of them when there are at most six, and is exactly six long when there are at least six |
| Validation.SanitizeIdempotent | static/js/validation.js:19 | sanitising twice is sanitising once |
| Validation.SanitizeFixedPoints | static/js/validation.js:19 | the sanitiser leaves a value unchanged iff it is at most six ASCII digits |
| Validation.SanitizeFull | static/js/validation.js:19 | once six digits are in, anything typed after them is dropped |
| Validation.Message | static/js/validation.js:27-37 | every feedback message is non-empty |
| Validation.IsDigitRun | static/js/validation.js:30 | `/^\d+$/` matches iff the value is non-empty and all ASCII digits |
| Validation.SubmitCheck | static/js/validation.js:24-41 | first failure wins: the value is reported empty iff it is empty, not numeric iff it is non-empty and not all ASCII digits, of the wrong length iff it is all ASCII digits and not six long, and let through iff it is exactly six ASCII digits |
| Validation.SanitizedCheck | static/js/validation.js:17-39 | a sanitised value is unchanged by trimming, is never reported as non-numeric, and is accepted iff the typed text held at least six digits |
| Validation.LoginField.constructor | static/js/validation.js:3-5 | the field starts with the given text, not marked invalid, with no feedback |
| Validation.LoginField.SetInvalid | static/js/validation.js:7-10 | marks the field invalid and shows the message; the value is untouched |
| Validation.LoginField.ClearInvalid | static/js/validation.js:12-15 | removes the mark and empties the feedback; the value is untouched |
| Validation.LoginField.OnInput | static/js/validation.js:17-21 | after an input event the value is the sanitised text, the field is not invalid and the feedback is empty |
| Validation.LoginField.OnSubmit | static/js/validation.js:23-42 | submission proceeds iff the trimmed value passes the checks; otherwise the field is invalid with the first failing check's message; the value is untouched |
| Agreement.ServerError | static/js/validation.js:27-37 | each client failure has a server failure with an identical message |
| Agreement.ClientAcceptsOnlyValidCodes | static/js/validation.js:30-41 | a trimmed value the client accepts satisfies `is_valid_test_code` and passes every server check |
| Agreement.ChecksAgreeOnAsciiDigits | static/js/validation.js:24-39 | on one string whose digits are all ASCII, the client's checks and the server's checks pick the same failure or both accept |
| Agreement.SanitizedSubmissionReachesLookup | static/js/validation.js:19-41 | a sanitised value that the client accepts reaches the server's lookup unchanged |
| Agreement.AcceptedSubmissionReachesLookup | static/js/validation.js:24-41 | if `strip` removes everything `trim` does, any accepted value reaches the lookup, as the code the client checked |
| Agreement.TrimStripDivergence | static/js/validation.js:24 | a character that only `trim` removes, placed before a six-digit code, passes the client and is rejected by the server as not numeric |
| Agreement.TrimRemovesLead | static/js/validation.js:24 | `trim` removes a leading `trim`-only whitespace character from before a six-digit code |
| Agreement.StripKeepsLead | app.py:24-29 | `strip` keeps that character, so `isdigit` fails on the stripped text |

## Left out

- Flask plumbing: routing, the rendered templates, `flash`, `redirect`/`url_for` and the `exam_landing` page. These are web I/O. `Login` returns the decision they render as a `Response` value.
- SQLite access (`get_db_connection`, the queries). The `tests` table is the set of known codes passed to `Decide`.
- The schema and seeding scripts (`db_migrations.py`, `init_db.py`, `db_add_total_trainees.py`). They only create tables and insert fixtures.
- The quiz engine (question import, sampling, sessions, scoring, result analytics) is not part of the login validation and is not modelled.
- DOM wiring: `DOMContentLoaded`, `addEventListener`, `getElementById`, `classList` and `preventDefault`. Their effect is the fields of `LoginField` and the result of `OnSubmit`. The markup of the login page is not part of this model. The constructor starts the field unmarked and with empty feedback.
- Unicode tables: the digit and whitespace classes are parameters (`Chars.CharClasses`). JavaScript strings are UTF-16. `KeepDigits` and `SubmitCheck` work on code points. A non-ASCII character is removed either way, and `val.length` is measured only on ASCII digits, so the results are the same.
- Validation.LoginField.OnInput: takes the edited text as a parameter. How the browser changed the text before the event fires is not modelled.
