/**
  The server side of test-code validation: `is_valid_test_code` and the
  decision the POST branch of the `login` route takes. The database is the
  set of test codes it knows; Flask's rendering, flashing and redirecting
  become the `Response` value the route produces.
*/
module App {
  import opened Wrappers
  import opened Chars
  import opened Whitespace

  /** The errors the login route can flash, in the order it checks for them. */
  datatype LoginError = MissingCode | NotNumeric | WrongLength | BadFormat | UnknownCode

  /** The flashed text of each error. */
  function Message(e: LoginError): (text: string)
    ensures text != []
  {
    match e
    case MissingCode => "Please enter the 6 digit Unique Test ID."
    case NotNumeric => "Unique Test ID must be numeric."
    case WrongLength => "Unique Test ID must be exactly 6 digits."
    case BadFormat => "Invalid Test ID format."
    case UnknownCode => "This Test ID does not exist. Please check with your trainer."
  }

  /** Number of digits in a test code. */
  const CodeLength: nat := 6

  /** `re.fullmatch` of the pattern `\d{n}` against s: n characters of the
      class \d, consumed one at a time, and nothing left over. */
  function FullMatchDigits(s: string, n: nat, decimal: set<char>): (matched: bool)
    ensures matched <==> |s| == n && AllIn(s, decimal)
  {
    if n == 0 then s == []
    else s != [] && s[0] in decimal && FullMatchDigits(s[1..], n - 1, decimal)
  }

  /** `is_valid_test_code`: the whole code matches `\d{6}`. */
  function IsValidTestCode(code: string, uc: CharClasses): (valid: bool)
    ensures valid <==> |code| == CodeLength && AllIn(code, uc.decimal)
  {
    FullMatchDigits(code, CodeLength, uc.decimal)
  }

  /** `str.isdigit`: non-empty, and every character a digit. */
  function IsDigitString(s: string, uc: CharClasses): (digits: bool)
    ensures digits <==> s != [] && AllIn(s, uc.digit)
  {
    s != [] && s[0] in uc.digit && (|s| == 1 || IsDigitString(s[1..], uc))
  }

  /** The if/elif chain on the stripped code, before the database is asked. */
  function Validate(code: string, uc: CharClasses): (r: Option<LoginError>)
    ensures r != Some(UnknownCode)
    ensures r == None ==> IsValidTestCode(code, uc)
  {
    if code == [] then Some(MissingCode)
    else if !IsDigitString(code, uc) then Some(NotNumeric)
    else if |code| != CodeLength then Some(WrongLength)
    else if !IsValidTestCode(code, uc) then Some(BadFormat)
    else None
  }

  /** What one POST of a test code leads to. */
  datatype Outcome = Failed(error: LoginError) | Redirect(testCode: string)

  /** The POST branch: strip the submitted text, validate it, then look it up
      among the known codes. */
  function Decide(raw: string, known: set<string>, uc: CharClasses): (r: Outcome)
    ensures r.Redirect? ==> r.testCode == Strip(raw, uc.pySpace) && r.testCode in known
    ensures r.Redirect? || r == Failed(UnknownCode) ==> IsValidTestCode(Strip(raw, uc.pySpace), uc)
    ensures r == Failed(UnknownCode) ==> Strip(raw, uc.pySpace) !in known
  {
    var code := Strip(raw, uc.pySpace);
    match Validate(code, uc)
    case Some(e) => Failed(e)
    case None => if code in known then Redirect(code) else Failed(UnknownCode)
  }

  datatype Verb = Get | Post

  /** The request as the route sees it: its method and its form fields. */
  datatype Request = Request(verb: Verb, form: map<string, string>)

  /** The login page, with the message flashed on it if any, or a redirect to
      the exam page of a test code. */
  datatype Response = LoginPage(flash: Option<string>) | ExamRedirect(testCode: string)

  /** `request.form.get("test_code", "")`. */
  function SubmittedCode(form: map<string, string>): (code: string)
    ensures "test_code" in form ==> code == form["test_code"]
    ensures "test_code" !in form ==> code == ""
  {
    if "test_code" in form then form["test_code"] else ""
  }

  /** The `login` route. */
  function Login(req: Request, known: set<string>, uc: CharClasses): (r: Response)
    ensures req.verb == Get ==> r == LoginPage(None)
    ensures req.verb == Post ==> r.ExamRedirect? || (r.LoginPage? && r.flash.Some?)
    ensures r.ExamRedirect? ==> req.verb == Post && r.testCode in known && IsValidTestCode(r.testCode, uc)
    ensures r.ExamRedirect? ==> r.testCode == Strip(SubmittedCode(req.form), uc.pySpace)
    ensures req.verb == Post ==> (r.ExamRedirect? <==> Decide(SubmittedCode(req.form), known, uc).Redirect?)
    ensures req.verb == Post && Decide(SubmittedCode(req.form), known, uc).Failed? ==>
      r == LoginPage(Some(Message(Decide(SubmittedCode(req.form), known, uc).error)))
  {
    match req.verb
    case Get => LoginPage(None)
    case Post =>
      var outcome := Decide(SubmittedCode(req.form), known, uc);
      if outcome.Redirect? then ExamRedirect(outcome.testCode)
      else LoginPage(Some(Message(outcome.error)))
  }

  /** Position of each check in the chain; the lookup comes last. */
  function Rank(e: LoginError): nat {
    match e
    case MissingCode => 0
    case NotNumeric => 1
    case WrongLength => 2
    case BadFormat => 3
    case UnknownCode => 4
  }

  /** Whether the stripped code passes the check whose failure is reported as e. */
  predicate Passes(e: LoginError, code: string, known: set<string>, uc: CharClasses) {
    match e
    case MissingCode => code != []
    case NotNumeric => IsDigitString(code, uc)
    case WrongLength => |code| == CodeLength
    case BadFormat => IsValidTestCode(code, uc)
    case UnknownCode => code in known
  }

  /** First failure wins: the route reports e exactly when check e fails and
      every earlier check passed. */
  lemma DecideFirstFailure(raw: string, known: set<string>, uc: CharClasses, e: LoginError)
    ensures var code := Strip(raw, uc.pySpace);
      Decide(raw, known, uc) == Failed(e)
      <==> !Passes(e, code, known, uc) && forall e' :: Rank(e') < Rank(e) ==> Passes(e', code, known, uc)
  {
    var code := Strip(raw, uc.pySpace);
    if forall e' :: Rank(e') < Rank(e) ==> Passes(e', code, known, uc) {
      assert Rank(e) > 0 ==> Passes(MissingCode, code, known, uc);
      assert Rank(e) > 1 ==> Passes(NotNumeric, code, known, uc);
      assert Rank(e) > 2 ==> Passes(WrongLength, code, known, uc);
      assert Rank(e) > 3 ==> Passes(BadFormat, code, known, uc);
    }
  }

  /** The route redirects exactly when every check, the lookup included, passes. */
  lemma DecideRedirects(raw: string, known: set<string>, uc: CharClasses)
    ensures var code := Strip(raw, uc.pySpace);
      Decide(raw, known, uc) == Redirect(code) <==> forall e :: Passes(e, code, known, uc)
  {
    var code := Strip(raw, uc.pySpace);
    if Decide(raw, known, uc) == Redirect(code) {
      forall e ensures Passes(e, code, known, uc) {
        assert IsValidTestCode(code, uc);
      }
    }
    if forall e :: Passes(e, code, known, uc) {
      assert Passes(MissingCode, code, known, uc) && Passes(NotNumeric, code, known, uc);
      assert Passes(WrongLength, code, known, uc) && Passes(BadFormat, code, known, uc);
      assert Passes(UnknownCode, code, known, uc);
    }
  }

  /** Given Unicode's inclusions, the four checks together accept exactly the codes
      `is_valid_test_code` accepts. */
  lemma ValidateAcceptsValidCodes(code: string, uc: CharClasses)
    requires uc.Valid()
    ensures Validate(code, uc) == None <==> IsValidTestCode(code, uc)
  {
    if IsValidTestCode(code, uc) {
      assert code[0] in uc.decimal;
      assert AllIn(code, uc.digit);
    }
  }

  /** Leading and trailing whitespace never changes the outcome. */
  lemma DecideIgnoresPadding(p: string, s: string, q: string, known: set<string>, uc: CharClasses)
    requires AllIn(p, uc.pySpace) && AllIn(q, uc.pySpace)
    ensures Decide(p + s + q, known, uc) == Decide(s, known, uc)
  {
    StripIgnoresPadding(p, s, q, uc.pySpace);
  }

  /** Input that is nothing but whitespace is reported as missing. */
  lemma DecideBlank(raw: string, known: set<string>, uc: CharClasses)
    requires AllIn(raw, uc.pySpace)
    ensures Decide(raw, known, uc) == Failed(MissingCode)
  {
    StripOfWhitespace(raw, uc.pySpace);
  }

  /** The known codes matter only once the stripped code has passed every check:
      a rejected code never reaches the database. */
  lemma NoLookupBeforeValidation(raw: string, known1: set<string>, known2: set<string>, uc: CharClasses)
    requires Validate(Strip(raw, uc.pySpace), uc) != None
    ensures Decide(raw, known1, uc) == Decide(raw, known2, uc)
  {
  }

  /** A code that passes every check is redirected to exactly when it is known,
      and reported as unknown otherwise. */
  lemma DecideLookup(raw: string, known: set<string>, uc: CharClasses)
    requires Validate(Strip(raw, uc.pySpace), uc) == None
    ensures var code := Strip(raw, uc.pySpace);
      && (Decide(raw, known, uc) == Redirect(code) <==> code in known)
      && (Decide(raw, known, uc) == Failed(UnknownCode) <==> code !in known)
  {
  }

  /** The "Invalid Test ID format." branch can be reached exactly when
      `str.isdigit` accepts some character that `\d` does not. */
  lemma BadFormatReachableIff(known: set<string>, uc: CharClasses)
    requires uc.Valid()
    ensures (exists raw :: Decide(raw, known, uc) == Failed(BadFormat)) <==> uc.digit != uc.decimal
  {
    if uc.digit != uc.decimal {
      var c :| c in uc.digit && c !in uc.decimal;
      var raw := [c, c, c, c, c, c];
      assert AllIn(raw, uc.digit);
      assert raw[0] == c;
      BadFormatWitness(raw, known, uc);
    } else {
      forall raw ensures Decide(raw, known, uc) != Failed(BadFormat) {
        BadFormatUnreachable(raw, known, uc);
      }
    }
  }

  /** Six digits, not all of them matched by `\d` (six copies of superscript
      two, say), reach the format branch. */
  lemma BadFormatWitness(raw: string, known: set<string>, uc: CharClasses)
    requires uc.Valid()
    requires |raw| == CodeLength && AllIn(raw, uc.digit) && !AllIn(raw, uc.decimal)
    ensures Decide(raw, known, uc) == Failed(BadFormat)
  {
    assert raw[0] in uc.digit && raw[|raw| - 1] in uc.digit;
    StripUnpadded(raw, uc.pySpace);
  }

  /** When `isdigit` and `\d` agree, a code that is numeric and six long is valid. */
  lemma BadFormatUnreachable(raw: string, known: set<string>, uc: CharClasses)
    requires uc.digit == uc.decimal
    ensures Decide(raw, known, uc) != Failed(BadFormat)
  {
    var code := Strip(raw, uc.pySpace);
    assert IsDigitString(code, uc) && |code| == CodeLength ==> IsValidTestCode(code, uc);
  }
}
