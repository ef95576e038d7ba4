/**
  How the client's checks relate to the server's: what the submit handler
  lets through, the server's format check accepts, and the two report the
  shared failures with the same words.
*/
module Agreement {
  import opened Wrappers
  import opened Chars
  import opened Whitespace
  import App
  import Validation

  /** The server check that reports the same failure as a client check, with the same text. */
  function ServerError(e: Validation.FieldError): (r: App.LoginError)
    ensures App.Message(r) == Validation.Message(e)
    ensures r != App.BadFormat && r != App.UnknownCode
  {
    match e
    case Empty => App.MissingCode
    case NotNumeric => App.NotNumeric
    case WrongLength => App.WrongLength
  }

  /** Every trimmed value the submit handler lets through is a valid test code
      to the server and passes all of the server's checks. */
  lemma ClientAcceptsOnlyValidCodes(val: string, uc: CharClasses)
    requires uc.Valid()
    requires Validation.SubmitCheck(val) == None
    ensures App.IsValidTestCode(val, uc)
    ensures App.Validate(val, uc) == None
  {
    assert AllIn(val, uc.decimal);
    App.ValidateAcceptsValidCodes(val, uc);
  }

  /** On text whose only digits are ASCII digits, client and server make the
      same decision, with the same message; the server's format check never fires. */
  lemma ChecksAgreeOnAsciiDigits(val: string, uc: CharClasses)
    requires uc.Valid()
    requires forall i :: 0 <= i < |val| && val[i] in uc.digit ==> IsAsciiDigit(val[i])
    ensures App.Validate(val, uc) ==
      match Validation.SubmitCheck(val)
      case None => None
      case Some(e) => Some(ServerError(e))
  {
    assert App.IsDigitString(val, uc) <==> Validation.IsDigitRun(val);
    if Validation.SubmitCheck(val) == None {
      ClientAcceptsOnlyValidCodes(val, uc);
    }
  }

  /** A field value left by the input handler that the submit handler accepts
      reaches the server's database lookup unchanged. */
  lemma SanitizedSubmissionReachesLookup(edited: string, known: set<string>, uc: CharClasses)
    requires uc.Valid()
    requires Validation.SubmitCheck(Strip(Validation.Sanitize(edited), uc.jsSpace)) == None
    ensures var v := Validation.Sanitize(edited);
      App.Decide(v, known, uc) == if v in known then App.Redirect(v) else App.Failed(App.UnknownCode)
  {
    var v := Validation.Sanitize(edited);
    Validation.SanitizedCheck(edited, uc.jsSpace);
    Validation.SanitizedCheck(edited, uc.pySpace);
    ClientAcceptsOnlyValidCodes(v, uc);
  }

  /** When every character `trim` removes is also one `strip` removes, any value
      the submit handler accepts reaches the lookup as the code the client checked. */
  lemma AcceptedSubmissionReachesLookup(v: string, known: set<string>, uc: CharClasses)
    requires uc.Valid() && uc.jsSpace <= uc.pySpace
    requires Validation.SubmitCheck(Strip(v, uc.jsSpace)) == None
    ensures var code := Strip(v, uc.jsSpace);
      App.Decide(v, known, uc) == if code in known then App.Redirect(code) else App.Failed(App.UnknownCode)
  {
    var code := Strip(v, uc.jsSpace);
    var p, q := StripSplits(v, uc.jsSpace);
    AllInWider(p, uc.jsSpace, uc.pySpace);
    AllInWider(q, uc.jsSpace, uc.pySpace);
    assert code[0] in uc.decimal && code[|code| - 1] in uc.decimal;
    StripPadded(p, code, q, uc.pySpace);
    ClientAcceptsOnlyValidCodes(code, uc);
  }

  lemma AllInWider(s: string, small: set<char>, large: set<char>)
    requires AllIn(s, small) && small <= large
    ensures AllIn(s, large)
  {
  }

  /** Without that inclusion the two sides part ways: a character `trim` removes
      but `strip` keeps (and that is no digit), put before a six-digit code,
      passes the client and is reported by the server as not numeric. */
  lemma TrimStripDivergence(c: char, code: string, known: set<string>, uc: CharClasses)
    requires uc.Valid()
    requires c in uc.jsSpace && c !in uc.pySpace && c !in uc.digit
    requires Validation.SubmitCheck(code) == None
    ensures Validation.SubmitCheck(Strip([c] + code, uc.jsSpace)) == None
    ensures App.Decide([c] + code, known, uc) == App.Failed(App.NotNumeric)
  {
    TrimRemovesLead(c, code, uc);
    StripKeepsLead(c, code, uc);
  }

  /** `trim` removes the leading character and leaves the code. */
  lemma TrimRemovesLead(c: char, code: string, uc: CharClasses)
    requires uc.Valid() && c in uc.jsSpace
    requires Validation.SubmitCheck(code) == None
    ensures Strip([c] + code, uc.jsSpace) == code
  {
    assert code[0] !in uc.jsSpace && code[|code| - 1] !in uc.jsSpace;
    assert AllIn([c], uc.jsSpace) && AllIn([], uc.jsSpace);
    assert [c] + code + [] == [c] + code;
    StripPadded([c], code, [], uc.jsSpace);
  }

  /** `strip` keeps the leading character, so `isdigit` fails. */
  lemma StripKeepsLead(c: char, code: string, uc: CharClasses)
    requires uc.Valid() && c !in uc.pySpace && c !in uc.digit
    requires Validation.SubmitCheck(code) == None
    ensures var raw := [c] + code;
      Strip(raw, uc.pySpace) == raw && !App.IsDigitString(raw, uc)
  {
    var raw := [c] + code;
    assert raw[0] == c && raw[|raw| - 1] == code[|code| - 1];
    assert code[|code| - 1] in uc.digit;
    StripUnpadded(raw, uc.pySpace);
  }
}
