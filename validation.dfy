/**
  The client side of test-code validation: the text field's input handler,
  which keeps only digits, and the form's submit handler, which repeats the
  server's first three checks before letting the form reach the server.
  The browser's event wiring and its class list become the fields and
  methods of `LoginField`; `preventDefault` becomes the result of `OnSubmit`.
*/
module Validation {
  import opened Wrappers
  import opened Chars
  import opened Whitespace

  /** The most digits the field keeps. */
  const MaxDigits: nat := 6

  /** `replace(/\D/g, "")`: the ASCII digits of s, in order. */
  function KeepDigits(s: string): (r: string)
    ensures AllAsciiDigits(r)
    ensures |r| <= |s|
  {
    if s == [] then [] else KeepDigit(s[0]) + KeepDigits(s[1..])
  }

  /** One character filtered: itself if it is an ASCII digit, nothing otherwise. */
  function KeepDigit(c: char): (r: string)
    ensures AllAsciiDigits(r) && |r| <= 1
    ensures IsAsciiDigit(c) <==> r == [c]
  {
    if IsAsciiDigit(c) then [c] else []
  }

  /** Text that is all digits is kept whole. */
  lemma {:induction false} KeepDigitsOfDigits(s: string)
    requires AllAsciiDigits(s)
    ensures KeepDigits(s) == s
  {
    if s != [] {
      KeepDigitsOfDigits(s[1..]);
    }
  }

  /** Text without digits is dropped entirely. */
  lemma {:induction false} KeepDigitsOfNonDigits(s: string)
    requires forall i :: 0 <= i < |s| ==> !IsAsciiDigit(s[i])
    ensures KeepDigits(s) == []
  {
    if s != [] {
      KeepDigitsOfNonDigits(s[1..]);
    }
  }

  /** Filtering works piece by piece, so it keeps the digits' order. */
  lemma {:induction false} KeepDigitsConcat(a: string, b: string)
    ensures KeepDigits(a + b) == KeepDigits(a) + KeepDigits(b)
  {
    if a == [] {
      assert a + b == b;
    } else {
      var ab := a + b;
      assert ab[0] == a[0] && ab[1..] == a[1..] + b;
      KeepDigitsConcat(a[1..], b);
      Regroup(KeepDigit(a[0]), KeepDigits(a[1..]), KeepDigits(b));
    }
  }

  /** The input handler's `value.replace(/\D/g, "").slice(0, 6)`: the first
      digits of s, at most six of them, all of them when there are fewer. */
  function Sanitize(s: string): (r: string)
    ensures AllAsciiDigits(r)
    ensures |r| <= MaxDigits
    ensures r <= KeepDigits(s)
    ensures |KeepDigits(s)| <= MaxDigits ==> r == KeepDigits(s)
    ensures |KeepDigits(s)| >= MaxDigits ==> |r| == MaxDigits
  {
    var digits := KeepDigits(s);
    if |digits| <= MaxDigits then digits else digits[..MaxDigits]
  }

  /** Sanitizing twice is sanitizing once. */
  lemma SanitizeIdempotent(s: string)
    ensures Sanitize(Sanitize(s)) == Sanitize(s)
  {
    KeepDigitsOfDigits(Sanitize(s));
  }

  /** The values the input handler leaves alone are exactly the strings of
      at most six ASCII digits. */
  lemma SanitizeFixedPoints(s: string)
    ensures Sanitize(s) == s <==> AllAsciiDigits(s) && |s| <= MaxDigits
  {
    if AllAsciiDigits(s) {
      KeepDigitsOfDigits(s);
    }
  }

  /** Once six digits are in, what is typed after them is dropped. */
  lemma SanitizeFull(s: string, t: string)
    requires |Sanitize(s)| == MaxDigits
    ensures Sanitize(s + t) == Sanitize(s)
  {
    KeepDigitsConcat(s, t);
    var d := KeepDigits(s);
    assert KeepDigits(s + t)[..MaxDigits] == d[..MaxDigits];
  }

  /** The errors the submit handler can show, in the order it checks for them. */
  datatype FieldError = Empty | NotNumeric | WrongLength

  /** The feedback text of each error. */
  function Message(e: FieldError): (text: string)
    ensures text != []
  {
    match e
    case Empty => "Please enter the 6 digit Unique Test ID."
    case NotNumeric => "Unique Test ID must be numeric."
    case WrongLength => "Unique Test ID must be exactly 6 digits."
  }

  /** `/^\d+$/.test(val)`: one or more ASCII digits and nothing else. */
  function IsDigitRun(val: string): (matched: bool)
    ensures matched <==> val != [] && AllAsciiDigits(val)
  {
    val != [] && IsAsciiDigit(val[0]) && (|val| == 1 || IsDigitRun(val[1..]))
  }

  /** The submit handler's checks on the trimmed value; `None` lets the form through. */
  function SubmitCheck(val: string): (r: Option<FieldError>)
    ensures r == None <==> |val| == MaxDigits && AllAsciiDigits(val)
    ensures r == Some(Empty) <==> val == []
    ensures r == Some(NotNumeric) <==> val != [] && !AllAsciiDigits(val)
    ensures r == Some(WrongLength) <==> val != [] && AllAsciiDigits(val) && |val| != MaxDigits
  {
    if val == [] then Some(Empty)
    else if !IsDigitRun(val) then Some(NotNumeric)
    else if |val| != MaxDigits then Some(WrongLength)
    else None
  }

  /** A value the input handler produced is never reported as non-numeric: it
      is empty, too short, or accepted with exactly six digits. */
  lemma SanitizedCheck(edited: string, ws: set<char>)
    requires forall c :: IsAsciiDigit(c) ==> c !in ws
    ensures var v := Sanitize(edited);
      && Strip(v, ws) == v
      && SubmitCheck(v) != Some(NotNumeric)
      && (SubmitCheck(v) == None <==> |KeepDigits(edited)| >= MaxDigits)
  {
    var v := Sanitize(edited);
    if v != [] {
      assert IsAsciiDigit(v[0]) && IsAsciiDigit(v[|v| - 1]);
    }
    StripUnpadded(v, ws);
  }

  /** The test-code field: its text, whether it carries the "is-invalid"
      class, and the text of the feedback element beside it. */
  class LoginField {
    /** The characters `String.prototype.trim` removes. */
    const whitespace: set<char>
    var value: string
    var invalid: bool
    var feedback: string

    constructor (whitespace: set<char>, value: string)
      ensures this.whitespace == whitespace && this.value == value
      ensures !invalid && feedback == ""
    {
      this.whitespace := whitespace;
      this.value := value;
      invalid := false;
      feedback := "";
    }

    /** `setInvalid(message)`. */
    method SetInvalid(message: string)
      modifies this
      ensures invalid && feedback == message && value == old(value)
    {
      invalid := true;
      feedback := message;
    }

    /** `clearInvalid()`. */
    method ClearInvalid()
      modifies this
      ensures !invalid && feedback == "" && value == old(value)
    {
      invalid := false;
      feedback := "";
    }

    /** The input handler; `edited` is the text the browser has just put in the field. */
    method OnInput(edited: string)
      modifies this
      ensures value == Sanitize(edited)
      ensures !invalid && feedback == ""
    {
      value := edited;
      value := Sanitize(value);
      ClearInvalid();
    }

    /** The submit handler; the result is false when it calls `preventDefault`. */
    method OnSubmit() returns (proceed: bool)
      modifies this
      ensures value == old(value)
      ensures proceed <==> SubmitCheck(Strip(value, whitespace)) == None
      ensures match SubmitCheck(Strip(value, whitespace))
        case None => !invalid && feedback == ""
        case Some(e) => invalid && feedback == Message(e)
    {
      var val := Strip(value, whitespace);
      if val == [] {
        SetInvalid("Please enter the 6 digit Unique Test ID.");
        return false;
      }
      if !IsDigitRun(val) {
        SetInvalid("Unique Test ID must be numeric.");
        return false;
      }
      if |val| != MaxDigits {
        SetInvalid("Unique Test ID must be exactly 6 digits.");
        return false;
      }
      ClearInvalid();
      return true;
    }
  }
}
