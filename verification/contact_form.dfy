/** The contact section: field validation, the submission state machine, the
    text sent to the relay endpoint and the floating-label rule. */
module ContactForm {
  import opened JsText
  import opened Wrappers

  datatype FormData = FormData(name: string, email: string, message: string)

  const EmptyForm := FormData("", "", "")

  const NameRequired := "Name is required"
  const EmailRequired := "Email is required"
  const EmailInvalid := "Please enter a valid email address"
  const MessageRequired := "Message is required"
  const MessageTooShort := "Message must be at least 10 characters long"

  /** Minimum number of UTF-16 code units in the trimmed message. */
  const MinMessageLength := 10

  // ---------------------------------------------------------------------
  // The e-mail pattern ^[^\s@]+@[^\s@]+\.[^\s@]+$
  // ---------------------------------------------------------------------

  /** A character of the class `[^\s@]`. */
  predicate Plain(c: char) {
    !IsWhitespace(c) && c != '@'
  }

  predicate AllPlain(s: string) {
    forall i :: 0 <= i < |s| ==> Plain(s[i])
  }

  /** `s` splits as the pattern's four parts with the '@' at `at` and the
      escaped '.' at `dot`. */
  predicate EmailSplit(s: string, at: int, dot: int) {
    && 0 < at && at + 1 < dot && dot + 1 < |s|
    && s[at] == '@' && s[dot] == '.'
    && AllPlain(s[..at]) && AllPlain(s[at + 1..dot]) && AllPlain(s[dot + 1..])
  }

  /** The meaning of the regular expression: some way of splitting `s`
      matches it (the engine backtracks until it finds one, if any). */
  ghost predicate MatchesEmailPattern(s: string) {
    exists at, dot :: EmailSplit(s, at, dot)
  }

  /** Index of the first occurrence of `c` in `s`. */
  function IndexOf(s: string, c: char): (r: Option<nat>)
    ensures r.Some? ==> r.value < |s| && s[r.value] == c && c !in s[..r.value]
    ensures r.None? ==> c !in s
  {
    if s == [] then None
    else if s[0] == c then Some(0)
    else
      match IndexOf(s[1..], c)
      case None => None
      case Some(i) =>
        assert s[..i + 1] == [s[0]] + s[1..][..i];
        Some(i + 1)
  }

  /** The domain has a '.' that is neither its first nor its last character. */
  predicate HasInnerDot(d: string) {
    |d| >= 3 && '.' in d[1..|d| - 1]
  }

  /** The e-mail test as a single left-to-right check: one '@' after a
      non-empty plain run, and a plain domain with an inner dot. */
  predicate IsValidEmail(s: string)
    ensures IsValidEmail(s) ==> |s| >= 5 && '@' in s
  {
    match IndexOf(s, '@')
    case None => false
    case Some(at) => 0 < at && AllPlain(s[..at]) && AllPlain(s[at + 1..]) && HasInnerDot(s[at + 1..])
  }

  /** A position holding `c` with no earlier `c` is what IndexOf finds. */
  lemma {:induction false} IndexOfFirst(s: string, c: char, i: nat)
    requires i < |s| && s[i] == c && c !in s[..i]
    ensures IndexOf(s, c) == Some(i)
  {
    if i > 0 {
      assert s[0] == s[..i][0];
      assert s[1..][..i - 1] == s[1..i];
      assert c !in s[1..][..i - 1] by {
        assert forall x :: x in s[1..i] ==> x in s[..i];
      }
      IndexOfFirst(s[1..], c, i - 1);
    }
  }

  /** What the check accepts, the pattern matches. */
  lemma EmailCheckSound(s: string)
    requires IsValidEmail(s)
    ensures MatchesEmailPattern(s)
  {
    var at := IndexOf(s, '@').value;
    var d := s[at + 1..];
    var inner := d[1..|d| - 1];
    var k := IndexOf(inner, '.').value;
    var dot := at + 2 + k;
    assert k + 2 < |d| && dot + 1 < |s|;
    assert s[dot] == d[k + 1] == inner[k] == '.';
    assert s[at + 1..dot] == d[..k + 1] by {
      assert forall i :: 0 <= i < k + 1 ==> s[at + 1..dot][i] == s[at + 1 + i] == d[i];
    }
    assert s[dot + 1..] == d[k + 2..];
    assert EmailSplit(s, at, dot);
  }

  /** What the pattern matches, the check accepts. */
  lemma EmailCheckComplete(s: string)
    requires MatchesEmailPattern(s)
    ensures IsValidEmail(s)
  {
    var at, dot :| EmailSplit(s, at, dot);
    assert '@' !in s[..at] by {
      assert forall i :: 0 <= i < at ==> Plain(s[..at][i]);
    }
    IndexOfFirst(s, '@', at);
    var d := s[at + 1..];
    assert AllPlain(d) by {
      forall i | 0 <= i < |d| ensures Plain(d[i]) {
        if i < dot - at - 1 {
          assert d[i] == s[at + 1..dot][i];
        } else if i > dot - at - 1 {
          assert d[i] == s[dot + 1..][i - (dot - at)];
        }
      }
    }
    assert d[1..|d| - 1][dot - at - 2] == '.';
  }

  /** The check accepts exactly the strings the regular expression matches. */
  lemma EmailCheckMatchesPattern(s: string)
    ensures IsValidEmail(s) <==> MatchesEmailPattern(s)
  {
    if IsValidEmail(s) {
      EmailCheckSound(s);
    }
    if MatchesEmailPattern(s) {
      EmailCheckComplete(s);
    }
  }

  // ---------------------------------------------------------------------
  // validateForm
  // ---------------------------------------------------------------------

  function NameError(name: string): (e: Option<string>)
    ensures e.Some? ==> e.value == NameRequired
  {
    if IsBlank(name) then Some(NameRequired) else None
  }

  function EmailError(email: string): (e: Option<string>)
    ensures e.Some? ==> e.value == EmailRequired || e.value == EmailInvalid
  {
    if IsBlank(email) then Some(EmailRequired)
    else if !IsValidEmail(email) then Some(EmailInvalid)
    else None
  }

  function MessageError(message: string): (e: Option<string>)
    ensures e.Some? ==> e.value == MessageRequired || e.value == MessageTooShort
  {
    if IsBlank(message) then Some(MessageRequired)
    else if Utf16Length(Trim(message)) < MinMessageLength then Some(MessageTooShort)
    else None
  }

  /** Records an error under `key` when there is one. */
  function WithEntry(m: map<string, string>, key: string, e: Option<string>): map<string, string> {
    if e.Some? then m[key := e.value] else m
  }

  /** The error dictionary validateForm builds for `f`. */
  function FormErrors(f: FormData): (m: map<string, string>)
    ensures m.Keys <= {"name", "email", "message"}
  {
    var m1 := WithEntry(map[], "name", NameError(f.name));
    var m2 := WithEntry(m1, "email", EmailError(f.email));
    WithEntry(m2, "message", MessageError(f.message))
  }

  /** A name is rejected, with exactly "Name is required", iff it is all
      white space. */
  lemma NameErrorSpec(name: string)
    ensures NameError(name) == (if AllWhitespace(name) then Some(NameRequired) else None)
  {
  }

  /** An e-mail gets no error iff it matches the pattern; it gets the
      "required" error iff it is all white space; otherwise the "invalid" one. */
  lemma EmailErrorSpec(email: string)
    ensures EmailError(email) == None <==> MatchesEmailPattern(email)
    ensures EmailError(email) == Some(EmailRequired) <==> AllWhitespace(email)
    ensures EmailError(email) == Some(EmailInvalid) <==> !AllWhitespace(email) && !MatchesEmailPattern(email)
  {
    EmailCheckMatchesPattern(email);
    if MatchesEmailPattern(email) {
      var at, dot :| EmailSplit(email, at, dot);
      assert email[..at][0] == email[0];
    }
  }

  /** A message is accepted iff its trimmed length is at least 10; the
      "required" and the "too short" errors exclude each other. */
  lemma MessageErrorSpec(message: string)
    ensures MessageError(message) == None <==> Utf16Length(Trim(message)) >= MinMessageLength
    ensures MessageError(message) == Some(MessageRequired) <==> AllWhitespace(message)
    ensures MessageError(message) == Some(MessageTooShort)
            <==> !AllWhitespace(message) && Utf16Length(Trim(message)) < MinMessageLength
  {
  }

  /** Each key of the dictionary is present exactly when its field has an
      error, and holds that field's message. */
  lemma FormErrorsEntries(f: FormData)
    ensures "name" in FormErrors(f) <==> NameError(f.name).Some?
    ensures "email" in FormErrors(f) <==> EmailError(f.email).Some?
    ensures "message" in FormErrors(f) <==> MessageError(f.message).Some?
    ensures "name" in FormErrors(f) ==> FormErrors(f)["name"] == NameError(f.name).value
    ensures "email" in FormErrors(f) ==> FormErrors(f)["email"] == EmailError(f.email).value
    ensures "message" in FormErrors(f) ==> FormErrors(f)["message"] == MessageError(f.message).value
  {
  }

  /** The form is valid (no error recorded) iff the name has a non-blank
      character, the e-mail matches the pattern and the trimmed message has
      at least 10 code units. */
  lemma FormValidIff(f: FormData)
    ensures FormErrors(f) == map[]
            <==> !AllWhitespace(f.name) && MatchesEmailPattern(f.email)
                 && Utf16Length(Trim(f.message)) >= MinMessageLength
  {
    FormErrorsEntries(f);
    EmailErrorSpec(f.email);
    MessageErrorSpec(f.message);
    if FormErrors(f) != map[] {
      var k :| k in FormErrors(f);
    }
  }

  /** The cleared form fails with all three "required" errors. */
  lemma EmptyFormErrors()
    ensures FormErrors(EmptyForm)
            == map["name" := NameRequired, "email" := EmailRequired, "message" := MessageRequired]
  {
  }

  /** validateForm: fills the error dictionary field by field and reports
      whether it stayed empty. */
  method ValidateForm(form: FormData) returns (newErrors: map<string, string>, valid: bool)
    ensures newErrors == FormErrors(form)
    ensures valid <==> |newErrors| == 0
  {
    newErrors := map[];
    if IsBlank(form.name) {
      newErrors := newErrors["name" := NameRequired];
    }
    ghost var afterName := newErrors;
    assert afterName == WithEntry(map[], "name", NameError(form.name));
    if IsBlank(form.email) {
      newErrors := newErrors["email" := EmailRequired];
      assert EmailError(form.email) == Some(EmailRequired);
    } else if !IsValidEmail(form.email) {
      newErrors := newErrors["email" := EmailInvalid];
      assert EmailError(form.email) == Some(EmailInvalid);
    } else {
      assert EmailError(form.email) == None;
    }
    ghost var afterEmail := newErrors;
    assert afterEmail == WithEntry(afterName, "email", EmailError(form.email));
    if IsBlank(form.message) {
      newErrors := newErrors["message" := MessageRequired];
      assert MessageError(form.message) == Some(MessageRequired);
    } else if Utf16Length(Trim(form.message)) < MinMessageLength {
      newErrors := newErrors["message" := MessageTooShort];
      assert MessageError(form.message) == Some(MessageTooShort);
    } else {
      assert MessageError(form.message) == None;
    }
    assert newErrors == WithEntry(afterEmail, "message", MessageError(form.message));
    valid := |newErrors| == 0;
  }

  // ---------------------------------------------------------------------
  // The text forwarded to the relay endpoint
  // ---------------------------------------------------------------------

  /** The text of the message sent for `f`. */
  function SubmissionText(f: FormData): (t: string)
    ensures |t| == |f.name| + |f.email| + |f.message| + 24
    ensures t[..6] == "Name: " && t[|t| - |f.message|..] == f.message
  {
    "Name: " + f.name + "\nEmail: " + f.email + "\nMessage: " + f.message
  }

  /** `t` without the prefix `p`, if it starts with it. */
  function StripPrefix(p: string, t: string): (r: Option<string>)
    ensures r.Some? <==> |p| <= |t| && t[..|p|] == p
    ensures r.Some? ==> t == p + r.value
  {
    if |p| <= |t| && t[..|p|] == p then
      assert t == t[..|p|] + t[|p|..];
      Some(t[|p|..])
    else None
  }

  /** `t` cut at its first line break: the text before it and after it. */
  function SplitLine(t: string): (r: Option<(string, string)>)
    ensures r.Some? ==> '\n' !in r.value.0 && t == r.value.0 + "\n" + r.value.1
    ensures r.None? <==> '\n' !in t
  {
    match IndexOf(t, '\n')
    case None => None
    case Some(i) =>
      assert t == t[..i] + "\n" + t[i + 1..];
      Some((t[..i], t[i + 1..]))
  }

  /** Reads the three fields back from a submission text. */
  function ParseSubmission(t: string): Option<FormData> {
    match StripPrefix("Name: ", t)
    case None => None
    case Some(r1) =>
      match SplitLine(r1)
      case None => None
      case Some((name, r2)) =>
        match StripPrefix("Email: ", r2)
        case None => None
        case Some(r3) =>
          match SplitLine(r3)
          case None => None
          case Some((email, r4)) =>
            match StripPrefix("Message: ", r4)
            case None => None
            case Some(message) => Some(FormData(name, email, message))
  }

  /** Stripping a prefix from a string that starts with it. */
  lemma StripPrefixOf(p: string, x: string)
    ensures StripPrefix(p, p + x) == Some(x)
  {
    assert (p + x)[..|p|] == p;
  }

  /** Splitting `a + "\n" + b` at its first line break gives back `a` and
      `b` when `a` holds none. */
  lemma SplitLineOf(a: string, b: string)
    requires '\n' !in a
    ensures SplitLine(a + "\n" + b) == Some((a, b))
  {
    var t := a + "\n" + b;
    assert t[..|a|] == a;
    assert t[|a|] == '\n';
    IndexOfFirst(t, '\n', |a|);
    assert t[|a| + 1..] == b;
  }

  /** The submission text as the nesting the parser takes apart. */
  lemma SubmissionTextNested(f: FormData)
    ensures SubmissionText(f)
            == "Name: " + (f.name + "\n" + ("Email: " + (f.email + "\n" + ("Message: " + f.message))))
  {
    assert "\nEmail: " == "\n" + "Email: " && "\nMessage: " == "\n" + "Message: ";
  }

  /** When neither the name nor the e-mail holds a line break, the
      submission text determines the three fields. */
  lemma SubmissionRoundTrip(f: FormData)
    requires '\n' !in f.name && '\n' !in f.email
    ensures ParseSubmission(SubmissionText(f)) == Some(f)
  {
    var r4 := "Message: " + f.message;
    var r3 := f.email + "\n" + r4;
    var r2 := "Email: " + r3;
    var r1 := f.name + "\n" + r2;
    SubmissionTextNested(f);
    StripPrefixOf("Name: ", r1);
    SplitLineOf(f.name, r2);
    StripPrefixOf("Email: ", r3);
    SplitLineOf(f.email, r4);
    StripPrefixOf("Message: ", f.message);
  }

  /** Whatever parses was produced by SubmissionText from the parsed fields. */
  lemma ParseSubmissionSound(t: string)
    requires ParseSubmission(t).Some?
    ensures SubmissionText(ParseSubmission(t).value) == t
    ensures '\n' !in ParseSubmission(t).value.name && '\n' !in ParseSubmission(t).value.email
  {
    var r1 := StripPrefix("Name: ", t).value;
    var (name, r2) := SplitLine(r1).value;
    var r3 := StripPrefix("Email: ", r2).value;
    var (email, r4) := SplitLine(r3).value;
    var message := StripPrefix("Message: ", r4).value;
    assert r4 == "Message: " + message;
    assert r3 == email + "\n" + r4;
    assert r2 == "Email: " + r3;
    assert r1 == name + "\n" + r2;
    assert t == "Name: " + r1;
    assert ParseSubmission(t).value == FormData(name, email, message);
    SubmissionTextNested(FormData(name, email, message));
  }

  // ---------------------------------------------------------------------
  // The floating label
  // ---------------------------------------------------------------------

  /** The label sits small at the top while the field has focus or text. */
  function ShouldFloat(isFocused: bool, value: string): (r: bool)
    ensures r <==> isFocused || value != ""
  {
    isFocused || Utf16Length(value) > 0
  }

  /** The focus state of one floating-label input or text area. */
  class FloatingLabelField {
    var isFocused: bool

    constructor ()
      ensures !isFocused
    {
      isFocused := false;
    }

    function Floats(value: string): (r: bool)
      reads this
      ensures r <==> isFocused || value != ""
    {
      ShouldFloat(isFocused, value)
    }

    method Focus()
      modifies this
      ensures isFocused
    {
      isFocused := true;
    }

    method Blur()
      modifies this
      ensures !isFocused
    {
      isFocused := false;
    }
  }

  // ---------------------------------------------------------------------
  // handleSubmit
  // ---------------------------------------------------------------------

  datatype SubmitStatus = Idle | Success | Failed

  /** How the request ended: an OK response, any other response, or an
      exception (a network fault). */
  datatype Response = OkResponse | NotOkResponse | Thrown

  datatype ContactState = ContactState(
    form: FormData,
    errors: map<string, string>,
    isSubmitting: bool,
    status: SubmitStatus)

  const InitialContact := ContactState(EmptyForm, map[], false, Idle)

  /** The synchronous part of handleSubmit: the errors are replaced by the
      validation result; a valid form yields the text to send and enters the
      submitting state, an invalid one sends nothing and changes nothing else. */
  function BeginSubmit(s: ContactState): (r: (ContactState, Option<string>))
    ensures r.0.errors == FormErrors(s.form) && r.0.form == s.form
    ensures r.1.None? <==> !(!AllWhitespace(s.form.name) && MatchesEmailPattern(s.form.email)
                              && Utf16Length(Trim(s.form.message)) >= MinMessageLength)
    ensures r.1.None? ==> r.0 == s.(errors := FormErrors(s.form))
    ensures r.1.Some? ==> r.0.isSubmitting && r.0.status == Idle && r.0.errors == map[]
    ensures r.1.Some? ==> r.1.value == SubmissionText(s.form)
  {
    FormValidIff(s.form);
    var errors := FormErrors(s.form);
    if |errors| != 0 then
      (s.(errors := errors), None)
    else
      (s.(errors := errors, isSubmitting := true, status := Idle), Some(SubmissionText(s.form)))
  }

  /** The asynchronous end of handleSubmit, once the request settled. */
  function FinishSubmit(s: ContactState, response: Response): (r: ContactState)
    ensures !r.isSubmitting
    ensures response == OkResponse ==> r.form == EmptyForm && r.errors == map[] && r.status == Success
    ensures response == Thrown ==> r.status == Failed && r.form == s.form && r.errors == s.errors
    ensures response == NotOkResponse ==> r == s.(isSubmitting := false)
  {
    match response
    case OkResponse => ContactState(EmptyForm, map[], false, Success)
    case NotOkResponse => s.(isSubmitting := false)
    case Thrown => s.(isSubmitting := false, status := Failed)
  }

  /** One whole submission. Invalid input sends nothing and only replaces
      the errors. Otherwise the status ends Success on an OK response (the
      form cleared), stays Idle on any other response and becomes Failed on
      an exception; in every case the submission ends not submitting and
      with no errors recorded. */
  lemma SubmitOutcomes(s: ContactState, response: Response)
    ensures var (b, request) := BeginSubmit(s);
            request.None? ==> b.isSubmitting == s.isSubmitting && b.status == s.status && b.form == s.form
    ensures var (b, request) := BeginSubmit(s);
            request.Some? ==>
              var e := FinishSubmit(b, response);
              && !e.isSubmitting && e.errors == map[]
              && e.status == (match response
                              case OkResponse => Success
                              case NotOkResponse => Idle
                              case Thrown => Failed)
              && e.form == (if response == OkResponse then EmptyForm else s.form)
  {
  }

  /** The component's state, updated in place as React's setters do. */
  class ContactSection {
    var formData: FormData
    var errors: map<string, string>
    var isSubmitting: bool
    var submitStatus: SubmitStatus

    function State(): ContactState
      reads this
    {
      ContactState(formData, errors, isSubmitting, submitStatus)
    }

    constructor ()
      ensures State() == InitialContact
    {
      formData := EmptyForm;
      errors := map[];
      isSubmitting := false;
      submitStatus := Idle;
    }

    method UpdateName(value: string)
      modifies this
      ensures formData == old(formData).(name := value)
      ensures errors == old(errors) && isSubmitting == old(isSubmitting) && submitStatus == old(submitStatus)
    {
      formData := formData.(name := value);
    }

    method UpdateEmail(value: string)
      modifies this
      ensures formData == old(formData).(email := value)
      ensures errors == old(errors) && isSubmitting == old(isSubmitting) && submitStatus == old(submitStatus)
    {
      formData := formData.(email := value);
    }

    method UpdateMessage(value: string)
      modifies this
      ensures formData == old(formData).(message := value)
      ensures errors == old(errors) && isSubmitting == old(isSubmitting) && submitStatus == old(submitStatus)
    {
      formData := formData.(message := value);
    }

    /** handleSubmit up to the request: returns the text to send, or None
      when validation failed and no request is made. */
    method HandleSubmit() returns (request: Option<string>)
      modifies this
      ensures (State(), request) == BeginSubmit(old(State()))
    {
      var newErrors, valid := ValidateForm(formData);
      errors := newErrors;
      if !valid {
        return None;
      }
      isSubmitting := true;
      submitStatus := Idle;
      request := Some(SubmissionText(formData));
    }

    /** handleSubmit after the request settled (its try/catch/finally). */
    method CompleteSubmit(response: Response)
      modifies this
      ensures State() == FinishSubmit(old(State()), response)
    {
      if response == OkResponse {
        submitStatus := Success;
        formData := EmptyForm;
        errors := map[];
      } else if response == Thrown {
        submitStatus := Failed;
      }
      isSubmitting := false;
    }
  }
}
