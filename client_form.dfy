/**
 * The client form: its seven editable fields, the per-field error record,
 * the three validation rules, the submit gate, the field-change handler and
 * the reset that runs when the form opens.
 */
module ClientForm {
  import opened Wrappers
  import opened Types

  /** The characters a regular expression's `\s` matches, which are also the ones `trim` removes. */
  predicate IsWhitespace(ch: char) {
    || ch == '\t' || ch == '\n' || ch == '\U{B}' || ch == '\U{C}' || ch == '\r' || ch == ' '
    || ch == '\U{A0}' || ch == '\U{1680}' || ('\U{2000}' <= ch <= '\U{200A}')
    || ch == '\U{2028}' || ch == '\U{2029}' || ch == '\U{202F}' || ch == '\U{205F}'
    || ch == '\U{3000}' || ch == '\U{FEFF}'
  }

  ghost predicate AllWhitespace(s: string) {
    forall i :: 0 <= i < |s| ==> IsWhitespace(s[i])
  }

  /** Drops leading whitespace. */
  function TrimStart(s: string): (r: string)
    ensures |r| <= |s| && r == s[|s| - |r|..]
    ensures forall i :: 0 <= i < |s| - |r| ==> IsWhitespace(s[i])
    ensures r != [] ==> !IsWhitespace(r[0])
  {
    if s != [] && IsWhitespace(s[0]) then TrimStart(s[1..]) else s
  }

  /** Drops trailing whitespace. */
  function TrimEnd(s: string): (r: string)
    ensures |r| <= |s| && r == s[..|r|]
    ensures forall i :: |r| <= i < |s| ==> IsWhitespace(s[i])
    ensures r != [] ==> !IsWhitespace(r[|r| - 1])
  {
    if s != [] && IsWhitespace(s[|s| - 1]) then TrimEnd(s[..|s| - 1]) else s
  }

  /** `String.prototype.trim`. */
  function Trim(s: string): string {
    TrimEnd(TrimStart(s))
  }

  lemma {:induction false} TrimStartOfBlank(s: string)
    requires AllWhitespace(s)
    ensures TrimStart(s) == ""
  {
    if s != [] {
      TrimStartOfBlank(s[1..]);
    }
  }

  /** A string trims to nothing exactly when it is all whitespace. */
  lemma TrimEmptyIffBlank(s: string)
    ensures Trim(s) == "" <==> AllWhitespace(s)
  {
    if AllWhitespace(s) {
      TrimStartOfBlank(s);
    }
  }

  /** The position of the first `ch` in `s`, or `|s|` when there is none. */
  function IndexOf(s: string, ch: char): (r: nat)
    ensures r <= |s|
    ensures ch !in s[..r]
    ensures r < |s| ==> s[r] == ch
  {
    if s == [] || s[0] == ch then 0 else 1 + IndexOf(s[1..], ch)
  }

  /** The first occurrence is the one with no earlier occurrence. */
  lemma {:induction false} IndexOfFirst(s: string, ch: char, i: nat)
    requires i < |s| && s[i] == ch && ch !in s[..i]
    ensures IndexOf(s, ch) == i
  {
    if i > 0 {
      assert s[0] in s[..i];
      assert s[1..][..i - 1] == s[1..i];
      assert forall x :: x in s[1..i] ==> x in s[..i];
      IndexOfFirst(s[1..], ch, i - 1);
    }
  }

  /** A character that a `[^\s@]` class accepts. */
  predicate IsPlain(ch: char) {
    !IsWhitespace(ch) && ch != '@'
  }

  ghost predicate PlainRun(t: string) {
    forall k :: 0 <= k < |t| ==> IsPlain(t[k])
  }

  /** The email pattern `^[^\s@]+@[^\s@]+\.[^\s@]+$`: three non-empty plain runs around an `@` and a `.`. */
  ghost predicate MatchesEmailPattern(s: string) {
    exists i, j :: 0 < i && i + 1 < j && j + 1 < |s| && s[i] == '@' && s[j] == '.' &&
                   PlainRun(s[..i]) && PlainRun(s[i + 1..j]) && PlainRun(s[j + 1..])
  }

  /** A `.` that is neither first nor last. */
  predicate HasInnerDot(d: string) {
    exists k :: 0 < k < |d| - 1 && d[k] == '.'
  }

  /**
   * The email shape as checkable rules: no whitespace, a non-empty local part
   * before the first `@`, no further `@`, and a domain with an inner `.`.
   */
  predicate IsEmailShape(s: string) {
    && (forall k :: 0 <= k < |s| ==> !IsWhitespace(s[k]))
    && var at := IndexOf(s, '@');
       && 0 < at < |s|
       && '@' !in s[at + 1..]
       && HasInnerDot(s[at + 1..])
  }

  /** Part of `s` from `lo` to `hi` is plain when every character there is. */
  lemma PlainSlice(s: string, lo: int, hi: int)
    requires 0 <= lo <= hi <= |s|
    requires forall m :: lo <= m < hi ==> IsPlain(s[m])
    ensures PlainRun(s[lo..hi])
  {
    var t := s[lo..hi];
    forall k | 0 <= k < |t| ensures IsPlain(t[k]) {
      assert t[k] == s[lo + k];
    }
  }

  lemma EmailShapeMatches(s: string)
    requires IsEmailShape(s)
    ensures MatchesEmailPattern(s)
  {
    var at := IndexOf(s, '@');
    var d := s[at + 1..];
    var k :| 0 < k < |d| - 1 && d[k] == '.';
    var j := at + 1 + k;
    assert s[j] == d[k];
    forall m | 0 <= m < |s| && m != at ensures IsPlain(s[m]) {
      if m < at {
        assert s[..at][m] == s[m];
      } else {
        assert d[m - at - 1] == s[m];
      }
    }
    PlainSlice(s, 0, at);
    assert s[..at] == s[0..at];
    PlainSlice(s, at + 1, j);
    PlainSlice(s, j + 1, |s|);
    assert s[j + 1..] == s[j + 1..|s|];
  }

  /** The pattern's three runs make a string no character of which is whitespace. */
  lemma RunsHaveNoWhitespace(s: string, i: int, j: int)
    requires 0 < i && i + 1 < j && j + 1 < |s| && s[i] == '@' && s[j] == '.'
    requires PlainRun(s[..i]) && PlainRun(s[i + 1..j]) && PlainRun(s[j + 1..])
    ensures forall m :: 0 <= m < |s| ==> !IsWhitespace(s[m])
  {
    forall m | 0 <= m < |s| ensures !IsWhitespace(s[m]) {
      if m < i {
        assert s[m] == s[..i][m];
      } else if i < m < j {
        assert s[m] == s[i + 1..j][m - i - 1];
      } else if j < m {
        assert s[m] == s[j + 1..][m - j - 1];
      }
    }
  }

  /** After the pattern's `@` the rest is a plain run, a `.`, and a plain run. */
  lemma DomainOfRuns(s: string, i: int, j: int)
    requires 0 < i && i + 1 < j && j + 1 < |s| && s[i] == '@' && s[j] == '.'
    requires PlainRun(s[i + 1..j]) && PlainRun(s[j + 1..])
    ensures '@' !in s[i + 1..] && HasInnerDot(s[i + 1..])
  {
    var d := s[i + 1..];
    forall m | 0 <= m < |d| ensures d[m] != '@' {
      if m < j - i - 1 {
        assert d[m] == s[i + 1..j][m];
      } else if m > j - i - 1 {
        assert d[m] == s[j + 1..][m - (j - i)];
      }
    }
    assert d[j - i - 1] == '.';
  }

  lemma PatternMatchesShape(s: string)
    requires MatchesEmailPattern(s)
    ensures IsEmailShape(s)
  {
    var i, j :| 0 < i && i + 1 < j && j + 1 < |s| && s[i] == '@' && s[j] == '.' &&
                PlainRun(s[..i]) && PlainRun(s[i + 1..j]) && PlainRun(s[j + 1..]);
    RunsHaveNoWhitespace(s, i, j);
    assert '@' !in s[..i] by {
      forall m | 0 <= m < i ensures s[..i][m] != '@' {
        assert IsPlain(s[..i][m]);
      }
    }
    IndexOfFirst(s, '@', i);
    DomainOfRuns(s, i, j);
  }

  /** The rules accept exactly the strings the pattern matches. */
  lemma EmailShapeIsPattern(s: string)
    ensures IsEmailShape(s) <==> MatchesEmailPattern(s)
  {
    if IsEmailShape(s) {
      EmailShapeMatches(s);
    }
    if MatchesEmailPattern(s) {
      PatternMatchesShape(s);
    }
  }

  /** An accepted address has exactly one `@`. */
  lemma EmailShapeHasOneAt(s: string)
    requires IsEmailShape(s)
    ensures multiset(s)['@'] == 1
  {
    var at := IndexOf(s, '@');
    assert s == s[..at] + [s[at]] + s[at + 1..];
    assert multiset(s) == multiset(s[..at]) + multiset{s[at]} + multiset(s[at + 1..]);
  }

  /** `split('T')[0]`: the text before the first `T`, all of it when there is none. */
  function DatePart(iso: string): (date: string)
    ensures |date| <= |iso| && date == iso[..|date|]
    ensures 'T' !in date
    ensures |date| < |iso| ==> iso[|date|] == 'T'
  {
    iso[..IndexOf(iso, 'T')]
  }

  /** The form's fields; the last contact is the text of a date input. */
  datatype FormData = FormData(
    name: string,
    phone: string,
    email: string,
    product: string,
    status: ClientStatus,
    notes: string,
    lastContact: string)

  datatype FormField = Name | Phone | Email | Product | Status | Notes | LastContact

  /** The value of one field as the inputs show it; the status as its key. */
  function FieldText(d: FormData, f: FormField): string {
    match f
    case Name => d.name
    case Phone => d.phone
    case Email => d.email
    case Product => d.product
    case Status => StatusKey(d.status)
    case Notes => d.notes
    case LastContact => d.lastContact
  }

  /** The fields, read as text, determine the whole form. */
  lemma FieldTextDeterminesForm(d1: FormData, d2: FormData)
    requires forall f :: FieldText(d1, f) == FieldText(d2, f)
    ensures d1 == d2
  {
    assert FieldText(d1, Status) == FieldText(d2, Status);
    assert ParseStatus(StatusKey(d1.status)) == Some(d1.status);
    assert FieldText(d1, Name) == FieldText(d2, Name);
    assert FieldText(d1, Phone) == FieldText(d2, Phone);
    assert FieldText(d1, Email) == FieldText(d2, Email);
    assert FieldText(d1, Product) == FieldText(d2, Product);
    assert FieldText(d1, Notes) == FieldText(d2, Notes);
    assert FieldText(d1, LastContact) == FieldText(d2, LastContact);
  }

  /** `{ ...prev, [field]: value }`: the status selector only ever sends a status key. */
  function WithField(d: FormData, f: FormField, v: string): (r: FormData)
    requires f == Status ==> ParseStatus(v).Some?
    ensures FieldText(r, f) == v
    ensures forall g :: g != f ==> FieldText(r, g) == FieldText(d, g)
  {
    match f
    case Name => d.(name := v)
    case Phone => d.(phone := v)
    case Email => d.(email := v)
    case Product => d.(product := v)
    case Status => d.(status := ParseStatus(v).value)
    case Notes => d.(notes := v)
    case LastContact => d.(lastContact := v)
  }

  const NameRequired: string := "Nome é obrigatório"
  const EmailInvalid: string := "E-mail inválido"
  const LastContactRequired: string := "Data do último contato é obrigatória"

  /** An error message is shown for the field: it is recorded and not blank. */
  predicate ErrorShown(errs: map<FormField, string>, f: FormField) {
    f in errs && errs[f] != ""
  }

  /** The error update of a field change: a shown error is blanked, nothing else moves. */
  function ClearError(errs: map<FormField, string>, f: FormField): (r: map<FormField, string>)
    ensures !ErrorShown(r, f)
    ensures r.Keys == errs.Keys
    ensures forall g :: g in errs && g != f ==> r[g] == errs[g]
  {
    if ErrorShown(errs, f) then errs[f := ""] else errs
  }

  /** The three rules of the form. */
  ghost predicate IsValid(d: FormData) {
    && !AllWhitespace(d.name)
    && (d.email == "" || MatchesEmailPattern(d.email))
    && d.lastContact != ""
  }

  /** `errs` has an entry, with its message, for each rule `d` breaks and for no other field. */
  ghost predicate ReportsExactly(errs: map<FormField, string>, d: FormData) {
    && errs.Keys <= {Name, Email, LastContact}
    && (Name in errs <==> AllWhitespace(d.name))
    && (Email in errs <==> d.email != "" && !MatchesEmailPattern(d.email))
    && (LastContact in errs <==> d.lastContact == "")
    && (Name in errs ==> errs[Name] == NameRequired)
    && (Email in errs ==> errs[Email] == EmailInvalid)
    && (LastContact in errs ==> errs[LastContact] == LastContactRequired)
  }

  /** `validateForm`'s `newErrors`: filled one rule at a time; empty exactly when the data is valid. */
  method CollectErrors(d: FormData) returns (errs: map<FormField, string>)
    ensures ReportsExactly(errs, d)
    ensures |errs| == 0 <==> IsValid(d)
  {
    TrimEmptyIffBlank(d.name);
    EmailShapeIsPattern(d.email);
    errs := map[];
    if Trim(d.name) == "" {
      errs := errs[Name := NameRequired];
    }
    if d.email != "" && !IsEmailShape(d.email) {
      errs := errs[Email := EmailInvalid];
    }
    if d.lastContact == "" {
      errs := errs[LastContact := LastContactRequired];
    }
    assert |errs| == 0 <==> errs == map[] by {
      if |errs| == 0 {
        assert errs.Keys == {};
      }
    }
  }

  /** A bad address is refused before it can reach the store. */
  lemma BadEmailRejected(d: FormData)
    requires d.email == "bad-email"
    ensures !IsValid(d)
  {
    EmailShapeIsPattern(d.email);
    assert IndexOf(d.email, '@') == |d.email|;
  }

  /** A well-formed address passes. */
  lemma WellFormedEmailAccepted()
    ensures MatchesEmailPattern("ana@loja.com")
  {
    var s := "ana@loja.com";
    assert s[..3] == "ana" && s[4..8] == "loja" && s[9..] == "com";
    assert PlainRun("ana") && PlainRun("loja") && PlainRun("com");
    assert s[3] == '@' && s[8] == '.';
  }

  /** The empty form for a new client, dated `date`. */
  function EmptyForm(date: string): FormData {
    FormData("", "", "", "", Novo, "", date)
  }

  /** The form for editing `c`, with its last contact shown as `date`. */
  function Prefilled(c: Client, date: string): FormData {
    FormData(c.name, c.phone, c.email, c.product, c.status, c.notes, date)
  }

  /** What `onSubmit` receives: the form's fields, the last contact as the instant `lastContact` stands for. */
  function Submission(d: FormData, lastContact: Millis): ClientData {
    ClientData(d.name, d.phone, d.email, d.product, d.status, d.notes, lastContact)
  }

  /**
   * Saving an untouched edit form hands back the client's six other fields;
   * the last contact becomes whatever instant the entered date converts to.
   */
  lemma PrefillRoundTrip(c: Client, date: string, lastContact: Millis)
    ensures Submission(Prefilled(c, date), lastContact) == DataOf(c).(lastContact := lastContact)
  {
  }

  /** A new-client form cannot be submitted until a name is typed. */
  lemma EmptyFormNeedsName(date: string)
    ensures !IsValid(EmptyForm(date))
  {
  }

  /** The form component's state: the field values and the error messages. */
  class Form {
    var formData: FormData
    var errors: map<FormField, string>

    /** The initial state: an empty form dated by the ISO text of the current instant. */
    constructor (nowIso: string)
      ensures formData == EmptyForm(DatePart(nowIso))
      ensures errors == map[]
    {
      formData := EmptyForm(DatePart(nowIso));
      errors := map[];
    }

    /**
     * The effect run when the edited client or the open flag changes.
     * `iso` is the ISO-8601 text of the client's last contact when editing,
     * and of the current instant when adding.
     */
    method Reset(client: Option<Client>, iso: string)
      modifies this
      ensures errors == map[]
      ensures formData == match client
                          case Some(c) => Prefilled(c, DatePart(iso))
                          case None => EmptyForm(DatePart(iso))
    {
      if client.Some? {
        formData := Prefilled(client.value, DatePart(iso));
      } else {
        formData := EmptyForm(DatePart(iso));
      }
      errors := map[];
    }

    /** `validateForm`: records the errors and reports whether there were none. */
    method ValidateForm() returns (valid: bool)
      modifies this`errors
      ensures ReportsExactly(errors, formData)
      ensures valid <==> IsValid(formData)
    {
      var newErrors := CollectErrors(formData);
      errors := newErrors;
      valid := |newErrors| == 0;
    }

    /**
     * `handleSubmit`: the data handed to `onSubmit` when the form is valid,
     * nothing otherwise. `lastContact` is the instant local noon of the
     * entered date denotes.
     */
    method HandleSubmit(lastContact: Millis) returns (submitted: Option<ClientData>)
      modifies this`errors
      ensures ReportsExactly(errors, formData)
      ensures submitted.Some? <==> IsValid(formData)
      ensures submitted.Some? ==> submitted.value == Submission(formData, lastContact)
    {
      var valid := ValidateForm();
      if !valid {
        return None;
      }
      submitted := Some(Submission(formData, lastContact));
    }

    /** `handleChange`: sets one field and blanks that field's error if one is shown. */
    method HandleChange(field: FormField, value: string)
      requires field == Status ==> ParseStatus(value).Some?
      modifies this
      ensures formData == WithField(old(formData), field, value)
      ensures errors == ClearError(old(errors), field)
    {
      formData := WithField(formData, field, value);
      if ErrorShown(errors, field) {
        errors := errors[field := ""];
      }
    }
  }
}
