/**
 * The sign-up form (core/web/src/pages/Registro.tsx): the five password
 * criteria computed as the password is typed, and `validateForm`, which
 * checks each field in order and keeps the first message that applies.
 */
module Registro {
  import opened Wrappers
  import opened Text

  // ---------------------------------------------------------------------
  // Character classes of the form's regular expressions
  // ---------------------------------------------------------------------

  /** `[a-zA-ZáéíóúÁÉÍÓÚñÑ\s]`. */
  predicate NameChar(c: char) {
    IsLetter(c) || c in "áéíóúÁÉÍÓÚñÑ" || IsSpace(c)
  }

  /** `/^[a-zA-ZáéíóúÁÉÍÓÚñÑ\s]+$/`. */
  predicate LettersAndSpaces(s: string) {
    s != [] && forall i :: 0 <= i < |s| ==> NameChar(s[i])
  }

  /** `[a-zA-Z0-9._%+-]`. */
  predicate LocalChar(c: char) {
    IsAlnum(c) || c in "._%+-"
  }

  /** `[a-zA-Z0-9.-]`. */
  predicate DomainChar(c: char) {
    IsAlnum(c) || c == '.' || c == '-'
  }

  predicate AllOf(s: string, p: char -> bool) {
    forall i :: 0 <= i < |s| ==> p(s[i])
  }

  /** `(\.[a-zA-Z]{2,})+` matching all of `t`: one or more groups of a dot and two or more letters. */
  predicate TldGroups(t: string)
    decreases |t|
  {
    3 <= |t| && t[0] == '.' &&
    exists k :: 3 <= k <= |t| && AllOf(t[1..k], IsLetter) && (k == |t| || TldGroups(t[k..]))
  }

  /** `[a-zA-Z0-9.-]+(\.[a-zA-Z]{2,})+` matching all of `d`. */
  predicate DomainPart(d: string) {
    exists j :: 0 < j < |d| && AllOf(d[..j], DomainChar) && TldGroups(d[j..])
  }

  /** `/^[a-zA-Z0-9._%+-]+@[a-zA-Z0-9.-]+(\.[a-zA-Z]{2,})+$/`. */
  predicate EmailPattern(e: string) {
    exists i :: 0 < i < |e| && e[i] == '@' && AllOf(e[..i], LocalChar) && DomainPart(e[i + 1..])
  }

  /** An address the pattern accepts is non-empty and contains '@', so the two earlier checks pass it. */
  lemma PatternHasAt(e: string)
    requires EmailPattern(e)
    ensures e != "" && '@' in e
  {
    var i :| 0 < i < |e| && e[i] == '@' && AllOf(e[..i], LocalChar) && DomainPart(e[i + 1..]);
  }

  /** A single top-level group such as ".mx" or ".com" is a valid ending. */
  lemma OneGroup(t: string)
    requires 3 <= |t| && t[0] == '.' && AllOf(t[1..], IsLetter)
    ensures TldGroups(t)
  {
    assert t[1..|t|] == t[1..];
  }

  /** The pattern accepts `local@host.tld` with a non-empty local part and host name and a tld of two or more letters. */
  lemma SimpleAddress(local: string, host: string, tld: string)
    requires local != [] && AllOf(local, LocalChar)
    requires host != [] && AllOf(host, DomainChar)
    requires |tld| >= 2 && AllOf(tld, IsLetter)
    ensures EmailPattern(local + "@" + host + "." + tld)
  {
    var e := local + "@" + host + "." + tld;
    var i := |local|;
    var d := host + "." + tld;
    assert e[..i] == local;
    assert e[i] == '@';
    assert e[i + 1..] == d;
    assert d[..|host|] == host;
    var t := d[|host|..];
    assert t == "." + tld;
    assert t[1..] == tld;
    OneGroup(t);
    assert DomainPart(d);
  }

  /** An address the pattern accepts has exactly one '@': the one that ends the local part. */
  lemma PatternOneAt(e: string, m: nat, p: nat)
    requires 0 < m < |e| && e[m] == '@' && AllOf(e[..m], LocalChar) && DomainPart(e[m + 1..])
    requires p < |e| && e[p] == '@'
    ensures p == m
  {
    if p > m {
      var d := e[m + 1..];
      var j :| 0 < j < |d| && AllOf(d[..j], DomainChar) && TldGroups(d[j..]);
      assert d[p - m - 1] == e[p];
      NoAtInDomain(d, j, p - m - 1);
    }
  }

  lemma {:induction false} NoAtInTld(t: string, p: nat)
    requires TldGroups(t) && p < |t|
    ensures t[p] != '@'
    decreases |t|
  {
    var k :| 3 <= k <= |t| && AllOf(t[1..k], IsLetter) && (k == |t| || TldGroups(t[k..]));
    if p == 0 {
    } else if p < k {
      assert t[1..k][p - 1] == t[p];
    } else {
      NoAtInTld(t[k..], p - k);
    }
  }

  lemma NoAtInDomain(d: string, j: nat, p: nat)
    requires 0 < j < |d| && AllOf(d[..j], DomainChar) && TldGroups(d[j..]) && p < |d|
    ensures d[p] != '@'
  {
    if p < j {
      assert d[..j][p] == d[p];
    } else {
      NoAtInTld(d[j..], p - j);
    }
  }

  // ---------------------------------------------------------------------
  // Password criteria
  // ---------------------------------------------------------------------

  /** `[@$!%*?&]`. */
  predicate SpecialChar(c: char) {
    c in "@$!%*?&"
  }

  predicate HasChar(s: string, p: char -> bool) {
    exists i :: 0 <= i < |s| && p(s[i])
  }

  datatype Criteria = Criteria(length: bool, uppercase: bool, lowercase: bool, number: bool, specialChar: bool)

  /** The criteria state before any password was typed. */
  const NoCriteria: Criteria := Criteria(false, false, false, false, false)

  /** `handlePasswordChange`: the five criteria of the value just typed. */
  function PasswordCriteria(value: string): (c: Criteria)
    ensures c.length <==> |value| >= 8
    ensures c.uppercase <==> exists i :: 0 <= i < |value| && IsUpper(value[i])
    ensures c.lowercase <==> exists i :: 0 <= i < |value| && IsLower(value[i])
    ensures c.number <==> exists i :: 0 <= i < |value| && IsDigit(value[i])
    ensures c.specialChar <==> exists i :: 0 <= i < |value| && SpecialChar(value[i])
  {
    Criteria(|value| >= 8, HasChar(value, IsUpper), HasChar(value, IsLower),
             HasChar(value, IsDigit), HasChar(value, SpecialChar))
  }

  predicate AllMet(c: Criteria) {
    c.length && c.uppercase && c.lowercase && c.number && c.specialChar
  }

  /** A password of eight characters with one of each kind meets all five criteria. */
  lemma StrongPassword(value: string)
    requires |value| >= 8 && IsUpper(value[0]) && IsLower(value[1]) && IsDigit(value[2]) && SpecialChar(value[3])
    ensures AllMet(PasswordCriteria(value))
  {
  }

  /** A password shorter than eight characters never passes, whatever it contains. */
  lemma ShortPasswordFails(value: string)
    requires |value| < 8
    ensures !AllMet(PasswordCriteria(value))
  {
  }

  // ---------------------------------------------------------------------
  // validateForm
  // ---------------------------------------------------------------------

  datatype FormData = FormData(name: string, lastName: string, email: string, phone: string,
                               position: string, password: string, confirmPassword: string)

  /** The messages `validateForm` can record. */
  datatype Message =
    | NameRequired | NameLetters | LastNameRequired | LastNameLetters
    | EmailRequired | EmailNoAt | EmailFormat | PhoneRequired | PhoneDigits
    | PositionRequired | PositionLetters | PasswordRequired | PasswordWeak
    | ConfirmRequired | ConfirmMismatch

  /** The text shown for each message. */
  function MessageText(m: Message): string {
    match m
    case NameRequired => "El nombre es requerido"
    case NameLetters => "El nombre solo puede contener letras y espacios"
    case LastNameRequired => "El apellido es requerido"
    case LastNameLetters => "El apellido solo puede contener letras y espacios"
    case EmailRequired => "El correo es requerido"
    case EmailNoAt => "El correo debe contener @"
    case EmailFormat => "El correo no tiene un formato válido"
    case PhoneRequired => "El número telefónico es requerido"
    case PhoneDigits => "El número telefónico debe contener solo dígitos"
    case PositionRequired => "El puesto o cargo es requerido"
    case PositionLetters => "El puesto o cargo solo puede contener letras y espacios"
    case PasswordRequired => "La contraseña es requerida"
    case PasswordWeak => "Debe cumplir con todos los requisitos"
    case ConfirmRequired => "Por favor confirma tu contraseña"
    case ConfirmMismatch => "Las contraseñas no coinciden"
  }

  /** The errors object: the message of each field, `None` where the page keeps "". */
  datatype Errors = Errors(name: Option<Message>, lastName: Option<Message>, email: Option<Message>,
                           phone: Option<Message>, position: Option<Message>, password: Option<Message>,
                           confirmPassword: Option<Message>)

  const NoErrors: Errors := Errors(None, None, None, None, None, None, None)

  /** What a name-like field must be: non-blank, letters and white space only. */
  predicate NameOk(s: string) {
    !Blank(s) && LettersAndSpaces(s)
  }

  /** The first message that applies to a name-like field, none when it passes. */
  function NameError(s: string, required: Message, lettersOnly: Message): (m: Option<Message>)
    ensures m.None? <==> NameOk(s)
    ensures Blank(s) ==> m == Some(required)
    ensures !Blank(s) && !LettersAndSpaces(s) ==> m == Some(lettersOnly)
  {
    if Trim(s) == "" then Some(required)
    else if !LettersAndSpaces(s) then Some(lettersOnly)
    else None
  }

  /** The first message that applies to the email: present, then '@', then the pattern. */
  function EmailError(e: string): (m: Option<Message>)
    ensures e == "" ==> m == Some(EmailRequired)
    ensures e != "" && '@' !in e ==> m == Some(EmailNoAt)
    ensures '@' in e && !EmailPattern(e) ==> m == Some(EmailFormat)
    ensures m.None? <==> EmailPattern(e)
  {
    if EmailPattern(e) then PatternHasAt(e); None
    else if e == "" then Some(EmailRequired)
    else if '@' !in e then Some(EmailNoAt)
    else Some(EmailFormat)
  }

  function PhoneError(phone: string): (m: Option<Message>)
    ensures m.None? <==> IsNumeral(phone)
    ensures phone == "" ==> m == Some(PhoneRequired)
    ensures phone != "" && !IsNumeral(phone) ==> m == Some(PhoneDigits)
  {
    if phone == "" then Some(PhoneRequired)
    else if !IsNumeral(phone) then Some(PhoneDigits)
    else None
  }

  function PasswordError(password: string, criteria: Criteria): (m: Option<Message>)
    ensures m.None? <==> password != "" && AllMet(criteria)
    ensures password == "" ==> m == Some(PasswordRequired)
  {
    if password == "" then Some(PasswordRequired)
    else if !AllMet(criteria) then Some(PasswordWeak)
    else None
  }

  function ConfirmError(password: string, confirm: string): (m: Option<Message>)
    ensures m.None? <==> confirm != "" && confirm == password
    ensures confirm == "" ==> m == Some(ConfirmRequired)
  {
    if confirm == "" then Some(ConfirmRequired)
    else if password != confirm then Some(ConfirmMismatch)
    else None
  }

  /** Every field's message, in the order `validateForm` tries them. */
  function FormErrors(f: FormData, criteria: Criteria): Errors {
    Errors(NameError(f.name, NameRequired, NameLetters),
           NameError(f.lastName, LastNameRequired, LastNameLetters),
           EmailError(f.email),
           PhoneError(f.phone),
           NameError(f.position, PositionRequired, PositionLetters),
           PasswordError(f.password, criteria),
           ConfirmError(f.password, f.confirmPassword))
  }

  /**
   * `validateForm`: every field gets the first of its messages that applies
   * (none when it passes), and the flag is cleared by every failing field, so
   * the form is valid exactly when every field passes. The password is judged
   * by the criteria of its last change.
   */
  method ValidateForm(f: FormData, criteria: Criteria) returns (errors: Errors, valid: bool)
    ensures errors == FormErrors(f, criteria)
    ensures valid <==> errors == NoErrors
    ensures valid <==> NameOk(f.name) && NameOk(f.lastName) && EmailPattern(f.email) && IsNumeral(f.phone)
                       && NameOk(f.position) && f.password != "" && AllMet(criteria)
                       && f.confirmPassword == f.password
  {
    valid := true;
    errors := NoErrors;
    var m := NameError(f.name, NameRequired, NameLetters);
    errors := errors.(name := m);
    if m.Some? { valid := false; }
    m := NameError(f.lastName, LastNameRequired, LastNameLetters);
    errors := errors.(lastName := m);
    if m.Some? { valid := false; }
    m := EmailError(f.email);
    errors := errors.(email := m);
    if m.Some? { valid := false; }
    m := PhoneError(f.phone);
    errors := errors.(phone := m);
    if m.Some? { valid := false; }
    m := NameError(f.position, PositionRequired, PositionLetters);
    errors := errors.(position := m);
    if m.Some? { valid := false; }
    m := PasswordError(f.password, criteria);
    errors := errors.(password := m);
    if m.Some? { valid := false; }
    m := ConfirmError(f.password, f.confirmPassword);
    errors := errors.(confirmPassword := m);
    if m.Some? { valid := false; }
  }
}
