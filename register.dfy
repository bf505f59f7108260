/** The registration page's checks: the submit-time `validateForm`, an ordered
    chain in which the first failing check alone is reported, and the three
    live validators that mark an input field valid or invalid as the user
    types. */
module Register {
  import opened Json

  /** The submitted form, as the submit handler reads it: handle, display
      name and invitation code trimmed, the two passwords as typed. */
  datatype FormData = FormData(handle: string, name: string, password: string, confirmPassword: string, invitationCode: string)

  function ReadForm(handle: string, name: string, password: string, confirmPassword: string, invitationCode: string): (r: FormData) {
    FormData(Trim(handle), Trim(name), password, confirmPassword, Trim(invitationCode))
  }

  /** `/^[a-z0-9-]+$/`: at least one character, each a lower-case ASCII letter,
      a digit or a hyphen. */
  predicate HandleMatches(h: string) {
    |h| > 0 && forall i :: 0 <= i < |h| ==> ('a' <= h[i] <= 'z') || ('0' <= h[i] <= '9') || h[i] == '-'
  }

  /** `password.length < 6`, counted in UTF-16 code units. */
  predicate TooShort(password: string) {
    Utf16Length(password) < 6
  }

  /** The checks of `validateForm`, in the order it makes them. */
  datatype FormError = MissingFields | BadHandle | ShortPassword | PasswordMismatch | MissingInvitation

  const CheckOrder: seq<FormError> := [MissingFields, BadHandle, ShortPassword, PasswordMismatch, MissingInvitation]

  /** The message each check shows. */
  function Message(e: FormError): (r: string) {
    match e
    case MissingFields => "请填写所有必填字段"
    case BadHandle => "用户名只能包含小写字母、数字和连字符"
    case ShortPassword => "密码长度至少6位"
    case PasswordMismatch => "两次输入的密码不一致"
    case MissingInvitation => "请输入邀请码"
  }

  /** Whether a check, taken on its own, fails; `display` is the invitation
      code group's `style.display`. */
  predicate Fails(e: FormError, form: FormData, display: string) {
    match e
    case MissingFields => form.handle == "" || form.name == "" || form.password == "" || form.confirmPassword == ""
    case BadHandle => !HandleMatches(form.handle)
    case ShortPassword => TooShort(form.password)
    case PasswordMismatch => form.password != form.confirmPassword
    case MissingInvitation => display != "none" && form.invitationCode == ""
  }

  /** The first of `checks` that fails. */
  function FirstFailing(checks: seq<FormError>, form: FormData, display: string): (r: Option<FormError>)
    ensures r.None? <==> forall i :: 0 <= i < |checks| ==> !Fails(checks[i], form, display)
    ensures r.Some? ==> exists i :: 0 <= i < |checks| && checks[i] == r.value && Fails(r.value, form, display) &&
                                    forall j :: 0 <= j < i ==> !Fails(checks[j], form, display)
  {
    if checks == [] then None
    else if Fails(checks[0], form, display) then Some(checks[0])
    else
      var rest := FirstFailing(checks[1..], form, display);
      assert forall j :: 1 <= j < |checks| ==> checks[j] == checks[1..][j - 1];
      rest
  }

  /** The error `validateForm` reports, if any. */
  function FirstFailure(form: FormData, display: string): (r: Option<FormError>) {
    FirstFailing(CheckOrder, form, display)
  }

  /** `FirstFailure` taken apart: the checks one after the other. */
  lemma FirstFailureChain(form: FormData, display: string)
    ensures FirstFailure(form, display) ==
      if Fails(MissingFields, form, display) then Some(MissingFields)
      else if Fails(BadHandle, form, display) then Some(BadHandle)
      else if Fails(ShortPassword, form, display) then Some(ShortPassword)
      else if Fails(PasswordMismatch, form, display) then Some(PasswordMismatch)
      else if Fails(MissingInvitation, form, display) then Some(MissingInvitation)
      else None
  {
    var c4 := [MissingInvitation];
    var c3 := [PasswordMismatch] + c4;
    var c2 := [ShortPassword] + c3;
    var c1 := [BadHandle] + c2;
    assert CheckOrder == [MissingFields] + c1;
    assert c4[1..] == [];
    assert c3[1..] == c4 && c2[1..] == c3 && c1[1..] == c2 && CheckOrder[1..] == c1;
    assert FirstFailing(c4, form, display) == (if Fails(MissingInvitation, form, display) then Some(MissingInvitation) else None);
    assert FirstFailing(c3, form, display) == (if Fails(PasswordMismatch, form, display) then Some(PasswordMismatch) else FirstFailing(c4, form, display));
    assert FirstFailing(c2, form, display) == (if Fails(ShortPassword, form, display) then Some(ShortPassword) else FirstFailing(c3, form, display));
    assert FirstFailing(c1, form, display) == (if Fails(BadHandle, form, display) then Some(BadHandle) else FirstFailing(c2, form, display));
  }

  /** The page's message box: whether it is shown, its text, and whether it is
      styled as an error. */
  class MessageBox {
    var shown: bool
    var text: string
    var isError: bool

    constructor ()
      ensures !shown && text == "" && !isError
    {
      shown := false;
      text := "";
      isError := false;
    }

    /** `hideError` */
    method Hide()
      modifies this
      ensures !shown && text == old(text) && isError == old(isError)
    {
      shown := false;
    }

    /** `showError` */
    method ShowError(message: string)
      modifies this
      ensures shown && text == message && isError
    {
      text := message;
      shown := true;
      isError := true;
    }
  }

  /** `validateForm`: hide the previous message, then run the checks in order;
      the first that fails shows its message and stops the submission. */
  method ValidateForm(form: FormData, display: string, box: MessageBox) returns (ok: bool)
    modifies box
    ensures ok <==> FirstFailure(form, display).None?
    ensures ok ==> !box.shown && box.text == old(box.text) && box.isError == old(box.isError)
    ensures !ok ==> box.shown && box.isError && box.text == Message(FirstFailure(form, display).value)
  {
    FirstFailureChain(form, display);
    box.Hide();
    if form.handle == "" || form.name == "" || form.password == "" || form.confirmPassword == "" {
      box.ShowError(Message(MissingFields));
      return false;
    }
    if !HandleMatches(form.handle) {
      box.ShowError(Message(BadHandle));
      return false;
    }
    if TooShort(form.password) {
      box.ShowError(Message(ShortPassword));
      return false;
    }
    if form.password != form.confirmPassword {
      box.ShowError(Message(PasswordMismatch));
      return false;
    }
    if display != "none" && form.invitationCode == "" {
      box.ShowError(Message(MissingInvitation));
      return false;
    }
    return true;
  }

  /** A form passes exactly when every rule holds: all four fields given, a
      well-formed handle, a password of at least six code units typed the same
      twice, and an invitation code whenever its group is displayed. */
  lemma AcceptedExactly(form: FormData, display: string)
    ensures FirstFailure(form, display).None? <==>
      && form.handle != "" && form.name != "" && form.password != "" && form.confirmPassword != ""
      && HandleMatches(form.handle)
      && Utf16Length(form.password) >= 6
      && form.password == form.confirmPassword
      && (display == "none" || form.invitationCode != "")
  {
    FirstFailureChain(form, display);
  }

  /** The reported error is the earliest failing check: every check before it
      in the order passes. */
  lemma EarliestFailureReported(form: FormData, display: string, e: FormError)
    requires FirstFailure(form, display) == Some(e)
    ensures Fails(e, form, display)
    ensures forall i :: 0 <= i < |CheckOrder| && CheckOrder[i] == e ==>
              forall j :: 0 <= j < i ==> !Fails(CheckOrder[j], form, display)
  {
    var i :| 0 <= i < |CheckOrder| && CheckOrder[i] == e && Fails(e, form, display) &&
             forall j :: 0 <= j < i ==> !Fails(CheckOrder[j], form, display);
    forall i' | 0 <= i' < |CheckOrder| && CheckOrder[i'] == e
      ensures forall j :: 0 <= j < i' ==> !Fails(CheckOrder[j], form, display)
    {
      assert i' == i;
    }
  }

  /** Handle, name and code are trimmed: a handle of white space only counts
      as missing. */
  lemma BlankHandleMissing(handle: string, name: string, password: string, confirm: string, code: string, display: string)
    requires forall i :: 0 <= i < |handle| ==> IsWhitespace(handle[i])
    ensures FirstFailure(ReadForm(handle, name, password, confirm, code), display) == Some(MissingFields)
  {
    TrimEmptyIffBlank(handle);
    FirstFailureChain(ReadForm(handle, name, password, confirm, code), display);
  }

  /** The passwords are not trimmed: six spaces typed twice make an
      acceptable password. */
  lemma SpacesArePassword(handle: string, name: string, code: string, display: string)
    requires HandleMatches(Trim(handle)) && Trim(name) != "" && Trim(code) != ""
    ensures FirstFailure(ReadForm(handle, name, "      ", "      ", code), display).None?
  {
    assert Utf16Length("      ") == 6;
    AcceptedExactly(ReadForm(handle, name, "      ", "      ", code), display);
  }

  /** An empty invitation code is an error only when its group is displayed. */
  lemma InvitationOnlyWhenShown(form: FormData, display: string)
    requires form.invitationCode == ""
    requires forall i :: 0 <= i < 4 ==> !Fails(CheckOrder[i], form, display)
    ensures FirstFailure(form, display) == (if display != "none" then Some(MissingInvitation) else None)
  {
    FirstFailureChain(form, display);
    assert !Fails(CheckOrder[0], form, display) && !Fails(CheckOrder[1], form, display);
    assert !Fails(CheckOrder[2], form, display) && !Fails(CheckOrder[3], form, display);
  }

  // ---------------------------------------------------------------------------
  // Live validators

  /** The mark a live validator leaves: none on an empty field, otherwise
      exactly one of `valid` and `invalid`. */
  datatype Mark = Unmarked | Valid | Invalid

  function LiveMark(s: string, ok: bool): (m: Mark)
    ensures m.Unmarked? <==> s == ""
  {
    if s == "" then Unmarked else if ok then Valid else Invalid
  }

  /** An input field and its `valid` / `invalid` classes. */
  class TextInput {
    var value: string
    var valid: bool
    var invalid: bool

    constructor (v: string)
      ensures value == v && !valid && !invalid
    {
      value := v;
      valid := false;
      invalid := false;
    }

    /** The mark the classes show. */
    function Shown(): (r: Mark)
      reads this
    {
      if valid && !invalid then Valid else if invalid && !valid then Invalid else Unmarked
    }

    /** `classList.remove('valid', 'invalid')` or one `remove` and one `add`,
        as the mark requires. */
    method SetMark(m: Mark)
      modifies this
      ensures value == old(value)
      ensures valid == m.Valid? && invalid == m.Invalid?
    {
      match m
      case Unmarked =>
        valid := false;
        invalid := false;
      case Valid =>
        invalid := false;
        valid := true;
      case Invalid =>
        valid := false;
        invalid := true;
    }
  }

  /** `validateHandle`: the trimmed value against the handle pattern. */
  method ValidateHandle(input: TextInput)
    modifies input
    ensures input.value == old(input.value)
    ensures input.Shown() == LiveMark(Trim(input.value), HandleMatches(Trim(input.value)))
    ensures !(input.valid && input.invalid)
  {
    var handle := Trim(input.value);
    if handle == "" {
      input.SetMark(Unmarked);
      return;
    }
    if !HandleMatches(handle) {
      input.SetMark(Invalid);
    } else {
      input.SetMark(Valid);
    }
  }

  /** `validateConfirmPassword`: the confirmation against the password field. */
  method ValidateConfirmPassword(password: TextInput, confirm: TextInput)
    modifies confirm
    ensures confirm.value == old(confirm.value)
    ensures confirm.Shown() == LiveMark(confirm.value, password.value == confirm.value)
    ensures !(confirm.valid && confirm.invalid)
  {
    if confirm.value == "" {
      confirm.SetMark(Unmarked);
      return;
    }
    if password.value != confirm.value {
      confirm.SetMark(Invalid);
    } else {
      confirm.SetMark(Valid);
    }
  }

  /** `validatePassword`: the password against the length rule, then the
      confirmation again when one has been typed. */
  method ValidatePassword(password: TextInput, confirm: TextInput)
    requires password != confirm
    modifies password, confirm
    ensures password.value == old(password.value) && confirm.value == old(confirm.value)
    ensures password.Shown() == LiveMark(password.value, !TooShort(password.value))
    ensures !(password.valid && password.invalid)
    ensures password.value != "" && confirm.value != "" ==>
              confirm.Shown() == LiveMark(confirm.value, password.value == confirm.value)
              && !(confirm.valid && confirm.invalid)
    ensures password.value == "" || confirm.value == "" ==>
              confirm.valid == old(confirm.valid) && confirm.invalid == old(confirm.invalid)
  {
    if password.value == "" {
      password.SetMark(Unmarked);
      return;
    }
    if TooShort(password.value) {
      password.SetMark(Invalid);
    } else {
      password.SetMark(Valid);
    }
    if confirm.value != "" {
      ValidateConfirmPassword(password, confirm);
    }
  }

  /** The live marks agree with the submit-time checks: on a form that
      `validateForm` accepts, the handle, password and confirmation fields are
      all marked valid. */
  lemma LiveAgreesWithSubmit(handleField: string, name: string, password: string, confirm: string, code: string, display: string)
    requires FirstFailure(ReadForm(handleField, name, password, confirm, code), display).None?
    ensures LiveMark(Trim(handleField), HandleMatches(Trim(handleField))) == Valid
    ensures LiveMark(password, !TooShort(password)) == Valid
    ensures LiveMark(confirm, password == confirm) == Valid
  {
    AcceptedExactly(ReadForm(handleField, name, password, confirm, code), display);
  }
}
