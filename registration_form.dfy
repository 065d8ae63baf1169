/** The controlled registration form: three text fields, the error map that
    `validateForm` builds, and the submitted flag. */
module RegistrationForm {
  import opened Text

  datatype RegField = Username | Email | Password

  datatype RegData = RegData(username: string, email: string, password: string)

  const EmptyData := RegData("", "", "")

  const UsernameRequired := "Username is required"
  const EmailRequired := "Email is required"
  const EmailInvalid := "Email is invalid"
  const PasswordRequired := "Password is required"
  const PasswordTooShort := "Password must be at least 6 characters"

  /** No white space (the `\s` class) in `s[lo..hi]`. */
  predicate NoSpaceIn(s: string, lo: int, hi: int)
    requires 0 <= lo <= hi <= |s|
  {
    forall i :: lo <= i < hi ==> !IsSpace(s[i])
  }

  /** `/\S+@\S+\.\S+/.test(s)`: some stretch `s[a..e]` without white space
      is one or more characters, '@', one or more characters, '.', one or
      more characters. */
  predicate MatchesEmailPattern(s: string) {
    exists a, at, dot, e :: 0 <= a < at && at + 1 < dot && dot + 1 < e <= |s|
                            && s[at] == '@' && s[dot] == '.' && NoSpaceIn(s, a, e)
  }

  /** The shortest form of a match: one character, '@', one or more
      characters, '.', one character, with no white space in between. */
  predicate HasEmailShape(s: string) {
    exists at, dot :: 1 <= at && at + 1 < dot && dot + 2 <= |s|
                      && s[at] == '@' && s[dot] == '.' && NoSpaceIn(s, at - 1, dot + 2)
  }

  /** The pattern matches exactly when the shortest form occurs. */
  lemma EmailPatternShape(s: string)
    ensures MatchesEmailPattern(s) <==> HasEmailShape(s)
  {
    if MatchesEmailPattern(s) {
      var a, at, dot, e :| 0 <= a < at && at + 1 < dot && dot + 1 < e <= |s|
                           && s[at] == '@' && s[dot] == '.' && NoSpaceIn(s, a, e);
      assert NoSpaceIn(s, at - 1, dot + 2);
    }
    if HasEmailShape(s) {
      var at, dot :| 1 <= at && at + 1 < dot && dot + 2 <= |s|
                     && s[at] == '@' && s[dot] == '.' && NoSpaceIn(s, at - 1, dot + 2);
      assert 0 <= at - 1 < at && at + 1 < dot && dot + 1 < dot + 2 <= |s|;
    }
  }

  /** An address the pattern accepts is never blank. */
  lemma MatchedEmailNotBlank(s: string)
    requires MatchesEmailPattern(s)
    ensures !IsBlank(s)
  {
    var a, at, dot, e :| 0 <= a < at && at + 1 < dot && dot + 1 < e <= |s|
                         && s[at] == '@' && s[dot] == '.' && NoSpaceIn(s, a, e);
    BlankIffAllSpace(s);
    assert !IsSpace(s[at]);
  }

  /** `validateForm()`: username must have text, email must have text and
      match the pattern, the password must be at least 6 characters. */
  function ValidateRegistration(d: RegData): (errors: map<RegField, string>)
    ensures Username in errors <==> IsBlank(d.username)
    ensures Username in errors ==> errors[Username] == UsernameRequired
    ensures Email in errors <==> IsBlank(d.email) || !MatchesEmailPattern(d.email)
    ensures Email in errors ==> errors[Email] == if IsBlank(d.email) then EmailRequired else EmailInvalid
    ensures Password in errors <==> |d.password| < 6
    ensures Password in errors ==> errors[Password] == if d.password == "" then PasswordRequired else PasswordTooShort
  {
    var e0: map<RegField, string> := map[];
    var e1 := if IsBlank(d.username) then e0[Username := UsernameRequired] else e0;
    var e2 := if IsBlank(d.email) then e1[Email := EmailRequired]
              else if !MatchesEmailPattern(d.email) then e1[Email := EmailInvalid]
              else e1;
    if d.password == "" then e2[Password := PasswordRequired]
    else if |d.password| < 6 then e2[Password := PasswordTooShort]
    else e2
  }

  /** The form is accepted exactly when the username has text, the email
      matches the pattern and the password has at least 6 characters. */
  lemma AcceptedIff(d: RegData)
    ensures ValidateRegistration(d) == map[] <==>
            !IsBlank(d.username) && MatchesEmailPattern(d.email) && |d.password| >= 6
  {
    var errors := ValidateRegistration(d);
    if MatchesEmailPattern(d.email) {
      MatchedEmailNotBlank(d.email);
    }
    if errors != map[] {
      var k :| k in errors;
    }
  }

  /** `{ ...formData, [name]: value }`. */
  function WithField(d: RegData, name: RegField, value: string): (r: RegData)
    ensures r.username == (if name == Username then value else d.username)
    ensures r.email == (if name == Email then value else d.email)
    ensures r.password == (if name == Password then value else d.password)
  {
    match name
    case Username => d.(username := value)
    case Email => d.(email := value)
    case Password => d.(password := value)
  }

  class Registration {
    var formData: RegData
    var errors: map<RegField, string>
    var isSubmitted: bool

    constructor ()
      ensures formData == EmptyData && errors == map[] && !isSubmitted
    {
      formData := EmptyData;
      errors := map[];
      isSubmitted := false;
    }

    /** `handleChange`: set the field; a shown error of that field becomes ''. */
    method HandleChange(name: RegField, value: string)
      modifies this
      ensures formData == WithField(old(formData), name, value)
      ensures errors == if name in old(errors) && old(errors)[name] != "" then old(errors)[name := ""] else old(errors)
      ensures isSubmitted == old(isSubmitted)
    {
      formData := WithField(formData, name, value);
      if name in errors && errors[name] != "" {
        errors := errors[name := ""];
      }
    }

    /** `handleSubmit`: a valid form is submitted and cleared; otherwise the
        errors are shown and the data kept. */
    method HandleSubmit()
      modifies this
      ensures ValidateRegistration(old(formData)) == map[] ==>
                isSubmitted && formData == EmptyData && errors == map[]
      ensures ValidateRegistration(old(formData)) != map[] ==>
                !isSubmitted && formData == old(formData) && errors == ValidateRegistration(old(formData))
    {
      var validationErrors := ValidateRegistration(formData);
      if |validationErrors| == 0 {
        isSubmitted := true;
        formData := EmptyData;
        errors := map[];
      } else {
        errors := validationErrors;
        isSubmitted := false;
      }
    }
  }
}
