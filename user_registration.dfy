/** The UserRegistration page: a password-strength label recomputed on every
    password change, an email-format check, the ordered validation chain of
    the submit handler, and the list of registered users kept in local
    storage under `registeredUsers`. */
module UserRegistration {
  import opened Options

  datatype Strength = Weak | Medium | Strong

  const AllFieldsRequired: string := "All fields are required."
  const InvalidEmail: string := "Please enter a valid email address."
  const WeakPassword: string := "Password should be strong (at least 6 characters with letters and numbers)."

  /** `[A-Za-z]` */
  predicate IsAsciiLetter(c: char) {
    ('A' <= c <= 'Z') || ('a' <= c <= 'z')
  }

  /** `\d` (without the `u` flag: ASCII digits only) */
  predicate IsDigit(c: char) {
    '0' <= c <= '9'
  }

  /** `[a-zA-Z0-9._%+-]`, the characters of the part before the '@'. */
  predicate IsLocalChar(c: char) {
    IsAsciiLetter(c) || IsDigit(c) || c == '.' || c == '_' || c == '%' || c == '+' || c == '-'
  }

  /** `[a-zA-Z0-9.-]`, the characters of the domain before the final dot. */
  predicate IsDomainChar(c: char) {
    IsAsciiLetter(c) || IsDigit(c) || c == '.' || c == '-'
  }

  /** `/[A-Za-z]/.test(s)`: a scan for an ASCII letter. */
  function ContainsLetter(s: string): (b: bool)
    ensures b <==> exists i :: 0 <= i < |s| && IsAsciiLetter(s[i])
  {
    if s == [] then false
    else if IsAsciiLetter(s[0]) then true
    else
      var b := ContainsLetter(s[1..]);
      assert b ==> exists i :: 0 < i < |s| && IsAsciiLetter(s[i]) by {
        if b { var i :| 0 <= i < |s[1..]| && IsAsciiLetter(s[1..][i]); assert s[i + 1] == s[1..][i]; }
      }
      assert (exists i :: 0 <= i < |s| && IsAsciiLetter(s[i])) ==> b by {
        if exists i :: 0 <= i < |s| && IsAsciiLetter(s[i]) {
          var i :| 0 <= i < |s| && IsAsciiLetter(s[i]);
          assert i > 0 && s[1..][i - 1] == s[i];
        }
      }
      b
  }

  /** `/\d/.test(s)`: a scan for a digit. */
  function ContainsDigit(s: string): (b: bool)
    ensures b <==> exists i :: 0 <= i < |s| && IsDigit(s[i])
  {
    if s == [] then false
    else if IsDigit(s[0]) then true
    else
      var b := ContainsDigit(s[1..]);
      assert b ==> exists i :: 0 < i < |s| && IsDigit(s[i]) by {
        if b { var i :| 0 <= i < |s[1..]| && IsDigit(s[1..][i]); assert s[i + 1] == s[1..][i]; }
      }
      assert (exists i :: 0 <= i < |s| && IsDigit(s[i])) ==> b by {
        if exists i :: 0 <= i < |s| && IsDigit(s[i]) {
          var i :| 0 <= i < |s| && IsDigit(s[i]);
          assert i > 0 && s[1..][i - 1] == s[i];
        }
      }
      b
  }

  /** `checkPasswordStrength`: under six characters is Weak; six or more with
      a letter and a digit is Strong; everything else is Medium. */
  function PasswordStrength(pw: string): (s: Strength)
    ensures s == Weak <==> |pw| < 6
    ensures s == Strong <==> (|pw| >= 6
                              && (exists i :: 0 <= i < |pw| && IsAsciiLetter(pw[i]))
                              && (exists i :: 0 <= i < |pw| && IsDigit(pw[i])))
    ensures s == Medium <==> (|pw| >= 6
                              && ((forall i :: 0 <= i < |pw| ==> !IsAsciiLetter(pw[i]))
                                  || (forall i :: 0 <= i < |pw| ==> !IsDigit(pw[i]))))
  {
    var length := |pw|;
    if length < 6 then Weak
    else if length >= 6 && ContainsLetter(pw) && ContainsDigit(pw) then Strong
    else Medium
  }

  /** The position of the first occurrence of `c`. */
  function IndexOf(s: string, c: char): (r: Option<nat>)
    ensures r.None? <==> c !in s
    ensures r.Some? ==> r.value < |s| && s[r.value] == c
                        && forall j :: 0 <= j < r.value ==> s[j] != c
  {
    if s == [] then None
    else if s[0] == c then Some(0)
    else
      match IndexOf(s[1..], c)
      case None => None
      case Some(k) =>
        assert forall j :: 0 < j < k + 1 ==> s[j] == s[1..][j - 1];
        Some(k + 1)
  }

  /** The position of the last occurrence of `c`. */
  function LastIndexOf(s: string, c: char): (r: Option<nat>)
    ensures r.None? <==> c !in s
    ensures r.Some? ==> r.value < |s| && s[r.value] == c
                        && forall j :: r.value < j < |s| ==> s[j] != c
  {
    if s == [] then None
    else if s[|s| - 1] == c then Some(|s| - 1)
    else
      var r := LastIndexOf(s[..|s| - 1], c);
      assert c in s[..|s| - 1] <==> c in s by {
        assert s == s[..|s| - 1] + [s[|s| - 1]];
      }
      r
  }

  /** Every character of `s[lo..hi]` is accepted by the class. */
  predicate AllLocal(s: string, lo: int, hi: int)
    requires 0 <= lo <= hi <= |s|
  {
    forall i :: lo <= i < hi ==> IsLocalChar(s[i])
  }

  predicate AllDomain(s: string, lo: int, hi: int)
    requires 0 <= lo <= hi <= |s|
  {
    forall i :: lo <= i < hi ==> IsDomainChar(s[i])
  }

  predicate AllLetters(s: string, lo: int, hi: int)
    requires 0 <= lo <= hi <= |s|
  {
    forall i :: lo <= i < hi ==> IsAsciiLetter(s[i])
  }

  /** One way of reading `s` as the pattern
      `^[a-zA-Z0-9._%+-]+@[a-zA-Z0-9.-]+\.[a-zA-Z]{2,}$`: the '@' at `at`,
      the final dot at `dot`. */
  predicate EmailSplit(s: string, at: int, dot: int) {
    && 0 < at && at + 1 < dot && dot + 2 < |s|
    && AllLocal(s, 0, at) && s[at] == '@'
    && AllDomain(s, at + 1, dot) && s[dot] == '.'
    && AllLetters(s, dot + 1, |s|)
  }

  /** The email pattern, as the regular expression states it: some split of
      `s` matches. A matching address has at least six characters, holds an
      '@' and ends in a letter. */
  ghost predicate MatchesEmailPattern(s: string)
    ensures MatchesEmailPattern(s) ==> 6 <= |s| && '@' in s && IsAsciiLetter(s[|s| - 1])
  {
    exists at, dot :: EmailSplit(s, at, dot)
  }

  /** The email check as a scan: the '@' is the first one, the dot is the
      last one after it, and the three parts are checked in turn. The scan
      accepts exactly the strings the pattern matches. */
  function IsValidEmail(s: string): (ok: bool)
    ensures ok <==> MatchesEmailPattern(s)
  {
    match IndexOf(s, '@')
    case None => false
    case Some(at) =>
      match LastIndexOf(s[at + 1..], '.')
      case None => false
      case Some(d) => EmailSplit(s, at, at + 1 + d)
  }

  /** An accepted email holds exactly one '@'. */
  lemma ValidEmailHasOneAt(s: string)
    requires IsValidEmail(s)
    ensures multiset(s)['@'] == 1
  {
    var at := IndexOf(s, '@').value;
    var dot := at + 1 + LastIndexOf(s[at + 1..], '.').value;
    NoAtAfterSplit(s, at, dot);
    OccursOnce(s, '@', at);
  }

  /** No character after the '@' of a matching split is an '@'. */
  lemma NoAtAfterSplit(s: string, at: int, dot: int)
    requires EmailSplit(s, at, dot)
    ensures forall i :: at < i < |s| ==> s[i] != '@'
  {
  }

  /** A character found at exactly one position occurs once. */
  lemma OccursOnce(s: string, c: char, k: nat)
    requires k < |s| && s[k] == c
    requires forall i :: 0 <= i < |s| && i != k ==> s[i] != c
    ensures multiset(s)[c] == 1
  {
    var front, back := s[..k], s[k + 1..];
    assert s == front + [c] + back;
    assert c !in front;
    assert c !in back by {
      forall i | 0 <= i < |back| ensures back[i] != c { assert back[i] == s[k + 1 + i]; }
    }
  }

  /** The outcome of one submit: the error it leaves, or none. Empty
      fields are reported first, then a malformed email, then a label that
      is not Strong; a submit that passes all three has no error. */
  function SubmitError(name: string, email: string, password: string, contact: string,
                       strength: Option<Strength>): (r: Option<string>)
    ensures r.None? <==> name != "" && email != "" && password != "" && contact != ""
                         && MatchesEmailPattern(email) && strength == Some(Strong)
    ensures (name == "" || email == "" || password == "" || contact == "") ==>
              r == Some(AllFieldsRequired)
    ensures (name != "" && email != "" && password != "" && contact != ""
             && !MatchesEmailPattern(email)) ==> r == Some(InvalidEmail)
    ensures (name != "" && email != "" && password != "" && contact != ""
             && MatchesEmailPattern(email) && strength != Some(Strong)) ==> r == Some(WeakPassword)
  {
    if name == "" || email == "" || password == "" || contact == "" then Some(AllFieldsRequired)
    else if !IsValidEmail(email) then Some(InvalidEmail)
    else if strength != Some(Strong) then Some(WeakPassword)
    else None
  }

  /** A registered user as stored. */
  datatype User = User(name: string, email: string, password: string, contact: string)

  class RegistrationPage {
    var name: string
    var email: string
    var password: string
    var contact: string
    var error: string
    /** `passwordStrength`: the empty string until the password first changes. */
    var passwordStrength: Option<Strength>
    /** The `registeredUsers` entry of local storage; `None` while absent. */
    var registeredUsers: Option<seq<User>>

    /** The label is always the one computed from the current password,
        since both are set by the same change handler. */
    ghost predicate Valid()
      reads this
    {
      (password == "" && passwordStrength == None) || passwordStrength == Some(PasswordStrength(password))
    }

    constructor (stored: Option<seq<User>>)
      ensures Valid()
      ensures name == "" && email == "" && password == "" && contact == "" && error == ""
      ensures passwordStrength == None && registeredUsers == stored
    {
      name, email, password, contact, error := "", "", "", "", "";
      passwordStrength := None;
      registeredUsers := stored;
    }

    method SetName(v: string)
      requires Valid()
      modifies this
      ensures Valid() && name == v
      ensures email == old(email) && password == old(password) && contact == old(contact)
      ensures error == old(error) && passwordStrength == old(passwordStrength)
      ensures registeredUsers == old(registeredUsers)
    {
      name := v;
    }

    method SetEmail(v: string)
      requires Valid()
      modifies this
      ensures Valid() && email == v
      ensures name == old(name) && password == old(password) && contact == old(contact)
      ensures error == old(error) && passwordStrength == old(passwordStrength)
      ensures registeredUsers == old(registeredUsers)
    {
      email := v;
    }

    method SetContact(v: string)
      requires Valid()
      modifies this
      ensures Valid() && contact == v
      ensures name == old(name) && email == old(email) && password == old(password)
      ensures error == old(error) && passwordStrength == old(passwordStrength)
      ensures registeredUsers == old(registeredUsers)
    {
      contact := v;
    }

    /** The password input's change handler: stores the value and labels it. */
    method OnPasswordChange(v: string)
      requires Valid()
      modifies this
      ensures Valid()
      ensures password == v && passwordStrength == Some(PasswordStrength(v))
      ensures name == old(name) && email == old(email) && contact == old(contact)
      ensures error == old(error) && registeredUsers == old(registeredUsers)
    {
      password := v;
      passwordStrength := Some(PasswordStrength(v));
    }

    /** `handleSubmit`: clears the error, then runs the checks in order and
        stops at the first that fails; when all pass, appends the user to
        the stored list (an absent list counts as empty). Since the label
        belongs to the current password, a user is stored exactly when the
        four fields are filled, the email matches and the password itself is
        Strong. */
    method HandleSubmit()
      requires Valid()
      modifies this
      ensures Valid()
      ensures var e := SubmitError(name, email, password, contact, passwordStrength);
        && (e.Some? ==> error == e.value && registeredUsers == old(registeredUsers))
        && (e.None? ==>
              && error == ""
              && registeredUsers == Some(old(registeredUsers).GetOr([]) + [User(name, email, password, contact)]))
      ensures name == old(name) && email == old(email) && password == old(password)
      ensures contact == old(contact) && passwordStrength == old(passwordStrength)
      ensures (name != "" && email != "" && password != "" && contact != ""
               && MatchesEmailPattern(email) && PasswordStrength(password) == Strong) ==>
                error == "" && registeredUsers == Some(old(registeredUsers).GetOr([]) + [User(name, email, password, contact)])
      ensures !(name != "" && email != "" && password != "" && contact != ""
                && MatchesEmailPattern(email) && PasswordStrength(password) == Strong) ==>
                error != "" && registeredUsers == old(registeredUsers)
    {
      StrengthCheckIsOnCurrentPassword(name, email, password, contact, passwordStrength);
      error := "";
      if name == "" || email == "" || password == "" || contact == "" {
        error := AllFieldsRequired;
        return;
      }
      if !IsValidEmail(email) {
        error := InvalidEmail;
        return;
      }
      if passwordStrength != Some(Strong) {
        error := WeakPassword;
        return;
      }
      var users := registeredUsers.GetOr([]);
      users := users + [User(name, email, password, contact)];
      registeredUsers := Some(users);
    }
  }

  /** Because the label always belongs to the current password, the strength
      check of the chain is a check of the password itself. */
  lemma StrengthCheckIsOnCurrentPassword(name: string, email: string, password: string, contact: string,
                                         strength: Option<Strength>)
    requires (password == "" && strength == None) || strength == Some(PasswordStrength(password))
    ensures SubmitError(name, email, password, contact, strength).None?
        <==> name != "" && email != "" && password != "" && contact != ""
             && MatchesEmailPattern(email) && PasswordStrength(password) == Strong
  {
  }
}
