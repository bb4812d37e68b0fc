/**
 * The user create/edit form of the user-administration client: the role
 * checkboxes, the field validation rules (including the e-mail pattern)
 * and the request it submits.
 */
module UserForm {
  import opened Seqs
  import opened AdminTypes
  import Selection

  // ---------------------------------------------------------------------------
  // The e-mail pattern /^[A-Z0-9._%+-]+@[A-Z0-9.-]+\.[A-Z]{2,}$/i

  /** `[A-Z]` under the `i` flag: an ASCII letter of either case. */
  predicate Letter(c: char)
  {
    'A' <= c <= 'Z' || 'a' <= c <= 'z'
  }

  predicate Alnum(c: char)
  {
    Letter(c) || '0' <= c <= '9'
  }

  /** `[A-Z0-9._%+-]` */
  predicate LocalChar(c: char)
  {
    Alnum(c) || c == '.' || c == '_' || c == '%' || c == '+' || c == '-'
  }

  /** `[A-Z0-9.-]` */
  predicate DomainChar(c: char)
  {
    Alnum(c) || c == '.' || c == '-'
  }

  /**
   * What the pattern accepts: a non-empty local part, '@', a non-empty
   * domain, a dot and at least two letters, with every character in its
   * class.
   */
  ghost predicate MatchesEmailPattern(s: string)
  {
    exists at, dot :: EmailSplit(s, at, dot)
  }

  predicate EmailSplit(s: string, at: int, dot: int)
  {
    0 < at && at + 1 < dot && dot + 2 < |s| && s[at] == '@' && s[dot] == '.' &&
    (forall k :: 0 <= k < at ==> LocalChar(s[k])) &&
    (forall k :: at < k < dot ==> DomainChar(s[k])) &&
    (forall k :: dot < k < |s| ==> Letter(s[k]))
  }

  /** The position of the last `c` in `s`. */
  function LastIndexOf(s: string, c: char): (r: Option<nat>)
    ensures r.Some? ==> r.value < |s| && s[r.value] == c && forall k :: r.value < k < |s| ==> s[k] != c
    ensures r.None? ==> forall k :: 0 <= k < |s| ==> s[k] != c
  {
    if s == [] then None
    else if s[|s| - 1] == c then Some(|s| - 1)
    else LastIndexOf(s[..|s| - 1], c)
  }

  function IsAt(): char -> bool
  {
    (c: char) => c == '@'
  }

  /** The domain after the '@': domain characters, a last dot with something before it and two or more letters after it. */
  predicate ValidDomain(r: string)
  {
    match LastIndexOf(r, '.')
    case None => false
    case Some(dot) =>
      dot > 0 && |r| - dot - 1 >= 2 &&
      (forall k :: 0 <= k < dot ==> DomainChar(r[k])) &&
      (forall k :: dot < k < |r| ==> Letter(r[k]))
  }

  /** The pattern test, done by locating the first '@' and the last '.'. */
  predicate IsValidEmail(s: string)
  {
    match FindIndex(s, IsAt())
    case None => false
    case Some(at) => at > 0 && (forall k :: 0 <= k < at ==> LocalChar(s[k])) && ValidDomain(s[at + 1..])
  }

  /** The test accepts exactly what the pattern describes. */
  lemma EmailCheckCorrect(s: string)
    ensures IsValidEmail(s) <==> MatchesEmailPattern(s)
  {
    if IsValidEmail(s) {
      EmailCheckSound(s);
    }
    if MatchesEmailPattern(s) {
      EmailCheckComplete(s);
    }
  }

  /** What the test accepts matches the pattern. */
  lemma EmailCheckSound(s: string)
    requires IsValidEmail(s)
    ensures MatchesEmailPattern(s)
  {
    var at := FindIndex(s, IsAt()).value;
    var r := s[at + 1..];
    var d := LastIndexOf(r, '.').value;
    assert EmailSplit(s, at, at + 1 + d) by {
      forall k | at < k < at + 1 + d ensures DomainChar(s[k]) {
        assert s[k] == r[k - at - 1];
      }
      forall k | at + 1 + d < k < |s| ensures Letter(s[k]) {
        assert s[k] == r[k - at - 1];
      }
    }
  }

  /** What matches the pattern passes the test. */
  lemma EmailCheckComplete(s: string)
    requires MatchesEmailPattern(s)
    ensures IsValidEmail(s)
  {
    var at, dot :| EmailSplit(s, at, dot);
    FirstAt(s, at, dot);
    var r := s[at + 1..];
    var d := dot - at - 1;
    assert r[d] == '.';
    forall k | d < k < |r| ensures r[k] != '.' && Letter(r[k]) {
      assert r[k] == s[k + at + 1];
    }
    LastIndexIs(r, '.', d);
    forall k | 0 <= k < d ensures DomainChar(r[k]) {
      assert r[k] == s[k + at + 1];
    }
  }

  /** In a match, the '@' of the split is the first one. */
  lemma FirstAt(s: string, at: int, dot: int)
    requires EmailSplit(s, at, dot)
    ensures FindIndex(s, IsAt()) == Some(at)
  {
    assert IsAt()(s[at]);
    forall k | 0 <= k < at ensures !IsAt()(s[k]) {
      assert LocalChar(s[k]);
    }
  }

  lemma LastIndexIs(r: string, c: char, d: nat)
    requires d < |r| && r[d] == c && forall k :: d < k < |r| ==> r[k] != c
    ensures LastIndexOf(r, c) == Some(d)
  {
    var l := LastIndexOf(r, c);
    assert l.Some?;
    if l.value < d {
      assert false;
    }
  }

  // ---------------------------------------------------------------------------
  // Validation

  const UsernameRequired := "Username is required"
  const EmailRequired := "Email is required"
  const InvalidEmail := "Invalid email address"
  const PasswordRequired := "Password is required"
  const PasswordTooShort := "Password must be at least 6 characters"
  const MinPasswordLength := 6

  /** The first failing rule of each field, as the form reports it. */
  datatype FieldErrors = FieldErrors(username: Option<string>, email: Option<string>, password: Option<string>)

  /**
   * The registered rules: username and e-mail are required and the e-mail
   * must match the pattern; the password is required only when creating,
   * and a non-empty password needs six characters. Pattern and length
   * rules are not applied to empty values.
   */
  function Validate(isEdit: bool, username: string, email: string, password: string): (e: FieldErrors)
    ensures e.username.None? <==> username != []
    ensures e.email.None? <==> email != [] && MatchesEmailPattern(email)
    ensures e.password.None? <==> (if password == [] then isEdit else |password| >= MinPasswordLength)
  {
    EmailCheckCorrect(email);
    FieldErrors(
      if username == [] then Some(UsernameRequired) else None,
      if email == [] then Some(EmailRequired) else if !IsValidEmail(email) then Some(InvalidEmail) else None,
      if password == [] then (if isEdit then None else Some(PasswordRequired))
      else if |password| < MinPasswordLength then Some(PasswordTooShort) else None)
  }

  predicate NoErrors(e: FieldErrors)
  {
    e.username.None? && e.email.None? && e.password.None?
  }

  // ---------------------------------------------------------------------------
  // Submitting

  /**
   * `onSubmit`: in edit mode an update of the route's user, carrying the
   * password only when one was typed; otherwise a create that always
   * carries it.
   */
  function Submit(routeId: string, username: string, email: string, password: string, roleIds: Option<seq<int>>): (r: UserRequest)
    ensures r.UpdateUser? <==> routeId != []
    ensures r.UpdateUser? ==> r == UpdateUser(routeId, UpdateUserRequest(username, email,
                                                   if password == [] then None else Some(password), roleIds))
    ensures r.CreateUser? ==> r.create == CreateUserRequest(username, email, password, roleIds)
  {
    if routeId != [] then
      UpdateUser(routeId, UpdateUserRequest(username, email, if password != [] then Some(password) else None, roleIds))
    else CreateUser(CreateUserRequest(username, email, password, roleIds))
  }

  /**
   * What validation buys the requests: a create always carries a password of
   * six characters or more, an update carries either none or such a password,
   * and the e-mail sent always matches the pattern.
   */
  lemma ValidSubmitCarriesGoodPassword(routeId: string, username: string, email: string, password: string, roleIds: Option<seq<int>>)
    requires NoErrors(Validate(routeId != [], username, email, password))
    ensures Submit(routeId, username, email, password, roleIds).CreateUser? ==>
              |Submit(routeId, username, email, password, roleIds).create.password| >= MinPasswordLength
    ensures Submit(routeId, username, email, password, roleIds).UpdateUser? ==>
              var p := Submit(routeId, username, email, password, roleIds).update.password;
              p.None? || |p.value| >= MinPasswordLength
    ensures MatchesEmailPattern(email) && username != []
  {
  }

  /** The form's values. */
  class Form {
    var username: string
    var email: string
    var password: string
    /** None until the prefill or a checkbox sets it. */
    var roleIds: Option<seq<int>>

    /** An empty form: the text inputs read as empty and the role ids are not set. */
    constructor()
      ensures username == [] && email == [] && password == [] && roleIds == None
    {
      username := [];
      email := [];
      password := [];
      roleIds := None;
    }

    /** The edit-mode prefill: username, e-mail and the ids of the user's roles; the password stays empty. */
    method Prefill(user: User)
      modifies this`username, this`email, this`roleIds
      ensures username == user.username && email == user.email
      ensures roleIds == Some(Map(user.roles, (r: Role) => r.id))
    {
      username := user.username;
      email := user.email;
      roleIds := Some(Map(user.roles, (r: Role) => r.id));
    }

    /** `handleRoleChange`: toggles the current selection, an unset one read as empty. */
    method HandleRoleChange(roleId: int, checked: bool)
      modifies this`roleIds
      ensures roleIds == Some(Selection.Toggle(Selection.Current(old(roleIds)), roleId, checked))
    {
      roleIds := Some(Selection.Toggle(Selection.Current(roleIds), roleId, checked));
    }

    /** The form's submit button: the request when every field passes, else the errors. */
    method HandleSubmit(routeId: string) returns (r: Option<UserRequest>, errors: FieldErrors)
      ensures errors == Validate(routeId != [], username, email, password)
      ensures r.Some? <==> NoErrors(errors)
      ensures r.Some? ==> r.value == Submit(routeId, username, email, password, roleIds)
    {
      errors := Validate(routeId != [], username, email, password);
      if NoErrors(errors) {
        r := Some(Submit(routeId, username, email, password, roleIds));
      } else {
        r := None;
      }
    }
  }

  /** A create typed in without touching a role checkbox sends no `roleIds` at all. */
  method CreateWithoutRoles(username: string, email: string, password: string) returns (r: Option<UserRequest>)
    ensures r.Some? <==> NoErrors(Validate(false, username, email, password))
    ensures r.Some? ==> r.value == CreateUser(CreateUserRequest(username, email, password, None))
  {
    var form := new Form();
    form.username, form.email, form.password := username, email, password;
    var errors;
    r, errors := form.HandleSubmit([]);
  }
}
