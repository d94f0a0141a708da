/** The login screen: a case-insensitive search of the user list by email and a
    password that only has to be long enough. `LoginForm` holds the screen's
    state; submitting it either hands the found user to the application (the
    `onLogin` callback, here the returned value) or shows one of two fixed
    error messages. */
module Login {
  import opened Common
  import opened Types
  import opened MockData

  /** ASCII lower-casing of one character. */
  function LowerChar(c: char): char
  {
    if 'A' <= c <= 'Z' then (c as int - 'A' as int + 'a' as int) as char else c
  }

  /** ASCII lower-casing of a string, character by character. */
  function Lower(s: string): (r: string)
    ensures |r| == |s|
    ensures forall i :: 0 <= i < |r| ==> !('A' <= r[i] <= 'Z')
    ensures forall i :: 0 <= i < |s| && 'A' <= s[i] <= 'Z' ==> r[i] as int == s[i] as int + ('a' as int - 'A' as int)
    ensures forall i :: 0 <= i < |s| && !('A' <= s[i] <= 'Z') ==> r[i] == s[i]
  {
    seq(|s|, i requires 0 <= i < |s| => LowerChar(s[i]))
  }

  /** Two emails are the same account when they agree after lower-casing. */
  predicate SameEmail(a: string, b: string)
  {
    Lower(a) == Lower(b)
  }

  predicate HasUser(users: seq<User>, email: string)
  {
    exists u :: u in users && SameEmail(u.email, email)
  }

  /** `i` is the position of the first user whose email matches. */
  predicate IsFirstMatch(users: seq<User>, email: string, i: int)
  {
    && 0 <= i < |users|
    && SameEmail(users[i].email, email)
    && forall j :: 0 <= j < i ==> !SameEmail(users[j].email, email)
  }

  /** `s.length`: the number of UTF-16 code units, two for a character
      outside the Basic Multilingual Plane and one for any other. */
  function Utf16Length(s: string): (n: nat)
    ensures |s| <= n <= 2 * |s|
    ensures n == |s| <==> forall i :: 0 <= i < |s| ==> s[i] as int < 0x1_0000
    ensures |s| == 1 ==> n == (if s[0] as int < 0x1_0000 then 1 else 2)
  {
    if s == [] then 0
    else (if s[0] as int < 0x1_0000 then 1 else 2) + Utf16Length(s[1..])
  }

  /** The code units of a concatenation are those of its parts: with the
      one-character case this fixes the length of every string. */
  lemma {:induction false} Utf16LengthAppend(a: string, b: string)
    ensures Utf16Length(a + b) == Utf16Length(a) + Utf16Length(b)
  {
    if a == [] {
      assert a + b == b;
    } else {
      assert (a + b)[1..] == a[1..] + b;
      Utf16LengthAppend(a[1..], b);
    }
  }

  datatype LoginError = UserNotFound | PasswordTooShort

  const MinPasswordLength := 4

  /** The text the screen shows for each error; neither is empty. */
  function ErrorMessage(e: LoginError): (msg: string)
    ensures msg != ""
  {
    match e
    case UserNotFound => "Usuário não encontrado. Verifique o email ou fale com o administrador."
    case PasswordTooShort => "A senha deve ter pelo menos 4 caracteres."
  }

  /** `users.find(u => u.email.toLowerCase() === email.toLowerCase())`, as a position. */
  function FindUser(users: seq<User>, email: string): (r: Option<nat>)
    ensures r.Some? ==> IsFirstMatch(users, email, r.value)
    ensures r.None? <==> !HasUser(users, email)
  {
    FindFirst(users, (u: User) => SameEmail(u.email, email))
  }

  /** The login decision: the first user with a matching email, provided the
      password is at least four UTF-16 code units long. */
  function Authenticate(users: seq<User>, email: string, password: string): (r: Result<User, LoginError>)
    ensures r.Ok? <==> HasUser(users, email) && Utf16Length(password) >= MinPasswordLength
    ensures r.Ok? ==> exists i :: IsFirstMatch(users, email, i) && users[i] == r.value
    ensures r == Err(UserNotFound) <==> !HasUser(users, email)
    ensures r == Err(PasswordTooShort) <==> HasUser(users, email) && Utf16Length(password) < MinPasswordLength
  {
    match FindUser(users, email)
    case None => Err(UserNotFound)
    case Some(i) => if Utf16Length(password) >= MinPasswordLength then Ok(users[i]) else Err(PasswordTooShort)
  }

  /** There is only one first match. */
  lemma FirstMatchUnique(users: seq<User>, email: string, i: int, j: int)
    requires IsFirstMatch(users, email, i) && IsFirstMatch(users, email, j)
    ensures i == j
  {
  }

  /** The outcome depends only on the lower-cased email and the password's
      length in code units: no other property of the password is inspected. */
  lemma AuthenticateDependsOnlyOn(users: seq<User>, e1: string, e2: string, p1: string, p2: string)
    requires Lower(e1) == Lower(e2) && Utf16Length(p1) == Utf16Length(p2)
    ensures Authenticate(users, e1, p1) == Authenticate(users, e2, p2)
  {
    assert forall x :: SameEmail(x, e1) <==> SameEmail(x, e2);
    assert HasUser(users, e1) <==> HasUser(users, e2);
    var r1, r2 := Authenticate(users, e1, p1), Authenticate(users, e2, p2);
    if r1.Ok? {
      var i :| IsFirstMatch(users, e1, i) && users[i] == r1.value;
      var j :| IsFirstMatch(users, e2, j) && users[j] == r2.value;
      assert IsFirstMatch(users, e1, j);
      FirstMatchUnique(users, e1, i, j);
    }
  }

  /** The state of the login screen. */
  class LoginForm {
    const users: seq<User>
    var email: string
    var password: string
    var error: string

    constructor(users: seq<User>)
      ensures this.users == users && email == "" && password == "" && error == ""
    {
      this.users := users;
      email, password, error := "", "", "";
    }

    method SetEmail(s: string)
      modifies this
      ensures email == s && password == old(password) && error == old(error)
    {
      email := s;
    }

    method SetPassword(s: string)
      modifies this
      ensures password == s && email == old(email) && error == old(error)
    {
      password := s;
    }

    /** Submitting the form. The previous error is cleared first, so the
        outcome is the login decision on the current email and password; the
        result is the user handed to `onLogin`, if any. Exactly one of the two
        outcomes happens: a user is handed over or an error is shown. */
    method HandleSubmit() returns (loggedIn: Option<User>)
      modifies this
      ensures email == old(email) && password == old(password)
      ensures match Authenticate(users, email, password)
              case Ok(u) => loggedIn == Some(u) && error == ""
              case Err(e) => loggedIn == None && error == ErrorMessage(e)
      ensures loggedIn.Some? <==> error == ""
    {
      error := "";
      var found := FindUser(users, email);
      if found.Some? {
        if Utf16Length(password) >= MinPasswordLength {
          loggedIn := Some(users[found.value]);
        } else {
          error := ErrorMessage(PasswordTooShort);
          loggedIn := None;
        }
      } else {
        error := ErrorMessage(UserNotFound);
        loggedIn := None;
      }
    }
  }

  /** The mock parent account logs in with an upper-cased email and a
      four-character password. */
  lemma ParentLogsIn()
    ensures Authenticate(MockUsers, "PAI@EMAIL.COM", "1234") == Ok(ParentUser)
  {
    assert Lower("PAI@EMAIL.COM") == "pai@email.com";
    assert Lower(AdminUser.email) == AdminUser.email;
    assert Lower(AdminUser.email)[0] != Lower("PAI@EMAIL.COM")[0];
    assert Lower(TeacherUser.email)[0] != Lower("PAI@EMAIL.COM")[0];
    assert IsFirstMatch(MockUsers, "PAI@EMAIL.COM", 2);
  }

  /** A three-character password is refused for an existing account. */
  lemma ShortPasswordRefused()
    ensures Authenticate(MockUsers, "pai@email.com", "123") == Err(PasswordTooShort)
  {
    assert SameEmail(ParentUser.email, "pai@email.com");
    assert ParentUser in MockUsers;
  }

  /** Two characters outside the Basic Multilingual Plane count as four code
      units, so such a password is long enough. */
  lemma AstralPasswordAccepted()
    ensures Authenticate(MockUsers, "pai@email.com", "\U{1F600}\U{1F600}") == Ok(ParentUser)
  {
    assert Utf16Length("\U{1F600}\U{1F600}") == 4;
    assert IsFirstMatch(MockUsers, "pai@email.com", 2) by {
      assert Lower(AdminUser.email)[0] != Lower("pai@email.com")[0];
      assert Lower(TeacherUser.email)[0] != Lower("pai@email.com")[0];
      assert Lower("pai@email.com") == Lower(ParentUser.email);
    }
  }
}
