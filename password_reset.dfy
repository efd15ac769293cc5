/**
 * main.py: the password-reset flow. Reset tokens live in the in-memory
 * dictionary `reset_tokens`, from token to username; the `users` table
 * (models.py, with unique usernames and unique emails) is a sequence of
 * records. The token itself, drawn by `secrets.token_urlsafe`, and the
 * password hash, computed by bcrypt, are parameters; the e-mail is not sent.
 */
module PasswordReset {
  import opened Wrappers

  datatype UserRecord = UserRecord(username: string, email: string, hashedPassword: string)

  /** The pages the two reset handlers answer with. */
  datatype ResetOutcome = Invalid | Redirect(location: string, status: nat)

  /** `get_user_by_username`: the position of the one user with that name. */
  function IndexOfUsername(users: seq<UserRecord>, name: string): (r: Option<nat>)
    ensures r.Some? ==> r.value < |users| && users[r.value].username == name
    ensures r.None? ==> forall j :: 0 <= j < |users| ==> users[j].username != name
  {
    if users == [] then None
    else if users[0].username == name then Some(0)
    else match IndexOfUsername(users[1..], name)
      case None => None
      case Some(i) => Some(i + 1)
  }

  /** `get_user_by_email`: the position of the one user with that address. */
  function IndexOfEmail(users: seq<UserRecord>, email: string): (r: Option<nat>)
    ensures r.Some? ==> r.value < |users| && users[r.value].email == email
    ensures r.None? ==> forall j :: 0 <= j < |users| ==> users[j].email != email
  {
    if users == [] then None
    else if users[0].email == email then Some(0)
    else match IndexOfEmail(users[1..], email)
      case None => None
      case Some(i) => Some(i + 1)
  }

  /** The unique constraints of the `users` table. */
  predicate UniqueUsers(users: seq<UserRecord>) {
    forall i, j :: 0 <= i < j < |users| ==> users[i].username != users[j].username && users[i].email != users[j].email
  }

  /** What a token redeems to: the user it names, when the token is known,
      names someone (`if not username` also rejects the empty name) and that
      user exists. */
  function Redeemable(tokens: map<string, string>, users: seq<UserRecord>, token: string): (r: Option<nat>)
    ensures r.Some? <==> token in tokens && tokens[token] != "" && IndexOfUsername(users, tokens[token]).Some?
    ensures r.Some? ==> r.value < |users| && users[r.value].username == tokens[token]
  {
    if token in tokens && tokens[token] != "" then IndexOfUsername(users, tokens[token]) else None
  }

  class ResetService {
    /** The `users` table. */
    var users: seq<UserRecord>
    /** `reset_tokens` */
    var resetTokens: map<string, string>

    predicate Valid()
      reads this
    {
      UniqueUsers(users)
    }

    /** The application starts with no reset tokens. */
    constructor (initialUsers: seq<UserRecord>)
      requires UniqueUsers(initialUsers)
      ensures Valid() && users == initialUsers && resetTokens == map[]
    {
      users := initialUsers;
      resetTokens := map[];
    }

    /** `forgot_password_submit`: for a known address the fresh token is
      recorded for that user; an unknown address changes nothing. The answer
      page is the same either way. */
    method ForgotPasswordSubmit(email: string, token: string)
      requires Valid()
      modifies this
      ensures Valid() && users == old(users)
      ensures IndexOfEmail(users, email).None? ==> resetTokens == old(resetTokens)
      ensures IndexOfEmail(users, email).Some? ==>
        resetTokens == old(resetTokens)[token := users[IndexOfEmail(users, email).value].username]
    {
      var user := IndexOfEmail(users, email);
      if user.Some? {
        resetTokens := resetTokens[token := users[user.value].username];
      }
    }

    /** `reset_password_page`: the form is shown exactly for a token that maps
      to a non-empty username. */
    function ResetPasswordPage(token: string): (shown: bool)
      reads this
      ensures shown <==> token in resetTokens && resetTokens[token] != ""
    {
      token in resetTokens && resetTokens[token] != ""
    }

    /** `reset_password_submit`: a token that does not redeem leaves every
      password and every token as it was; one that does sets that user's
      hash, deletes the token, and redirects to the login page with 303. */
    method ResetPasswordSubmit(token: string, password: string, hash: string -> string) returns (r: ResetOutcome)
      requires Valid()
      modifies this
      ensures Valid()
      ensures Redeemable(old(resetTokens), old(users), token).None? ==>
        r == Invalid && users == old(users) && resetTokens == old(resetTokens)
      ensures Redeemable(old(resetTokens), old(users), token).Some? ==>
        var i := Redeemable(old(resetTokens), old(users), token).value;
        && r == Redirect("/login", 303)
        && users == old(users)[i := old(users)[i].(hashedPassword := hash(password))]
        && resetTokens == old(resetTokens) - {token}
    {
      if token !in resetTokens || resetTokens[token] == "" {
        return Invalid;
      }
      var user := IndexOfUsername(users, resetTokens[token]);
      if user.None? {
        return Invalid;
      }
      var i := user.value;
      users := users[i := users[i].(hashedPassword := hash(password))];
      resetTokens := resetTokens - {token};
      r := Redirect("/login", 303);
    }
  }

  /** A reset token is single-use: once it has reset a password, submitting
      it again is rejected and changes nothing. */
  method SubmitTwice(service: ResetService, token: string, first: string, second: string, hash: string -> string)
    returns (r1: ResetOutcome, r2: ResetOutcome)
    requires service.Valid()
    modifies service
    ensures r1.Redirect? ==> r2 == Invalid
    ensures r1 == Invalid ==> r2 == Invalid && service.users == old(service.users)
  {
    r1 := service.ResetPasswordSubmit(token, first, hash);
    r2 := service.ResetPasswordSubmit(token, second, hash);
  }

  /** Issuing a token for a known address makes the reset form available for
      it, and it then redeems to that user. */
  method IssueThenRedeem(service: ResetService, email: string, token: string)
    requires service.Valid()
    requires IndexOfEmail(service.users, email).Some?
    modifies service
    ensures service.Valid() && service.users == old(service.users)
    ensures service.ResetPasswordPage(token) <==> service.users[IndexOfEmail(service.users, email).value].username != ""
    ensures service.ResetPasswordPage(token) ==>
      Redeemable(service.resetTokens, service.users, token) == IndexOfEmail(service.users, email)
  {
    service.ForgotPasswordSubmit(email, token);
    UniqueLookup(service.users, email);
  }

  /** With unique usernames, looking up the username of the user found by
      address finds the same user. */
  lemma UniqueLookup(users: seq<UserRecord>, email: string)
    requires UniqueUsers(users)
    requires IndexOfEmail(users, email).Some?
    ensures IndexOfUsername(users, users[IndexOfEmail(users, email).value].username) == IndexOfEmail(users, email)
  {
    var i := IndexOfEmail(users, email).value;
    assert IndexOfUsername(users, users[i].username).Some?;
  }
}
