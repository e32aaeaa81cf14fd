/**
 * AuthCredentialService: sign-up, login, the token-derived user views, the
 * admin user list, profile update and password change over the credential
 * table. BCrypt is an uninterpreted `encode`; a password matches a stored
 * hash when encoding it yields that hash.
 */
module Credentials {
  import opened Results
  import opened JavaText
  import opened Errors
  import opened Accounts

  /** AuthCredentialDTO as posted to sign-up. */
  datatype SignUpInput = SignUpInput(
    firstName: string,
    lastName: string,
    dateOfBirth: string,
    email: string,
    username: string,
    password: string,
    role: string)

  /** AuthCredentialInputDTO. */
  datatype LoginInput = LoginInput(username: string, password: string)

  /** AuthCredentialToUpdateDTO: the profile fields; the username selects the row. */
  datatype UpdateInput = UpdateInput(
    firstName: string,
    lastName: string,
    dateOfBirth: string,
    email: string,
    username: string)

  /** AuthChangePasswordInputDTO. */
  datatype ChangePasswordInput = ChangePasswordInput(
    username: string,
    oldPassword: string,
    newPassword: string,
    confirmNewPassword: string)

  /** AuthResponseDTO. */
  datatype AuthResponse = UserAdded | UserUpdated | PasswordUpdated

  /** The four AuthenticationValidator checks, as predicates on their forms. */
  datatype Validators = Validators(
    credential: SignUpInput -> bool,
    input: LoginInput -> bool,
    toUpdate: UpdateInput -> bool,
    changePassword: ChangePasswordInput -> bool)

  /** BCryptPasswordEncoder.matches. */
  predicate Matches(encode: string -> string, raw: string, hash: string)
  {
    encode(raw) == hash
  }

  // ---------------------------------------------------------------------------
  // Reads

  /**
   * login: an unknown username and a wrong password give the same
   * WRONG_CREDENTIAL; on success the token is generated for the stored row.
   */
  function Login(v: Validators, encode: string -> string, ts: TokenService,
                 rows: seq<Credential>, input: LoginInput): (r: Result<string, AuthCode>)
    ensures !v.input(input) ==> r == Err(InvalidAuthInputDto)
    ensures v.input(input) && r.Err? ==> r.error == WrongCredential
    ensures r.Ok? <==> v.input(input) && FindByUsername(rows, input.username).Some?
                       && Matches(encode, input.password, FindByUsername(rows, input.username).value.password)
    ensures r.Ok? ==> r.value == ts.generate(ToDto(FindByUsername(rows, input.username).value))
  {
    if !v.input(input) then Err(InvalidAuthInputDto)
    else
      match FindByUsername(rows, input.username)
      case None => Err(WrongCredential)
      case Some(userEntity) =>
        if !Matches(encode, input.password, userEntity.password) then Err(WrongCredential)
        else Ok(ts.generate(ToDto(userEntity)))
  }

  /** Login cannot tell an unknown username from a wrong password. */
  lemma LoginFailuresIndistinguishable(v: Validators, encode: string -> string, ts: TokenService,
                                       rows: seq<Credential>, unknown: LoginInput, wrong: LoginInput)
    requires v.input(unknown) && v.input(wrong)
    requires FindByUsername(rows, unknown.username).None?
    requires FindByUsername(rows, wrong.username).Some?
    requires !Matches(encode, wrong.password, FindByUsername(rows, wrong.username).value.password)
    ensures Login(v, encode, ts, rows, unknown) == Login(v, encode, ts, rows, wrong) == Err(WrongCredential)
  {
  }

  /** getUser: the user the token names, straight from the token service. */
  function GetUser(ts: TokenService, token: string): (r: Result<UserDto, AuthCode>)
    ensures !ts.validate(token) ==> r == Err(InvalidTokenDto)
    ensures ts.validate(token) && ts.parse(token).None? ==> r == Err(Unauthorized)
    ensures r.Ok? <==> ts.validate(token) && ts.parse(token).Some?
    ensures r.Ok? ==> Some(r.value) == ts.parse(token)
  {
    if !ts.validate(token) then Err(InvalidTokenDto)
    else
      match ts.parse(token)
      case None => Err(Unauthorized)
      case Some(user) => Ok(user)
  }

  /**
   * getUsers: only a token whose role is ADMIN (ignoring case) gets the list,
   * which holds one view per stored row, in table order.
   */
  method GetUsers(ts: TokenService, rows: seq<Credential>, token: string) returns (r: Result<seq<UserDto>, AuthCode>)
    ensures !ts.validate(token) ==> r == Err(InvalidTokenDto)
    ensures ts.validate(token) && ts.parse(token).None? ==> r == Err(Unauthorized)
    ensures (ts.validate(token) && ts.parse(token).Some?
             && !EqualsIgnoreCase(ts.parse(token).value.role, AdminRole)) ==> r == Err(NotAllowed)
    ensures r.Ok? <==> ts.validate(token) && ts.parse(token).Some?
                       && EqualsIgnoreCase(ts.parse(token).value.role, AdminRole)
    ensures r.Ok? ==> |r.value| == |rows| && forall i :: 0 <= i < |rows| ==> r.value[i] == ToDto(rows[i])
  {
    if !ts.validate(token) {
      return Err(InvalidTokenDto);
    }
    var user := ts.parse(token);
    if user.None? {
      return Err(Unauthorized);
    }
    if !EqualsIgnoreCase(user.value.role, AdminRole) {
      return Err(NotAllowed);
    }
    var listUsers: seq<UserDto> := [];
    for k := 0 to |rows|
      invariant |listUsers| == k
      invariant forall i :: 0 <= i < k ==> listUsers[i] == ToDto(rows[i])
    {
      listUsers := listUsers + [ToDto(rows[k])];
    }
    return Ok(listUsers);
  }

  /**
   * getUpdateUser: the stored row of the token's username, re-read from the
   * table; a missing row is USER_NOT_MATCH.
   */
  function GetUpdateUser(ts: TokenService, rows: seq<Credential>, token: string): (r: Result<UserDto, AuthCode>)
    ensures !ts.validate(token) ==> r == Err(InvalidTokenDto)
    ensures ts.validate(token) && ts.parse(token).None? ==> r == Err(Unauthorized)
    ensures (ts.validate(token) && ts.parse(token).Some?
             && FindByUsername(rows, ts.parse(token).value.username).None?) ==> r == Err(UserNotMatch)
    ensures r.Ok? <==> ts.validate(token) && ts.parse(token).Some?
                       && FindByUsername(rows, ts.parse(token).value.username).Some?
    ensures r.Ok? ==> r.value == ToDto(FindByUsername(rows, ts.parse(token).value.username).value)
    ensures r.Ok? ==> r.value.username == ts.parse(token).value.username
                      && exists c :: c in rows && ToDto(c) == r.value
  {
    if !ts.validate(token) then Err(InvalidTokenDto)
    else
      match ts.parse(token)
      case None => Err(Unauthorized)
      case Some(parsed) =>
        match FindByUsername(rows, parsed.username)
        case None => Err(UserNotMatch)
        case Some(entity) => Ok(ToDto(entity))
  }

  /**
   * A token from a successful login, read back through a token service that
   * round-trips, names the user who logged in, and getUpdateUser finds the
   * same user.
   */
  lemma LoginTokenNamesUser(v: Validators, encode: string -> string, ts: TokenService,
                            rows: seq<Credential>, input: LoginInput)
    requires RoundTrips(ts)
    requires Login(v, encode, ts, rows, input).Ok?
    requires ts.validate(Login(v, encode, ts, rows, input).value)
    ensures var token := Login(v, encode, ts, rows, input).value;
            && GetUser(ts, token) == Ok(ToDto(FindByUsername(rows, input.username).value))
            && GetUpdateUser(ts, rows, token) == GetUser(ts, token)
  {
    var c := FindByUsername(rows, input.username).value;
    assert ts.parse(ts.generate(ToDto(c))) == Some(ToDto(c));
  }

  // ---------------------------------------------------------------------------
  // Writes to the table (the DAO's update statements)

  /** updateUserById: the row with the form's username takes the form's profile fields. */
  function WithProfile(rows: seq<Credential>, form: UpdateInput): (r: seq<Credential>)
    ensures |r| == |rows|
    ensures forall i :: 0 <= i < |rows| ==>
              && r[i].id == rows[i].id && r[i].username == rows[i].username
              && r[i].password == rows[i].password && r[i].role == rows[i].role
    ensures forall i :: 0 <= i < |rows| && rows[i].username != form.username ==> r[i] == rows[i]
    ensures forall i :: 0 <= i < |rows| && rows[i].username == form.username ==>
              && r[i].firstName == form.firstName && r[i].lastName == form.lastName
              && r[i].dateOfBirth == form.dateOfBirth && r[i].email == form.email
  {
    seq(|rows|, i requires 0 <= i < |rows| =>
      if rows[i].username == form.username
      then rows[i].(firstName := form.firstName, lastName := form.lastName,
                    dateOfBirth := form.dateOfBirth, email := form.email)
      else rows[i])
  }

  /** updatePasswordUserById: the row with this username takes the new hash. */
  function WithPassword(rows: seq<Credential>, username: string, hash: string): (r: seq<Credential>)
    ensures |r| == |rows|
    ensures forall i :: 0 <= i < |rows| && rows[i].username != username ==> r[i] == rows[i]
    ensures forall i :: 0 <= i < |rows| && rows[i].username == username ==> r[i] == rows[i].(password := hash)
  {
    seq(|rows|, i requires 0 <= i < |rows| =>
      if rows[i].username == username then rows[i].(password := hash) else rows[i])
  }

  /** After a password change the lookup finds the same row, carrying the new hash. */
  lemma {:induction false} FindAfterWithPassword(rows: seq<Credential>, username: string, hash: string)
    requires FindByUsername(rows, username).Some?
    ensures FindByUsername(WithPassword(rows, username, hash), username)
            == Some(FindByUsername(rows, username).value.(password := hash))
  {
    if rows[0].username != username {
      assert WithPassword(rows, username, hash)[1..] == WithPassword(rows[1..], username, hash);
      FindAfterWithPassword(rows[1..], username, hash);
    }
  }

  /** Once the password of a user has been changed, logging in with the new password succeeds. */
  lemma LoginWithNewPassword(v: Validators, encode: string -> string, ts: TokenService,
                             rows: seq<Credential>, username: string, newPassword: string)
    requires FindByUsername(rows, username).Some?
    requires v.input(LoginInput(username, newPassword))
    ensures Login(v, encode, ts, WithPassword(rows, username, encode(newPassword)), LoginInput(username, newPassword)).Ok?
  {
    FindAfterWithPassword(rows, username, encode(newPassword));
  }

  /** A user just signed up can log in with the password they chose. */
  lemma LoginAfterSignUp(v: Validators, encode: string -> string, ts: TokenService,
                         rows: seq<Credential>, c: Credential, password: string)
    requires FindByUsername(rows, c.username).None?
    requires c.password == encode(password)
    requires v.input(LoginInput(c.username, password))
    ensures Login(v, encode, ts, rows + [c], LoginInput(c.username, password)) == Ok(ts.generate(ToDto(c)))
  {
    FindByUsernameAppend(rows, c, c.username);
  }

  /**
   * Over a table with unique usernames (what signUp keeps), every stored user
   * who gives the password behind their hash logs in, and the token is made
   * for that user's own row, never for another row.
   */
  lemma EveryStoredUserLogsIn(v: Validators, encode: string -> string, ts: TokenService,
                              rows: seq<Credential>, i: int, password: string)
    requires UniqueUsernames(rows)
    requires 0 <= i < |rows|
    requires rows[i].password == encode(password)
    requires v.input(LoginInput(rows[i].username, password))
    ensures Login(v, encode, ts, rows, LoginInput(rows[i].username, password)) == Ok(ts.generate(ToDto(rows[i])))
  {
    FindByUsernameUnique(rows, i);
  }

  // ---------------------------------------------------------------------------
  // The service and the credential table it writes

  /** One more than the largest id in use (1 for an empty table): where generated keys continue. */
  function NextId(rows: seq<Credential>): (n: int)
    ensures forall i :: 0 <= i < |rows| ==> rows[i].id < n
    ensures n >= 1
  {
    if rows == [] then 1
    else
      var m := NextId(rows[..|rows| - 1]);
      if rows[|rows| - 1].id < m then m else rows[|rows| - 1].id + 1
  }

  class AuthCredentialService {
    var credentials: seq<Credential>
    var nextId: int
    const tokens: TokenService
    const encode: string -> string
    const validators: Validators

    /** Usernames identify rows, and the next id is above every id in use. */
    ghost predicate Valid()
      reads this
    {
      && UniqueUsernames(credentials)
      && forall i :: 0 <= i < |credentials| ==> credentials[i].id < nextId
    }

    /** The service over an existing credential table whose usernames are unique. */
    constructor (tokens: TokenService, encode: string -> string, validators: Validators,
                 rows: seq<Credential>)
      requires UniqueUsernames(rows)
      ensures Valid() && credentials == rows
      ensures this.tokens == tokens && this.encode == encode && this.validators == validators
    {
      this.tokens := tokens;
      this.encode := encode;
      this.validators := validators;
      credentials := rows;
      nextId := NextId(rows);
    }

    /**
     * signUp: the role is forced to USER before validation; a taken username
     * is refused before a taken email is looked at; only the BCrypt hash of
     * the password is stored.
     */
    method SignUp(input: SignUpInput) returns (r: Result<AuthResponse, AuthCode>)
      requires Valid()
      modifies this
      ensures Valid()
      ensures !validators.credential(input.(role := UserRole)) ==> r == Err(InvalidAuthCredentialDto)
      ensures (validators.credential(input.(role := UserRole))
               && FindByUsername(old(credentials), input.username).Some?) ==> r == Err(UserPresent)
      ensures (validators.credential(input.(role := UserRole))
               && FindByUsername(old(credentials), input.username).None?
               && FindByEmail(old(credentials), input.email).Some?) ==> r == Err(EmailPresent)
      ensures r.Ok? <==> validators.credential(input.(role := UserRole))
                         && FindByUsername(old(credentials), input.username).None?
                         && FindByEmail(old(credentials), input.email).None?
      ensures r.Ok? ==> r.value == UserAdded
      ensures r.Err? ==> credentials == old(credentials) && nextId == old(nextId)
      ensures r.Ok? ==>
                credentials == old(credentials) + [Credential(old(nextId), input.firstName, input.lastName,
                                                              input.dateOfBirth, input.email, input.username,
                                                              encode(input.password), UserRole)]
      ensures UniqueEmails(old(credentials)) ==> UniqueEmails(credentials)
      ensures r.Ok? ==> FindByUsername(credentials, input.username) == Some(credentials[|credentials| - 1])
    {
      var userCredential := input.(role := UserRole);
      if !validators.credential(userCredential) {
        return Err(InvalidAuthCredentialDto);
      }
      if FindByUsername(credentials, userCredential.username).Some? {
        return Err(UserPresent);
      }
      if FindByEmail(credentials, userCredential.email).Some? {
        return Err(EmailPresent);
      }
      userCredential := userCredential.(password := encode(userCredential.password));
      credentials := credentials + [Credential(nextId, userCredential.firstName, userCredential.lastName,
                                               userCredential.dateOfBirth, userCredential.email,
                                               userCredential.username, userCredential.password,
                                               userCredential.role)];
      FindByUsernameAppend(old(credentials), credentials[|credentials| - 1], input.username);
      nextId := nextId + 1;
      r := Ok(UserAdded);
    }

    /**
     * updateUser: a caller may only update the row whose username equals the
     * token's, ignoring case; otherwise USER_NOT_MATCH and nothing changes.
     */
    method UpdateUser(form: UpdateInput, token: string) returns (r: Result<AuthResponse, AuthCode>)
      requires Valid()
      modifies this`credentials
      ensures Valid()
      ensures !tokens.validate(token) ==> r == Err(InvalidTokenDto)
      ensures tokens.validate(token) && !validators.toUpdate(form) ==> r == Err(InvalidAuthInput)
      ensures (tokens.validate(token) && validators.toUpdate(form) && tokens.parse(token).None?) ==>
                r == Err(Unauthorized)
      ensures (tokens.validate(token) && validators.toUpdate(form) && tokens.parse(token).Some?
               && !EqualsIgnoreCase(form.username, tokens.parse(token).value.username)) ==> r == Err(UserNotMatch)
      ensures r.Ok? <==> tokens.validate(token) && validators.toUpdate(form) && tokens.parse(token).Some?
                         && EqualsIgnoreCase(form.username, tokens.parse(token).value.username)
      ensures r.Ok? ==> r.value == UserUpdated && credentials == WithProfile(old(credentials), form)
      ensures r.Err? ==> credentials == old(credentials)
    {
      if !tokens.validate(token) {
        return Err(InvalidTokenDto);
      }
      if !validators.toUpdate(form) {
        return Err(InvalidAuthInput);
      }
      var user := tokens.parse(token);
      if user.None? {
        return Err(Unauthorized);
      }
      if !EqualsIgnoreCase(form.username, user.value.username) {
        return Err(UserNotMatch);
      }
      credentials := WithProfile(credentials, form);
      r := Ok(UserUpdated);
    }

    /**
     * updatePassword: new and confirmation must agree (ignoring case) before
     * the token is parsed; the row is then looked up by the FORM's username,
     * its old password checked, and only then is the new hash stored.
     */
    method UpdatePassword(form: ChangePasswordInput, token: string) returns (r: Result<AuthResponse, AuthCode>)
      requires Valid()
      modifies this`credentials
      ensures Valid()
      ensures !tokens.validate(token) ==> r == Err(InvalidTokenDto)
      ensures tokens.validate(token) && !validators.changePassword(form) ==> r == Err(InvalidAuthInput)
      ensures (tokens.validate(token) && validators.changePassword(form)
               && !EqualsIgnoreCase(form.newPassword, form.confirmNewPassword)) ==> r == Err(PasswordNotMatch)
      ensures (tokens.validate(token) && validators.changePassword(form)
               && EqualsIgnoreCase(form.newPassword, form.confirmNewPassword)
               && tokens.parse(token).None?) ==> r == Err(Unauthorized)
      ensures (tokens.validate(token) && validators.changePassword(form)
               && EqualsIgnoreCase(form.newPassword, form.confirmNewPassword) && tokens.parse(token).Some?
               && FindByUsername(old(credentials), form.username).None?) ==> r == Err(UserNotFound)
      ensures (tokens.validate(token) && validators.changePassword(form)
               && EqualsIgnoreCase(form.newPassword, form.confirmNewPassword) && tokens.parse(token).Some?
               && FindByUsername(old(credentials), form.username).Some?
               && !Matches(encode, form.oldPassword, FindByUsername(old(credentials), form.username).value.password))
              ==> r == Err(WrongCredential)
      ensures r.Ok? <==> tokens.validate(token) && validators.changePassword(form)
                         && EqualsIgnoreCase(form.newPassword, form.confirmNewPassword) && tokens.parse(token).Some?
                         && FindByUsername(old(credentials), form.username).Some?
                         && Matches(encode, form.oldPassword, FindByUsername(old(credentials), form.username).value.password)
      ensures r.Ok? ==> r.value == PasswordUpdated
                        && credentials == WithPassword(old(credentials), form.username, encode(form.newPassword))
      ensures r.Err? ==> credentials == old(credentials)
    {
      if !tokens.validate(token) {
        return Err(InvalidTokenDto);
      }
      if !validators.changePassword(form) {
        return Err(InvalidAuthInput);
      }
      if !EqualsIgnoreCase(form.newPassword, form.confirmNewPassword) {
        return Err(PasswordNotMatch);
      }
      var user := tokens.parse(token);
      if user.None? {
        return Err(Unauthorized);
      }
      var entity := FindByUsername(credentials, form.username);
      if entity.None? {
        return Err(UserNotFound);
      }
      if !Matches(encode, form.oldPassword, entity.value.password) {
        return Err(WrongCredential);
      }
      var newPassword := encode(form.newPassword);
      credentials := WithPassword(credentials, form.username, newPassword);
      r := Ok(PasswordUpdated);
    }
  }
}
