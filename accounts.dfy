/**
 * What both services share: the credential row (AuthCredentialEntity), the
 * user view without password (AuthCredentialDTO), the token collaborator and
 * the credential table lookups (AuthCredentialDAO.getCredential, findByEmail).
 */
module Accounts {
  import opened Results

  /** SecurityRoles. */
  const UserRole: string := "USER"
  const AdminRole: string := "ADMIN"

  /** A row of the credential table; `password` holds the BCrypt hash. */
  datatype Credential = Credential(
    id: int,
    firstName: string,
    lastName: string,
    dateOfBirth: string,
    email: string,
    username: string,
    password: string,
    role: string)

  /** AuthCredentialDTO as the services build it: every field but the password. */
  datatype UserDto = UserDto(
    firstName: string,
    lastName: string,
    dateOfBirth: string,
    email: string,
    username: string,
    role: string)

  function ToDto(c: Credential): UserDto
  {
    UserDto(c.firstName, c.lastName, c.dateOfBirth, c.email, c.username, c.role)
  }

  /**
   * The token collaborators: TokenValidation.validateTokenDTO (`validate`,
   * false means INVALID_TOKEN_DTO), TokenService.parseToken (`parse`, None
   * means UNAUTHORIZED) and TokenService.generateToken (`generate`).
   */
  datatype TokenService = TokenService(
    validate: string -> bool,
    parse: string -> Option<UserDto>,
    generate: UserDto -> string)

  /** A token service whose tokens carry back exactly the user they were made for. */
  ghost predicate RoundTrips(ts: TokenService)
  {
    forall u :: ts.parse(ts.generate(u)) == Some(u)
  }

  /** getCredential: the row with this username, if any. */
  function FindByUsername(rows: seq<Credential>, username: string): (r: Option<Credential>)
    ensures r.Some? ==> r.value in rows && r.value.username == username
    ensures r.None? <==> forall i :: 0 <= i < |rows| ==> rows[i].username != username
  {
    if rows == [] then None
    else if rows[0].username == username then Some(rows[0])
    else
      var r := FindByUsername(rows[1..], username);
      assert forall i :: 1 <= i < |rows| ==> rows[i] == rows[1..][i - 1];
      r
  }

  /** findByEmail: the row with this email, if any. */
  function FindByEmail(rows: seq<Credential>, email: string): (r: Option<Credential>)
    ensures r.Some? ==> r.value in rows && r.value.email == email
    ensures r.None? <==> forall i :: 0 <= i < |rows| ==> rows[i].email != email
  {
    if rows == [] then None
    else if rows[0].email == email then Some(rows[0])
    else
      var r := FindByEmail(rows[1..], email);
      assert forall i :: 1 <= i < |rows| ==> rows[i] == rows[1..][i - 1];
      r
  }

  ghost predicate UniqueUsernames(rows: seq<Credential>)
  {
    forall i, j :: 0 <= i < j < |rows| ==> rows[i].username != rows[j].username
  }

  ghost predicate UniqueEmails(rows: seq<Credential>)
  {
    forall i, j :: 0 <= i < j < |rows| ==> rows[i].email != rows[j].email
  }

  /** Appending a row leaves earlier answers alone and answers its own username. */
  lemma {:induction false} FindByUsernameAppend(rows: seq<Credential>, c: Credential, username: string)
    ensures FindByUsername(rows, username).Some? ==>
              FindByUsername(rows + [c], username) == FindByUsername(rows, username)
    ensures FindByUsername(rows, username).None? ==>
              FindByUsername(rows + [c], username) == if c.username == username then Some(c) else None
  {
    if rows != [] {
      assert (rows + [c])[1..] == rows[1..] + [c];
      FindByUsernameAppend(rows[1..], c, username);
    }
  }

  /** With unique usernames, the lookup of a row's username finds that row. */
  lemma {:induction false} FindByUsernameUnique(rows: seq<Credential>, i: int)
    requires UniqueUsernames(rows)
    requires 0 <= i < |rows|
    ensures FindByUsername(rows, rows[i].username) == Some(rows[i])
  {
    if i > 0 {
      assert rows[0].username != rows[i].username;
      FindByUsernameUnique(rows[1..], i - 1);
    }
  }
}
