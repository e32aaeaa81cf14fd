# MoneyStats: authorization guard, statement recorder and credential service

A Dafny model of the decision logic at the centre of MoneyStats, a personal-finance
service in which users keep wallets (accounts) grouped by category and record dated
balance snapshots ("statements") against them. The model covers:

- **StatementService**: the guard `validateAndCreate`, which turns an access token into
  the credential row of the acting user; `addStatement`, which validates its input,
  authorizes, resolves the wallet by id, rewrites the date from `DD-MM-YYYY` to
  `YYYY-MM-DD` and appends one statement; and the two reads `listOfDate` and
  `listStatementByDate`, for which an empty answer is an error.
- **AuthCredentialService**: sign-up, login, the token-derived user views, the admin
  list of users, profile update and password change over the credential table.
- **WalletExceptionMapper** and **StatementExceptionMapper**: exception code to
  (error text, HTTP status).
- **CategoryService**: the category list, where an empty table is an error.

Files: `results.dfy` (Option, Result), `java_text.dfy` (`String.equalsIgnoreCase` and
`String.split("-")`), `errors.dfy` (the exception codes and their names), `accounts.dfy`
(credential rows, the token collaborator, credential lookups), `statements.dfy`,
`credentials.dfy`, `exception_mappers.dfy`, `categories.dfy`.

Collaborators are parameters. The token service is a record of three functions:
`validate` stands for `TokenValidation.validateTokenDTO` (false means `INVALID_TOKEN_DTO`),
`parse` for `TokenService.parseToken` (`None` means `UNAUTHORIZED`) and `generate` for
`generateToken`. BCrypt is an uninterpreted `encode`, and `matches(raw, hash)` holds when
`encode(raw) == hash`. The bean-validation checks (`StatementValidator`,
`AuthenticationValidator`) are abstract predicates on their forms. The tables are values:
the credential table and statement table are sequences, and the wallet table is a map
from id to wallet. The credential and statement tables are fields of the class of the
service that writes them.

Behaviour the model keeps on purpose, as the code has it:

- `addStatement` resolves the wallet by id only. A statement can be attached to a wallet
  owned by another user: the success condition of `Statements.StatementService.AddStatement`
  does not mention the wallet's owner (StatementService.java:52-53).
- `updatePassword` looks the row up by the username in the form, not the token's username.
  Any holder of a valid token who knows another user's old password can change that
  user's password (AuthCredentialService.java:249-251).
- `updatePassword` compares the new password with its confirmation ignoring case, so
  `Secret` confirmed as `SECRET` passes, and the hash of `Secret` is stored.
- Only the statement guard tests for an empty token (`TOKEN_REQUIRED`). If the token-shape
  check lets the empty token through, as the statement tests expect, the credential
  service's token operations hand it straight to the token service.
- The date rewrite uses the first three fields of Java's split. Further fields are
  dropped, so `01-02-2021-x` is stored as `2021-02-01`.
- `WalletControllerTest.java:229-239` expects 404 for the wallet code `STATEMENT_NOT_FOUND`.
  `WalletExceptionMapper` has no case for that code and answers 500. The model follows the
  mapper: `ExceptionMappers.WalletResponse` gives `INTERNAL_SERVER_ERROR`/500 for every
  code outside its five cases.

## Model

| member | source | states |
|---|---|---|
| `JavaText.Split` | src/main/java/com/moneystats/MoneyStats/commStats/statement/StatementService.java:58 | `split("-")` returns dash-free fields: a string with no dash comes back whole; otherwise all the pieces, less exactly the trailing empty ones |
| `JavaText.JoinPieces` | src/main/java/com/moneystats/MoneyStats/commStats/statement/StatementService.java:58 | splitting on `-` loses nothing: joining the pieces with `-` gives back the string |
| `JavaText.EqualsIgnoreCaseEmpty` | src/main/java/com/moneystats/MoneyStats/commStats/statement/StatementService.java:129 | `token.equalsIgnoreCase("")` holds exactly for the empty token |
| `Accounts.FindByUsername` | src/main/java/com/moneystats/authentication/AuthCredentialService.java:45-47 | `getCredential` returns a row of the table with the asked username, and returns none exactly when no row has it |
| `Accounts.FindByEmail` | src/main/java/com/moneystats/authentication/AuthCredentialService.java:53-54 | `findByEmail` returns a row with the asked email, and returns none exactly when no row has it |
| `Accounts.FindByUsernameAppend` | src/main/java/com/moneystats/authentication/AuthCredentialService.java:60 | inserting a row keeps every earlier lookup's answer, and a lookup of the new username now finds the new row |
| `Accounts.FindByUsernameUnique` | src/main/java/com/moneystats/authentication/AuthCredentialService.java:45-50 | with unique usernames, looking up a row's username finds that row |
| `Statements.ValidateAndCreate` | src/main/java/com/moneystats/MoneyStats/commStats/statement/StatementService.java:126-142 | checks run in the order token shape, then emptiness, then parsing, then credential lookup, with errors `INVALID_TOKEN_DTO`, `TOKEN_REQUIRED`, `UNAUTHORIZED`, `USER_NOT_FOUND`; success iff all pass, and the user returned is a stored row whose username is the token's |
| `Statements.EmptyTokenNeverResolves` | src/main/java/com/moneystats/MoneyStats/commStats/statement/StatementService.java:128-131 | an empty token never yields a user; it fails with `TOKEN_REQUIRED` whenever the token-shape check admits the empty token (as StatementServiceTest.java:168-178 and 274-285 expect), and otherwise earlier with `INVALID_TOKEN_DTO` |
| `Statements.ReformatDate` | src/main/java/com/moneystats/MoneyStats/commStats/statement/StatementService.java:58-59 | splitting the stored date gives the input's first three fields in reverse order |
| `Statements.ThreeFieldsSplit` | src/main/java/com/moneystats/MoneyStats/commStats/statement/StatementService.java:58 | a date of three dash-free fields (first and last non-empty) splits into exactly those fields and is their `-`-join |
| `Statements.ReformatDateInvolution` | src/main/java/com/moneystats/MoneyStats/commStats/statement/StatementService.java:58-60 | on three-field dates the rewrite is self-inverse: rewriting the stored date again gives back the input |
| `Statements.ReformatThreeParts` | src/main/java/com/moneystats/MoneyStats/commStats/statement/StatementService.java:58-59 | `a-b-c` is stored as `c-b-a` |
| `Statements.ReformatDateExample` | src/test/java/com/moneystats/MoneyStats/statementTest/StatementServiceTest.java:394 | the test input `01-01-2021` is stored as `2021-01-01` |
| `Statements.DistinctDates` | src/main/java/com/moneystats/MoneyStats/commStats/statement/StatementService.java:82 | the distinct-date query holds each date of the user's statements, and only those, each once |
| `Statements.StatementsOn` | src/main/java/com/moneystats/MoneyStats/commStats/statement/StatementService.java:102-103 | the by-date query holds exactly the statements of that user on that date |
| `Statements.StatementsOnAppend` | src/main/java/com/moneystats/MoneyStats/commStats/statement/StatementService.java:68 | saving a statement appends it to the one (user, date) list it matches and leaves every other list unchanged |
| `Statements.ListOfDate` | src/main/java/com/moneystats/MoneyStats/commStats/statement/StatementService.java:78-89 | guard errors pass through unchanged; otherwise the call succeeds iff the user has a statement, returns the date query's list unchanged, and fails with `LIST_STATEMENT_DATE_NOT_FOUND` when the list is empty |
| `Statements.ListStatementByDate` | src/main/java/com/moneystats/MoneyStats/commStats/statement/StatementService.java:98-110 | guard errors pass through unchanged; otherwise the call succeeds iff the user has a statement on that date, returns exactly the query's list, and fails with `STATEMENT_NOT_FOUND` when the list is empty |
| `Statements.SavedStatementIsListed` | src/main/java/com/moneystats/MoneyStats/commStats/statement/StatementService.java:61-68 | after a statement is saved for the token's user, its date is listed, and the list for that date is the old list plus exactly that statement |
| `Statements.StatementService.constructor` | src/main/java/com/moneystats/MoneyStats/commStats/statement/StatementService.java:31-34 | the service is built from its tables, token service and validator |
| `Statements.StatementService.AddStatement` | src/main/java/com/moneystats/MoneyStats/commStats/statement/StatementService.java:44-70 | invalid input fails with `INVALID_STATEMENT_INPUT_DTO` whatever the token; then guard errors; then `WALLET_NOT_FOUND`; any failure leaves the table unchanged; success appends one statement with the rewritten date, the input value, the token's user and the looked-up wallet (its owner is not checked) |
| `Credentials.Login` | src/main/java/com/moneystats/authentication/AuthCredentialService.java:72-105 | an invalid form gives `INVALID_AUTH_INPUT_DTO`; after validation the only error is `WRONG_CREDENTIAL`; success iff the user exists and the password matches; the token is generated for the stored row's view |
| `Credentials.LoginFailuresIndistinguishable` | src/main/java/com/moneystats/authentication/AuthCredentialService.java:74-84 | an unknown username and a wrong password produce the same answer |
| `Credentials.GetUser` | src/main/java/com/moneystats/authentication/AuthCredentialService.java:115-118 | a malformed token gives `INVALID_TOKEN_DTO` and a rejected one `UNAUTHORIZED`; otherwise the result is exactly the user the token names |
| `Credentials.GetUsers` | src/main/java/com/moneystats/authentication/AuthCredentialService.java:128-149 | `NOT_ALLOWED` unless the token's role equals ADMIN ignoring case; an admin gets one view per stored row, in table order |
| `Credentials.GetUpdateUser` | src/main/java/com/moneystats/authentication/AuthCredentialService.java:159-181 | succeeds iff the token is well formed, parses, and its username has a stored row; then returns that row's view; a missing row is `USER_NOT_MATCH` |
| `Credentials.LoginTokenNamesUser` | src/main/java/com/moneystats/authentication/AuthCredentialService.java:96-118 | with a token service whose tokens decode to the user they were made for, the login token read back by `getUser` names the user who logged in, and `getUpdateUser` agrees |
| `Credentials.WithProfile` | src/main/java/com/moneystats/authentication/AuthCredentialService.java:207 | the profile update changes only the row with the form's username, and in it only name, birth date and email; ids, usernames, hashes and roles stay |
| `Credentials.WithPassword` | src/main/java/com/moneystats/authentication/AuthCredentialService.java:270-271 | the password update replaces the hash of the row with that username and changes nothing else |
| `Credentials.FindAfterWithPassword` | src/main/java/com/moneystats/authentication/AuthCredentialService.java:251-271 | after the password update the lookup finds the same row, now carrying the new hash |
| `Credentials.LoginWithNewPassword` | src/main/java/com/moneystats/authentication/AuthCredentialService.java:260-271 | after a password change, login with the new password succeeds |
| `Credentials.LoginAfterSignUp` | src/main/java/com/moneystats/authentication/AuthCredentialService.java:59-60 | a user just signed up, whose row stores the hash of their password, logs in with that password |
| `Credentials.EveryStoredUserLogsIn` | src/main/java/com/moneystats/authentication/AuthCredentialService.java:72-105 | over a table with unique usernames, as sign-up keeps it, every stored user who gives the password behind their hash logs in, and the token is made for that user's own row |
| `Credentials.AuthCredentialService.constructor` | src/main/java/com/moneystats/authentication/AuthCredentialService.java:22-26 | the service starts from its collaborators and a given table with unique usernames; new ids continue above every id in use |
| `Credentials.AuthCredentialService.SignUp` | src/main/java/com/moneystats/authentication/AuthCredentialService.java:38-62 | the role is forced to USER before validation; `USER_PRESENT` is checked before `EMAIL_PRESENT`; failures insert nothing; success appends one row holding `encode(password)` and the USER role; unique usernames (and unique emails, when they held) are kept; after success the username lookup finds the new row |
| `Credentials.AuthCredentialService.UpdateUser` | src/main/java/com/moneystats/authentication/AuthCredentialService.java:192-209 | `USER_NOT_MATCH`, and no update, when the form's username differs from the token's ignoring case; success applies the profile update |
| `Credentials.AuthCredentialService.UpdatePassword` | src/main/java/com/moneystats/authentication/AuthCredentialService.java:223-273 | `PASSWORD_NOT_MATCH` is decided before the token is parsed; then `UNAUTHORIZED`, `USER_NOT_FOUND` and `WRONG_CREDENTIAL` in that order; the table changes only after all pass, and then gets `encode(newPassword)` for the form's username |
| `Errors.WalletNameInjective` | src/main/java/com/moneystats/MoneyStats/commStats/wallet/WalletExceptionMapper.java:18-32 | distinct wallet codes have distinct names, none of them `INTERNAL_SERVER_ERROR` |
| `Errors.StatementNameInjective` | src/main/java/com/moneystats/MoneyStats/commStats/statement/StatementExceptionMapper.java:19-30 | distinct statement codes have distinct names, none of them `INTERNAL_SERVER_ERROR` |
| `ExceptionMappers.WalletResponse` | src/main/java/com/moneystats/MoneyStats/commStats/wallet/WalletExceptionMapper.java:14-35 | `WALLET_DTO_NULL` gives 502; the three invalid-input codes give 400; `WALLET_NOT_FOUND` gives 404; each handled code's error text is its name; every other code gives `INTERNAL_SERVER_ERROR`/500 |
| `ExceptionMappers.StatementResponse` | src/main/java/com/moneystats/MoneyStats/commStats/statement/StatementExceptionMapper.java:15-33 | the two invalid codes give 400 and the two not-found codes give 404; the error text is the code's name |
| `ExceptionMappers.WalletResponseIdentifiesCode` | src/main/java/com/moneystats/MoneyStats/commStats/wallet/WalletExceptionMapper.java:15-34 | handled codes are told apart by their response; a 500 response never names a code; statuses are among 400/404/500/502 |
| `ExceptionMappers.StatementResponseIdentifiesCode` | src/main/java/com/moneystats/MoneyStats/commStats/statement/StatementExceptionMapper.java:16-32 | distinct statement codes give distinct responses, always 400 or 404 |
| `Categories.CategoryList` | src/main/java/com/moneystats/MoneyStats/commStats/category/CategoryService.java:27-36 | an empty table fails with `CATEGORY_NOT_FOUND`; otherwise the rows come back exactly and non-empty; the table is only read |

## Left out

- Dashboard assembly and wallet CRUD (`WalletService`): WalletService is not part of this model.
- JWT parsing, signing and generation (`TokenService`, `TokenValidation`): abstract functions. Every parse failure is `UNAUTHORIZED`, though the real service may raise other codes.
- BCrypt: `encode` is a deterministic uninterpreted function. The random salt is not modelled.
- The bean-validation rules (`StatementValidator`, `AuthenticationValidator`): abstract predicates. The statement validator is required to admit only dates that split into at least three fields, since the rewrite indexes the third field. The validation codes for the update and change-password forms are not visible, so both are `InvalidAuthInput`.
- `SecurityRoles` is not part of this model. The roles are taken to be `USER` and `ADMIN`.
- The DAO queries: the distinct-date query lists dates in order of first insertion, and the by-date query returns rows in table order. The repository's `ORDER BY` (newest date first, wallet id ascending) is not modelled. Credential lookups match usernames exactly; database collation is not modelled.
- `AuthCredentialToUpdateDTO` and the `updateUserById` statement are not part of this model. The update is taken to select the row by the form's username and to set first name, last name, birth date and email.
- Row ids come from a counter in the service, standing in for the database's generated keys.
- The HTTP request header and IP logging in `login`, and all logging: I/O only.
- Statement values are Java `Double`s; they are carried as `real` and never computed on.
- In-place mutation of the caller's DTOs (`setRole`, `setPassword`, `setDate`) is modelled on local copies. The caller's object is not modelled, since no caller reads it back.
- `ExceptionMappers.StatementResponse`: the mapper's default branch cannot be reached, because every `StatementException` code visible in the repository has its own case. The "any other code gives 500" rule therefore holds vacuously.
- `Credentials.AuthCredentialService.UpdatePassword`: the `user == null` branch after `parseToken` is not modelled. A failed parse is `UNAUTHORIZED`, so no null user reaches it (as written, it would throw a NullPointerException).
- `Statements.EmptyTokenNeverResolves`: `TokenValidation` is not part of this model, so whether its shape check admits the empty token stays a parameter. `TOKEN_REQUIRED` is proved for every token service whose shape check admits it.
- `JavaText.EqualsIgnoreCase` folds ASCII letters only; Unicode case folding is not modelled.
- The browser UI (`loginPage.js`) and the `DatabaseException`/`WebException` holders: no logic to model.
