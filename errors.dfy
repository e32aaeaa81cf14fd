/**
 * The exception codes the core raises, one datatype per Java exception enum,
 * with the name each code prints as (Enum.toString()).
 */
module Errors {

  /** AuthenticationException.Code, as far as the core raises it. */
  datatype AuthCode =
    | TokenRequired
    | InvalidTokenDto
    | Unauthorized
    | UserNotFound
    | UserPresent
    | EmailPresent
    | WrongCredential
    | NotAllowed
    | UserNotMatch
    | PasswordNotMatch
    | InvalidAuthCredentialDto  // AuthenticationValidator on a sign-up form
    | InvalidAuthInputDto       // AuthenticationValidator on a login form
    | InvalidAuthInput          // AuthenticationValidator on an update or change-password form

  /** WalletException.Code: the codes the wallet mapper and the tests name. */
  datatype WalletCode =
    | WalletDtoNull
    | InvalidWalletDto
    | InvalidWalletInputDto
    | InvalidWalletInputIdDto
    | WalletNotFound
    | WalletUserNotFound
    | WalletCategoryNotFound
    | WalletStatementNotFound

  /** StatementException.Code. */
  datatype StatementCode =
    | InvalidStatementDto
    | StatementNotFound
    | ListStatementDateNotFound
    | InvalidStatementInputDto

  /** CategoryException.Code. */
  datatype CategoryCode = CategoryNotFound

  /** A failure of a service call: which exception class, carrying which code. */
  datatype ServiceError =
    | AuthFailure(auth: AuthCode)
    | WalletFailure(wallet: WalletCode)
    | StatementFailure(statement: StatementCode)

  function WalletName(c: WalletCode): string
  {
    match c
    case WalletDtoNull => "WALLET_DTO_NULL"
    case InvalidWalletDto => "INVALID_WALLET_DTO"
    case InvalidWalletInputDto => "INVALID_WALLET_INPUT_DTO"
    case InvalidWalletInputIdDto => "INVALID_WALLET_INPUT_ID_DTO"
    case WalletNotFound => "WALLET_NOT_FOUND"
    case WalletUserNotFound => "USER_NOT_FOUND"
    case WalletCategoryNotFound => "CATEGORY_NOT_FOUND"
    case WalletStatementNotFound => "STATEMENT_NOT_FOUND"
  }

  function StatementName(c: StatementCode): string
  {
    match c
    case InvalidStatementDto => "INVALID_STATEMENT_DTO"
    case StatementNotFound => "STATEMENT_NOT_FOUND"
    case ListStatementDateNotFound => "LIST_STATEMENT_DATE_NOT_FOUND"
    case InvalidStatementInputDto => "INVALID_STATEMENT_INPUT_DTO"
  }

  /** Distinct wallet codes print differently, and none prints as INTERNAL_SERVER_ERROR. */
  lemma WalletNameInjective(a: WalletCode, b: WalletCode)
    ensures WalletName(a) == WalletName(b) ==> a == b
    ensures WalletName(a) != "INTERNAL_SERVER_ERROR"
  {
  }

  /** Distinct statement codes print differently, and none prints as INTERNAL_SERVER_ERROR. */
  lemma StatementNameInjective(a: StatementCode, b: StatementCode)
    ensures StatementName(a) == StatementName(b) ==> a == b
    ensures StatementName(a) != "INTERNAL_SERVER_ERROR"
  {
  }
}
