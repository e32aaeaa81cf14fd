/**
 * WalletExceptionMapper and StatementExceptionMapper: the controller advice
 * that turns an exception code into the HTTP answer (error text, status).
 */
module ExceptionMappers {
  import opened Errors

  datatype HttpStatus = BadRequest | NotFound | InternalServerError | BadGateway
  {
    /** The numeric status line. */
    function Code(): int
    {
      match this
      case BadRequest => 400
      case NotFound => 404
      case InternalServerError => 500
      case BadGateway => 502
    }
  }

  /** ErrorResponse body and the status of the ResponseEntity. */
  datatype ErrorResponse = ErrorResponse(error: string, status: HttpStatus)

  const InternalServerErrorText: string := "INTERNAL_SERVER_ERROR"

  /** The codes WalletExceptionMapper has a case for. */
  predicate WalletHandled(c: WalletCode)
  {
    c.WalletDtoNull? || c.InvalidWalletDto? || c.InvalidWalletInputDto?
    || c.InvalidWalletInputIdDto? || c.WalletNotFound?
  }

  /** WalletExceptionMapper.exception: the error text starts as INTERNAL_SERVER_ERROR and is replaced by the code's name in each case. */
  function WalletResponse(c: WalletCode): (r: ErrorResponse)
    ensures WalletHandled(c) ==> r.error == WalletName(c)
    ensures !WalletHandled(c) ==> r == ErrorResponse(InternalServerErrorText, InternalServerError)
    ensures r.status == BadGateway <==> c == WalletDtoNull
    ensures r.status == BadRequest <==> c in {InvalidWalletDto, InvalidWalletInputDto, InvalidWalletInputIdDto}
    ensures r.status == NotFound <==> c == WalletNotFound
  {
    var error := ErrorResponse(InternalServerErrorText, InternalServerError);
    match c
    case WalletDtoNull => ErrorResponse(WalletName(WalletDtoNull), BadGateway)
    case InvalidWalletDto => ErrorResponse(WalletName(InvalidWalletDto), BadRequest)
    case InvalidWalletInputDto => ErrorResponse(WalletName(InvalidWalletInputDto), BadRequest)
    case InvalidWalletInputIdDto => ErrorResponse(WalletName(InvalidWalletInputIdDto), BadRequest)
    case WalletNotFound => ErrorResponse(WalletName(WalletNotFound), NotFound)
    case _ => error
  }

  /** StatementExceptionMapper.exception. Every StatementCode has its own case, so the default answer is never given. */
  function StatementResponse(c: StatementCode): (r: ErrorResponse)
    ensures r.error == StatementName(c)
    ensures r.status == BadRequest <==> c in {InvalidStatementDto, InvalidStatementInputDto}
    ensures r.status == NotFound <==> c in {StatementNotFound, ListStatementDateNotFound}
    ensures r.status != InternalServerError && r.status != BadGateway
  {
    match c
    case InvalidStatementDto => ErrorResponse(StatementName(InvalidStatementDto), BadRequest)
    case StatementNotFound => ErrorResponse(StatementName(StatementNotFound), NotFound)
    case ListStatementDateNotFound => ErrorResponse(StatementName(ListStatementDateNotFound), NotFound)
    case InvalidStatementInputDto => ErrorResponse(StatementName(InvalidStatementInputDto), BadRequest)
  }

  /**
   * A client can tell the handled wallet codes apart from the response alone,
   * and a 500 answer never names a code.
   */
  lemma WalletResponseIdentifiesCode(a: WalletCode, b: WalletCode)
    ensures WalletHandled(a) && WalletHandled(b) && WalletResponse(a) == WalletResponse(b) ==> a == b
    ensures WalletResponse(a).status == InternalServerError ==>
              WalletResponse(a).error == InternalServerErrorText && WalletResponse(a).error != WalletName(b)
    ensures WalletResponse(a).status.Code() in {400, 404, 500, 502}
  {
    WalletNameInjective(a, b);
  }

  /** Distinct statement codes always produce distinct responses. */
  lemma StatementResponseIdentifiesCode(a: StatementCode, b: StatementCode)
    ensures StatementResponse(a) == StatementResponse(b) ==> a == b
    ensures StatementResponse(a).status.Code() in {400, 404}
  {
    StatementNameInjective(a, b);
  }
}
