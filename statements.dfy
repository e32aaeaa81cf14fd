/**
 * StatementService: the token-to-user guard, recording a dated balance
 * snapshot against a wallet, and the two per-user read queries.
 */
module Statements {
  import opened Results
  import opened JavaText
  import opened Errors
  import opened Accounts

  /** WalletEntity: only the fields this service carries along. */
  datatype Wallet = Wallet(id: int, name: string, categoryId: int, ownerId: int)

  /** StatementEntity. The value is a Java Double, carried and never computed on. */
  datatype Statement = Statement(date: string, value: real, user: Credential, wallet: Wallet)

  /** StatementInputDTO: a value, a DD-MM-YYYY date and a wallet id. */
  datatype StatementInput = StatementInput(value: real, date: string, walletId: int)

  /** StatementResponseDTO. */
  datatype StatementResponse = StatementAddedCorrect

  // ---------------------------------------------------------------------------
  // The guard

  /**
   * validateAndCreate: token shape, then emptiness, then the token service,
   * then the credential table. The user it returns is the credential row
   * named by the token, never anything the client supplied.
   */
  function ValidateAndCreate(ts: TokenService, users: seq<Credential>, token: string): (r: Result<Credential, AuthCode>)
    ensures !ts.validate(token) ==> r == Err(InvalidTokenDto)
    ensures ts.validate(token) && token == "" ==> r == Err(TokenRequired)
    ensures ts.validate(token) && token != "" && ts.parse(token).None? ==> r == Err(Unauthorized)
    ensures (ts.validate(token) && token != "" && ts.parse(token).Some?
             && FindByUsername(users, ts.parse(token).value.username).None?) ==> r == Err(UserNotFound)
    ensures r.Ok? <==> ts.validate(token) && token != "" && ts.parse(token).Some?
                       && FindByUsername(users, ts.parse(token).value.username).Some?
    ensures r.Ok? ==> r.value in users && r.value.username == ts.parse(token).value.username
  {
    EqualsIgnoreCaseEmpty(token);
    if !ts.validate(token) then Err(InvalidTokenDto)
    else if EqualsIgnoreCase(token, "") then Err(TokenRequired)
    else
      match ts.parse(token)
      case None => Err(Unauthorized)
      case Some(claim) =>
        match FindByUsername(users, claim.username)
        case None => Err(UserNotFound)
        case Some(user) => Ok(user)
  }

  /**
   * An empty token is never resolved to a user. When the token-shape check
   * lets the empty token through (StatementServiceTest expects exactly this:
   * an empty token fails with TOKEN_REQUIRED), the answer is TOKEN_REQUIRED.
   */
  lemma EmptyTokenNeverResolves(ts: TokenService, users: seq<Credential>)
    ensures ValidateAndCreate(ts, users, "").Err?
    ensures ValidateAndCreate(ts, users, "").error in {TokenRequired, InvalidTokenDto}
    ensures ts.validate("") ==> ValidateAndCreate(ts, users, "") == Err(TokenRequired)
  {
  }

  // ---------------------------------------------------------------------------
  // The date rewrite

  /** Dates the rewrite can be applied to: String.split("-") yields at least three fields. */
  predicate DateShaped(d: string)
  {
    |Split(d)| >= 3
  }

  /** A date of exactly three dash-free fields, the first and last non-empty (DD-MM-YYYY and YYYY-MM-DD alike). */
  predicate ThreeFields(d: string)
  {
    |Pieces(d)| == 3 && Pieces(d)[0] != "" && Pieces(d)[2] != ""
  }

  /**
   * The rewrite in addStatement: split on '-' and put the third, second and
   * first fields back together in that order. Splitting the result gives
   * the input's first three fields, reversed.
   */
  function ReformatDate(d: string): (r: string)
    requires DateShaped(d)
    ensures Pieces(r) == [Split(d)[2], Split(d)[1], Split(d)[0]]
  {
    var f := Split(d);
    PiecesCons(f[2], f[1] + "-" + f[0]);
    PiecesCons(f[1], f[0]);
    assert f[2] + "-" + f[1] + "-" + f[0] == f[2] + "-" + (f[1] + "-" + f[0]);
    f[2] + "-" + f[1] + "-" + f[0]
  }

  /** A three-field date splits into exactly its three fields. */
  lemma ThreeFieldsSplit(d: string)
    requires ThreeFields(d)
    ensures Split(d) == Pieces(d)
    ensures d == Pieces(d)[0] + "-" + Pieces(d)[1] + "-" + Pieces(d)[2]
  {
    var p := Pieces(d);
    JoinPieces(d);
    assert Join(p) == p[0] + "-" + Join(p[1..]);
    assert Join(p[1..]) == p[1] + "-" + Join(p[2..]);
    assert '-' in d;
  }

  /** The rewrite is its own inverse on three-field dates: DD-MM-YYYY and YYYY-MM-DD swap back and forth. */
  lemma ReformatDateInvolution(d: string)
    requires ThreeFields(d)
    ensures DateShaped(d)
    ensures ThreeFields(ReformatDate(d))
    ensures DateShaped(ReformatDate(d)) && ReformatDate(ReformatDate(d)) == d
  {
    ThreeFieldsSplit(d);
    var e := ReformatDate(d);
    ThreeFieldsSplit(e);
  }

  /** Any three dash-free fields a-b-c with a non-empty last field are stored as c-b-a. */
  lemma ReformatThreeParts(a: string, b: string, c: string)
    requires '-' !in a && '-' !in b && '-' !in c && c != ""
    ensures DateShaped(a + "-" + b + "-" + c)
    ensures ReformatDate(a + "-" + b + "-" + c) == c + "-" + b + "-" + a
  {
    var d := a + "-" + b + "-" + c;
    assert d == a + "-" + (b + "-" + c);
    PiecesCons(a, b + "-" + c);
    PiecesCons(b, c);
    assert Pieces(d) == [a, b, c];
    assert '-' in d by { assert d[|a|] == '-'; }
  }

  /** The example of the test suite: 01-01-2021 is stored as 2021-01-01. */
  lemma ReformatDateExample()
    ensures DateShaped("01-01-2021") && ReformatDate("01-01-2021") == "2021-01-01"
  {
    ReformatThreeParts("01", "01", "2021");
    assert "01" + "-" + "01" + "-" + "2021" == "01-01-2021";
    assert "2021" + "-" + "01" + "-" + "01" == "2021-01-01";
  }

  // ---------------------------------------------------------------------------
  // The statement table queries

  /** The dates on which a user has recorded a statement. */
  ghost function UserDates(rows: seq<Statement>, userId: int): set<string>
  {
    set s | s in rows && s.user.id == userId :: s.date
  }

  /**
   * statementDAO.selectdistinctstatement: each date of the user's rows once,
   * in order of first appearance in the table.
   */
  function DistinctDates(rows: seq<Statement>, userId: int): (r: seq<string>)
    ensures forall d :: d in r <==> d in UserDates(rows, userId)
    ensures forall i, j :: 0 <= i < j < |r| ==> r[i] != r[j]
  {
    if rows == [] then []
    else
      var prefix := rows[..|rows| - 1];
      var last := rows[|rows| - 1];
      var r := DistinctDates(prefix, userId);
      assert rows == prefix + [last];
      assert UserDates(rows, userId) ==
               UserDates(prefix, userId) + (if last.user.id == userId then {last.date} else {});
      if last.user.id == userId && last.date !in r then r + [last.date] else r
  }

  /**
   * statementDAO.findAllByUserIdAndDateOrderByWalletId: the user's rows on
   * that date, in table order.
   */
  function StatementsOn(rows: seq<Statement>, userId: int, date: string): (r: seq<Statement>)
    ensures forall s :: s in r <==> s in rows && s.user.id == userId && s.date == date
    ensures |r| <= |rows|
  {
    if rows == [] then []
    else (if rows[0].user.id == userId && rows[0].date == date then [rows[0]] else [])
         + StatementsOn(rows[1..], userId, date)
  }

  /** Appending a row to the table appends it to exactly the one query it matches. */
  lemma {:induction false} StatementsOnAppend(rows: seq<Statement>, s: Statement, userId: int, date: string)
    ensures StatementsOn(rows + [s], userId, date) ==
              StatementsOn(rows, userId, date) + (if s.user.id == userId && s.date == date then [s] else [])
  {
    if rows != [] {
      assert (rows + [s])[1..] == rows[1..] + [s];
      StatementsOnAppend(rows[1..], s, userId, date);
    }
  }

  /**
   * listOfDate: the distinct dates of the token user's statements; an empty
   * list is the error LIST_STATEMENT_DATE_NOT_FOUND.
   */
  function ListOfDate(ts: TokenService, users: seq<Credential>, rows: seq<Statement>, token: string)
    : (r: Result<seq<string>, ServiceError>)
    ensures ValidateAndCreate(ts, users, token).Err? ==>
              r == Err(AuthFailure(ValidateAndCreate(ts, users, token).error))
    ensures ValidateAndCreate(ts, users, token).Ok? ==>
              var user := ValidateAndCreate(ts, users, token).value;
              && (r.Ok? <==> UserDates(rows, user.id) != {})
              && (r.Err? ==> r.error == StatementFailure(ListStatementDateNotFound))
              && (r.Ok? ==> r.value == DistinctDates(rows, user.id))
  {
    match ValidateAndCreate(ts, users, token)
    case Err(e) => Err(AuthFailure(e))
    case Ok(user) =>
      var listDate := DistinctDates(rows, user.id);
      if |listDate| == 0 then
        assert forall d :: d !in UserDates(rows, user.id);
        Err(StatementFailure(ListStatementDateNotFound))
      else
        assert listDate[0] in UserDates(rows, user.id);
        Ok(listDate)
  }

  /**
   * listStatementByDate: the token user's statements on the given date; an
   * empty list is the error STATEMENT_NOT_FOUND.
   */
  function ListStatementByDate(ts: TokenService, users: seq<Credential>, rows: seq<Statement>, token: string, date: string)
    : (r: Result<seq<Statement>, ServiceError>)
    ensures ValidateAndCreate(ts, users, token).Err? ==>
              r == Err(AuthFailure(ValidateAndCreate(ts, users, token).error))
    ensures ValidateAndCreate(ts, users, token).Ok? ==>
              var user := ValidateAndCreate(ts, users, token).value;
              && (r.Ok? <==> exists s :: s in rows && s.user.id == user.id && s.date == date)
              && (r.Err? ==> r.error == StatementFailure(StatementNotFound))
              && (r.Ok? ==> r.value == StatementsOn(rows, user.id, date))
  {
    match ValidateAndCreate(ts, users, token)
    case Err(e) => Err(AuthFailure(e))
    case Ok(user) =>
      var statementList := StatementsOn(rows, user.id, date);
      if |statementList| == 0 then
        Err(StatementFailure(StatementNotFound))
      else
        assert statementList[0] in statementList;
        Ok(statementList)
  }

  /**
   * A statement saved for the token's user shows up at once in both reads:
   * its date is listed, and the list for that date gains exactly that
   * statement at its end.
   */
  lemma SavedStatementIsListed(ts: TokenService, users: seq<Credential>, rows: seq<Statement>, token: string, s: Statement)
    requires ValidateAndCreate(ts, users, token) == Ok(s.user)
    ensures ListOfDate(ts, users, rows + [s], token).Ok?
    ensures s.date in ListOfDate(ts, users, rows + [s], token).value
    ensures ListStatementByDate(ts, users, rows + [s], token, s.date) ==
              Ok(StatementsOn(rows, s.user.id, s.date) + [s])
  {
    assert s in rows + [s];
    assert s.date in UserDates(rows + [s], s.user.id);
    StatementsOnAppend(rows, s, s.user.id, s.date);
  }

  // ---------------------------------------------------------------------------
  // Recording a statement

  /**
   * The service with its collaborators: the statement table it appends to,
   * and the wallet table, credential table, token service and
   * StatementValidator it only reads.
   */
  class StatementService {
    var statements: seq<Statement>
    const wallets: map<int, Wallet>
    const users: seq<Credential>
    const tokens: TokenService
    const inputValid: StatementInput -> bool

    /** StatementValidator admits only dates that split into at least three fields. */
    ghost predicate ValidatorChecksDate()
    {
      forall i :: inputValid(i) ==> DateShaped(i.date)
    }

    constructor (wallets: map<int, Wallet>, users: seq<Credential>, tokens: TokenService,
                 inputValid: StatementInput -> bool, statements: seq<Statement>)
      ensures this.wallets == wallets && this.users == users && this.tokens == tokens
      ensures this.inputValid == inputValid && this.statements == statements
    {
      this.wallets := wallets;
      this.users := users;
      this.tokens := tokens;
      this.inputValid := inputValid;
      this.statements := statements;
    }

    /**
     * addStatement: validate the input, resolve the user from the token,
     * look the wallet up by id (its owner is not compared with the user),
     * rewrite the date to YYYY-MM-DD and save one statement.
     */
    method AddStatement(token: string, input: StatementInput) returns (r: Result<StatementResponse, ServiceError>)
      requires ValidatorChecksDate()
      modifies this
      ensures !inputValid(input) ==> r == Err(StatementFailure(InvalidStatementInputDto))
      ensures inputValid(input) && ValidateAndCreate(tokens, users, token).Err? ==>
                r == Err(AuthFailure(ValidateAndCreate(tokens, users, token).error))
      ensures inputValid(input) && ValidateAndCreate(tokens, users, token).Ok? && input.walletId !in wallets ==>
                r == Err(WalletFailure(WalletNotFound))
      ensures r.Ok? <==> inputValid(input) && ValidateAndCreate(tokens, users, token).Ok? && input.walletId in wallets
      ensures r.Err? ==> statements == old(statements)
      ensures r.Ok? ==>
                statements == old(statements) + [Statement(ReformatDate(input.date), input.value,
                                                           ValidateAndCreate(tokens, users, token).value,
                                                           wallets[input.walletId])]
    {
      if !inputValid(input) {
        return Err(StatementFailure(InvalidStatementInputDto));
      }
      var date := input.date;
      var value := input.value;
      var guard := ValidateAndCreate(tokens, users, token);
      if guard.Err? {
        return Err(AuthFailure(guard.error));
      }
      var user := guard.value;
      if input.walletId !in wallets {
        return Err(WalletFailure(WalletNotFound));
      }
      var wallet := wallets[input.walletId];
      date := ReformatDate(date);
      statements := statements + [Statement(date, value, user, wallet)];
      r := Ok(StatementAddedCorrect);
    }
  }
}
