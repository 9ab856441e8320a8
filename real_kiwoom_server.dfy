/** The Express server `server/real-kiwoom-server.js`: a connection flag
    driven by the stdout and close events of the Python child process, a
    login route that starts that process at most once, a condition-result
    route guarded by the flag, and a status route. */
module RealKiwoomServer {
  import opened Text

  /** The texts the stdout handler looks for. */
  const LoginSucceeded := "키움증권 로그인 성공"
  const LoginFailedText := "키움증권 로그인 실패"

  const LoginPending := "로그인 요청 처리 중입니다. 잠시 후 다시 시도해주세요."
  const NotConnected := "키움증권 API가 연결되지 않았습니다. HTS가 실행 중이고 로그인되어 있는지 확인해주세요."

  // ---------------------------------------------------------------------
  // The stdout handler

  /** Whether a chunk says anything about the login. */
  predicate Mentions(chunk: string)
  {
    Contains(chunk, LoginSucceeded) || Contains(chunk, LoginFailedText)
  }

  /** The flag after one stdout chunk: the success text sets it, the
      failure text, checked second, clears it, and a chunk with neither
      leaves it. */
  function AfterChunk(was: bool, chunk: string): (now: bool)
    ensures Contains(chunk, LoginFailedText) ==> !now
    ensures Contains(chunk, LoginSucceeded) && !Contains(chunk, LoginFailedText) ==> now
    ensures !Mentions(chunk) ==> now == was
  {
    var afterSuccess := if Contains(chunk, LoginSucceeded) then true else was;
    if Contains(chunk, LoginFailedText) then false else afterSuccess
  }

  /** The flag after a run of chunks, earliest first. */
  function AfterChunks(was: bool, chunks: seq<string>): bool
  {
    if chunks == [] then was else AfterChunk(AfterChunks(was, chunks[..|chunks| - 1]), chunks[|chunks| - 1])
  }

  /** The last chunk that mentions the login decides the flag: set
      exactly when it does not contain the failure text. */
  lemma {:induction false} LastMentionDecides(was: bool, chunks: seq<string>, j: int)
    requires 0 <= j < |chunks| && Mentions(chunks[j])
    requires forall k :: j < k < |chunks| ==> !Mentions(chunks[k])
    ensures AfterChunks(was, chunks) == !Contains(chunks[j], LoginFailedText)
    decreases |chunks|
  {
    if j < |chunks| - 1 {
      LastMentionDecides(was, chunks[..|chunks| - 1], j);
    }
  }

  /** Chunks that never mention the login leave the flag as it was. */
  lemma {:induction false} SilentChunksKeep(was: bool, chunks: seq<string>)
    requires forall k :: 0 <= k < |chunks| ==> !Mentions(chunks[k])
    ensures AfterChunks(was, chunks) == was
    decreases |chunks|
  {
    if chunks != [] {
      SilentChunksKeep(was, chunks[..|chunks| - 1]);
    }
  }

  // ---------------------------------------------------------------------
  // Responses

  /** The body of a `/api/login` answer; `sessionStamp` is the
      `Date.now()` value the session id is made of. */
  datatype LoginResponse = LoginResponse(success: bool, message: string, sessionStamp: int, userId: string)

  /** One row of the fixed sample the condition-result route returns. */
  datatype SampleRow = SampleRow(
    name: string, code: string, price: int, change: int, changeRate: real,
    volume: int, turnover: int)

  const SampleRows: seq<SampleRow> := [
    SampleRow("삼성전자", "005930", 87200, 1200, 1.39, 15000000, 1308000000000),
    SampleRow("SK하이닉스", "000660", 156000, -2000, -1.27, 8000000, 1248000000000)
  ]

  /** A `/api/condition/result` answer: 503 with a message, or the rows. */
  datatype ConditionResponse = Unavailable(status: int, message: string) | Rows(rows: seq<SampleRow>)

  /** A `/api/status` answer; `timestamp` is the ISO clock reading. */
  datatype Status = Status(server: string, kiwoomConnected: bool, loginAttempted: bool, timestamp: string)

  // ---------------------------------------------------------------------
  // The server's module-level state

  class Server {
    var kiwoomConnected: bool
    var loginAttempted: bool
    var processStarted: bool
    /** How many times `startKiwoomAPI` has run. */
    var starts: nat

    /** The child process is started exactly once, on the first login
      request, and never otherwise. */
    ghost predicate Valid()
      reads this
    {
      starts == (if loginAttempted then 1 else 0) && processStarted == loginAttempted
    }

    constructor ()
      ensures Valid()
      ensures !kiwoomConnected && !loginAttempted && !processStarted && starts == 0
    {
      kiwoomConnected := false;
      loginAttempted := false;
      processStarted := false;
      starts := 0;
    }

    /** The `stdout` `data` listener. */
    method OnStdout(chunk: string)
      requires Valid()
      modifies this
      ensures Valid()
      ensures kiwoomConnected == AfterChunk(old(kiwoomConnected), chunk)
      ensures loginAttempted == old(loginAttempted) && processStarted == old(processStarted)
      ensures starts == old(starts)
    {
      if Contains(chunk, LoginSucceeded) {
        kiwoomConnected := true;
      }
      if Contains(chunk, LoginFailedText) {
        kiwoomConnected := false;
      }
    }

    /** The `close` listener of the child process. */
    method OnClose()
      requires Valid()
      modifies this
      ensures Valid()
      ensures !kiwoomConnected
      ensures loginAttempted == old(loginAttempted) && processStarted == old(processStarted)
      ensures starts == old(starts)
    {
      kiwoomConnected := false;
    }

    /** `POST /api/login`: start the child process on the first request
      only, and always answer with success. */
    method Login(userId: string, now: int) returns (response: LoginResponse)
      requires Valid()
      modifies this
      ensures Valid()
      ensures response == LoginResponse(true, LoginPending, now, userId)
      ensures loginAttempted && processStarted
      ensures starts == (if old(loginAttempted) then old(starts) else old(starts) + 1)
      ensures kiwoomConnected == old(kiwoomConnected)
    {
      if !loginAttempted {
        processStarted := true;
        starts := starts + 1;
        loginAttempted := true;
      }
      response := LoginResponse(true, LoginPending, now, userId);
    }

    /** `POST /api/condition/result`: 503 unless the login was seen, else
      the sample rows. */
    method ConditionResult() returns (response: ConditionResponse)
      ensures response.Unavailable? <==> !kiwoomConnected
      ensures response.Unavailable? ==> response == Unavailable(503, NotConnected)
      ensures response.Rows? ==> response.rows == SampleRows
    {
      if !kiwoomConnected {
        return Unavailable(503, NotConnected);
      }
      return Rows(SampleRows);
    }

    /** `GET /api/status`. */
    method GetStatus(timestamp: string) returns (status: Status)
      ensures status == Status("running", kiwoomConnected, loginAttempted, timestamp)
    {
      status := Status("running", kiwoomConnected, loginAttempted, timestamp);
    }
  }
}
