/** The write entry points (RawQuery, InsertQuery, UpdateQuery, DeleteQuery):
    admission, opening a handle, executing a statement that returns no rows. */
module Executor {
  import opened Envelope
  import opened Driver
  import opened Gate

  /** Where a write call stopped. */
  datatype Stage = Refused(verdict: Verdict) | ConnectionFailed(msg: string) | StatementFailed(msg: string) | Executed

  /** The stage a call reaches, step by step: refused by the gate, or else
      the first driver step that failed, or else done. */
  function StageReached(v: Verdict, open: Step, exec: Step): Stage
  {
    if Rejected(v) then Refused(v)
    else if open.Failed? then ConnectionFailed(open.msg)
    else if exec.Failed? then StatementFailed(exec.msg)
    else Executed
  }

  /** What a caller can read off a response. */
  function ReadStage(o: Output): Stage
  {
    if o.status == StatusOk then Executed
    else if o.status == StatusAborted && o.result == ResultBadDbConnection then ConnectionFailed(o.error)
    else if o.status == StatusAborted && o.result == ResultQueryError then StatementFailed(o.error)
    else Refused(Verdict(o.status, o.result))
  }

  /** The flow shared by the four write entry points, once the gate has
      returned `v`; `open` and `exec` are the driver's outcomes for opening
      the handle and for executing the request's query. */
  function WriteQuery(v: Verdict, open: Step, exec: Step): (o: Output)
    ensures Rejected(v) ==> o == Output(v.status, v.result, ErrorNull)
    ensures o.status == StatusOk <==> !Rejected(v) && open.Succeeded? && exec.Succeeded?
    ensures o.status == StatusOk ==> o == Output(StatusOk, ResultOk, ErrorNull)
    ensures !Rejected(v) && o.status != StatusOk ==> o.status == StatusAborted
    ensures GateVerdict(v) ==> ReadStage(o) == StageReached(v, open, exec)
  {
    if Rejected(v) then Output(v.status, v.result, ErrorNull)
    else if open.Failed? then Output(StatusAborted, ResultBadDbConnection, open.msg)
    else if exec.Failed? then Output(StatusAborted, ResultQueryError, exec.msg)
    else Output(StatusOk, ResultOk, ErrorNull)
  }

  /** What each write entry point promises about its whole call: it answers
      OK exactly when the first credential is the secret, the query is
      non-empty and both driver steps succeed, and the response tells the
      caller at which step the call stopped. */
  predicate WriteAnswer(meta: Option<seq<string>>, query: string, secret: string, open: Step, exec: Step, o: Output)
  {
    && (o.status == StatusOk
        <==> WellFormedCall(meta, query) && meta.value[0] == secret && open.Succeeded? && exec.Succeeded?)
    && ReadStage(o) == StageReached(Validation(meta, query, secret), open, exec)
  }

  function RawQuery(meta: Option<seq<string>>, query: string, secret: string, open: Step, exec: Step): (o: Output)
    ensures WriteAnswer(meta, query, secret, open, exec, o)
  {
    WriteQuery(Validation(meta, query, secret), open, exec)
  }

  function InsertQuery(meta: Option<seq<string>>, query: string, secret: string, open: Step, exec: Step): (o: Output)
    ensures WriteAnswer(meta, query, secret, open, exec, o)
  {
    WriteQuery(Validation(meta, query, secret), open, exec)
  }

  function UpdateQuery(meta: Option<seq<string>>, query: string, secret: string, open: Step, exec: Step): (o: Output)
    ensures WriteAnswer(meta, query, secret, open, exec, o)
  {
    WriteQuery(Validation(meta, query, secret), open, exec)
  }

  function DeleteQuery(meta: Option<seq<string>>, query: string, secret: string, open: Step, exec: Step): (o: Output)
    ensures WriteAnswer(meta, query, secret, open, exec, o)
  {
    WriteQuery(Validation(meta, query, secret), open, exec)
  }

  /** The four write entry points answer alike. The model gives each of
      them the same body because the four handlers of the service are
      textually identical; this lemma records that sameness, it does not
      discover it. */
  lemma WriteEntryPointsAgree(meta: Option<seq<string>>, query: string, secret: string, open: Step, exec: Step)
    ensures InsertQuery(meta, query, secret, open, exec) == RawQuery(meta, query, secret, open, exec)
    ensures UpdateQuery(meta, query, secret, open, exec) == RawQuery(meta, query, secret, open, exec)
    ensures DeleteQuery(meta, query, secret, open, exec) == RawQuery(meta, query, secret, open, exec)
  {
  }

  /** A refused call never reaches the database: its response is the same
      whatever the driver would have done. */
  lemma RefusedSkipsDatabase(v: Verdict, open: Step, exec: Step, open': Step, exec': Step)
    requires Rejected(v)
    ensures WriteQuery(v, open, exec) == WriteQuery(v, open', exec')
  {
  }

  /** A failed connection and a failed statement carry different results. */
  lemma ConnectionAndStatementFailuresDiffer(v: Verdict, msg: string, msg': string)
    requires !Rejected(v)
    ensures WriteQuery(v, Failed(msg), Succeeded).status == WriteQuery(v, Succeeded, Failed(msg')).status == StatusAborted
    ensures WriteQuery(v, Failed(msg), Succeeded).result != WriteQuery(v, Succeeded, Failed(msg')).result
  {
  }

  // ---------------------------------------------------------------------
  // The handlers as written: `defer db.Close()` comes before the open error

  /** How a handler ends: with a response, or with a panic before any
      response is sent. */
  datatype Reply = Replied(output: Output) | Panicked

  /** The write flow as the source has it. The deferred `db.Close()` is
      registered before `err` is checked; when opening fails the handle is
      nil, so the deferred call dereferences nil as the handler returns and
      the envelope never reaches the caller. */
  function WriteQueryAsWritten(v: Verdict, open: Step, exec: Step): (r: Reply)
    ensures r.Panicked? <==> !Rejected(v) && open.Failed?
    ensures r.Replied? ==> r.output == WriteQuery(v, open, exec)
  {
    if !Rejected(v) && open.Failed? then Panicked else Replied(WriteQuery(v, open, exec))
  }

  /** One input that shows it: an admitted call whose connection string the
      driver refuses gets no response as written, where the intended flow
      answers BAD DATABSE CONNECTION with the driver's message. */
  lemma OpenFailureNeverAnswers()
    ensures var meta, secret, msg := Some(["k3y"]), "k3y", "invalid DSN: missing the slash separating the database name";
      && WriteQueryAsWritten(Validation(meta, "DELETE FROM t", secret), Failed(msg), Succeeded) == Panicked
      && RawQuery(meta, "DELETE FROM t", secret, Failed(msg), Succeeded) == Output(StatusAborted, ResultBadDbConnection, msg)
  {
  }
}
