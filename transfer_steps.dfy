/**
 * What `rota_transfer` promises about the order of its steps: every run
 * walks the stages in their fixed order, one request per stage, and stops at
 * the first stage whose check fails, answering with that stage's error.
 */
module TransferSteps {
  import opened Wrappers
  import opened Json
  import opened Erp
  import opened RequestFields
  import opened ContractPatch
  import opened Transfer

  /** `run` went through consecutive stages from `s`, one request per stage. */
  ghost predicate Staged(s: Stage, run: Run)
  {
    && 1 <= |run.stages| == |run.sent| <= LastStage + 1 - Index(s)
    && run.stages[0] == s
    && (forall k | 0 <= k < |run.stages| :: Index(run.stages[k]) == Index(s) + k)
  }

  /** Each request of `run` is the one its stage sends. */
  ghost predicate Sends(job: Job, run: Run)
    requires |run.stages| == |run.sent|
  {
    forall k | 0 <= k < |run.sent| :: run.sent[k] == StageRequest(job, run.stages[k])
  }

  /** `run` moved on after every reply but the last, and answered what the last reply made the last stage answer. */
  ghost predicate Chained(answer: Oracle, hist: seq<Request>, run: Run)
    requires 1 <= |run.stages| == |run.sent|
  {
    && (forall k | 0 <= k < |run.sent| - 1 ::
          Advance(run.stages[k], ReplyAt(answer, hist, run.sent, k)) == Next(run.stages[k + 1]))
    && Advance(run.stages[|run.sent| - 1], ReplyAt(answer, hist, run.sent, |run.sent| - 1)) == Done(run.response)
  }

  ghost predicate Walks(answer: Oracle, hist: seq<Request>, job: Job, s: Stage, run: Run)
  {
    Staged(s, run) && Sends(job, run) && Chained(answer, hist, run)
  }

  /** A walk from `s'` after `s`'s request, with that request in front, is a walk from `s`. */
  lemma WalkExtends(answer: Oracle, hist: seq<Request>, job: Job, s: Stage, s': Stage, rest: Run)
    requires Advance(s, answer(hist, StageRequest(job, s))) == Next(s')
    requires Walks(answer, hist + [StageRequest(job, s)], job, s', rest)
    ensures Walks(answer, hist, job, s, Run([s] + rest.stages, [StageRequest(job, s)] + rest.sent, rest.response))
  {
    var req := StageRequest(job, s);
    var sent := [req] + rest.sent;
    assert hist + sent[..0] == hist;
    forall k | 1 <= k <= |rest.sent|
      ensures ReplyAt(answer, hist, sent, k) == ReplyAt(answer, hist + [req], rest.sent, k - 1)
    {
      ReplyAtShift(answer, hist, req, rest.sent, k);
    }
  }

  /** Every run from a stage on is such a walk. */
  lemma {:induction false} ProceedWalks(answer: Oracle, hist: seq<Request>, job: Job, s: Stage)
    ensures Walks(answer, hist, job, s, Proceed(answer, hist, job, s))
    decreases LastStage - Index(s)
  {
    var req := StageRequest(job, s);
    match Advance(s, answer(hist, req))
    case Done(resp) =>
      assert hist + [req][..0] == hist;
    case Next(s') =>
      ProceedWalks(answer, hist + [req], job, s');
      WalkExtends(answer, hist, job, s, s', Proceed(answer, hist + [req], job, s'));
  }

  lemma ProceedStaged(answer: Oracle, hist: seq<Request>, job: Job, s: Stage)
    ensures Staged(s, Proceed(answer, hist, job, s))
    ensures Sends(job, Proceed(answer, hist, job, s))
  {
    ProceedWalks(answer, hist, job, s);
  }

  lemma ProceedChained(answer: Oracle, hist: seq<Request>, job: Job, s: Stage)
    ensures Staged(s, Proceed(answer, hist, job, s))
    ensures Chained(answer, hist, Proceed(answer, hist, job, s))
  {
    ProceedWalks(answer, hist, job, s);
  }

  // ---------------------------------------------------------------------------
  // The fixed order of the requests

  /** What tells the requests apart: verb, endpoint and `ixcsoft` marker. */
  datatype Shape = Shape(verb: Verb, endpoint: string, marker: Marker)

  function ShapeOf(r: Request): Shape
  {
    Shape(r.verb, r.endpoint, r.marker)
  }

  /** The eight requests of a transfer, in the order the route sends them. */
  const Plan: seq<Shape> := [
    Shape(Post, "radusuarios", Listar),
    Shape(Post, "su_ticket", NoMarker),
    Shape(Post, "su_oss_chamado", Listar),
    Shape(Put, "su_oss_chamado", NoMarker),
    Shape(Post, "gerar_protocolo_atendimento", Inserir),
    Shape(Post, "su_oss_chamado", NoMarker),
    Shape(Post, "cliente_contrato", Listar),
    Shape(Put, "cliente_contrato", NoMarker)]

  /** Each stage sends the request its position in the plan names. */
  lemma StageShape(job: Job, s: Stage)
    ensures ShapeOf(StageRequest(job, s)) == Plan[Index(s)]
  {
  }

  // ---------------------------------------------------------------------------
  // The checks between the requests

  /**
   * Whether the reply to the `k`-th request lets the route go on: the login
   * lookup found a login, the ticket was created (status 200 and a JSON
   * object), the ticket's order was found, the rescheduling was accepted,
   * the protocol request was answered, the deactivation order was created,
   * the contract was found. The last request has no successor.
   */
  predicate Passes(k: nat, reply: Reply)
  {
    match k
    case 0 => LoginId(reply).Got?
    case 1 => reply.Answered? && reply.status == 200 && CreatedId(reply.json).Got?
    case 2 => LocateOrder(reply).Got?
    case 3 => reply.Answered? && reply.status == 200
    case 4 => reply.Answered?
    case 5 => reply.Answered? && reply.status == 200
    case 6 => ContractFetch(reply).Got?
    case _ => false
  }

  /** A stage hands on to the next exactly when its check passes. */
  lemma AdvancePasses(s: Stage, reply: Reply)
    ensures Advance(s, reply).Next? <==> Passes(Index(s), reply)
  {
  }

  // ---------------------------------------------------------------------------
  // What each stage carries

  /** What each stage hands on when its check passes. */
  lemma AfterLogin(reply: Reply, s': Stage)
    requires Advance(LoginStage, reply) == Next(s')
    ensures LoginId(reply).Got? && s' == TicketStage(LoginId(reply).value)
  {
  }

  lemma AfterTicket(login: Value, reply: Reply, s': Stage)
    requires Advance(TicketStage(login), reply) == Next(s')
    ensures reply.Answered? && reply.status == 200 && CreatedId(reply.json).Got?
    ensures s' == OrderStage(login, CreatedId(reply.json).value)
  {
  }

  lemma AfterOrder(login: Value, ticket: Value, reply: Reply, s': Stage)
    requires Advance(OrderStage(login, ticket), reply) == Next(s')
    ensures LocateOrder(reply).Got? && s' == ScheduleStage(login, ticket, LocateOrder(reply).value)
  {
  }

  lemma AfterSchedule(login: Value, ticket: Value, found: FoundOrder, reply: Reply, s': Stage)
    requires Advance(ScheduleStage(login, ticket, found), reply) == Next(s')
    ensures s' == ProtocolStage(login, ticket, found.id)
  {
  }

  lemma AfterProtocol(login: Value, ticket: Value, order: Value, reply: Reply, s': Stage)
    requires Advance(ProtocolStage(login, ticket, order), reply) == Next(s')
    ensures reply.Answered? && s' == DeactivationStage(login, ticket, order, reply.text)
  {
  }

  lemma AfterDeactivation(login: Value, ticket: Value, order: Value, protocol: string, reply: Reply, s': Stage)
    requires Advance(DeactivationStage(login, ticket, order, protocol), reply) == Next(s')
    ensures reply.Answered? && s' == ContractStage(ticket, order, reply.json)
  {
  }

  lemma AfterContract(ticket: Value, order: Value, deactivation: Option<Doc>, reply: Reply, s': Stage)
    requires Advance(ContractStage(ticket, order, deactivation), reply) == Next(s')
    ensures ContractFetch(reply).Got? && s' == ContractPutStage(ticket, order, deactivation, ContractFetch(reply).value)
  {
  }

  /**
   * The stages of a transfer carry what the earlier replies gave: the login
   * found, the ticket created, the order found, the protocol text, the
   * deactivation reply and the contract record.
   */
  lemma TransferStages(answer: Oracle, hist: seq<Request>, run: Run) returns (rs: seq<Reply>)
    requires Staged(LoginStage, run) && Chained(answer, hist, run)
    ensures rs == Replies(answer, hist, run.sent) && Learned(rs)
    ensures |rs| > 1 ==> LoginId(rs[0]).Got? && run.stages[1] == TicketStage(LoginId(rs[0]).value)
    ensures |rs| > 2 ==>
      && rs[1].Answered? && rs[1].status == 200 && CreatedId(rs[1].json).Got?
      && run.stages[2] == OrderStage(LoginId(rs[0]).value, CreatedId(rs[1].json).value)
    ensures |rs| > 3 ==>
      && LocateOrder(rs[2]).Got?
      && run.stages[3] == ScheduleStage(LoginId(rs[0]).value, CreatedId(rs[1].json).value, LocateOrder(rs[2]).value)
    ensures |rs| > 4 ==>
      run.stages[4] == ProtocolStage(LoginId(rs[0]).value, CreatedId(rs[1].json).value, LocateOrder(rs[2]).value.id)
    ensures |rs| > 5 ==>
      && rs[4].Answered?
      && run.stages[5] == DeactivationStage(LoginId(rs[0]).value, CreatedId(rs[1].json).value, LocateOrder(rs[2]).value.id, rs[4].text)
    ensures |rs| > 6 ==>
      && rs[5].Answered?
      && run.stages[6] == ContractStage(CreatedId(rs[1].json).value, LocateOrder(rs[2]).value.id, rs[5].json)
    ensures |rs| > 7 ==>
      && ContractFetch(rs[6]).Got?
      && run.stages[7] == ContractPutStage(CreatedId(rs[1].json).value, LocateOrder(rs[2]).value.id, rs[5].json, ContractFetch(rs[6]).value)
  {
    rs := Replies(answer, hist, run.sent);
    var n := |rs|;
    var st := run.stages;
    if n > 1 { AfterLogin(rs[0], st[1]); }
    if n > 2 { AfterTicket(st[1].login, rs[1], st[2]); }
    if n > 3 { AfterOrder(st[2].login, st[2].ticket, rs[2], st[3]); }
    if n > 4 { AfterSchedule(st[3].login, st[3].ticket, st[3].found, rs[3], st[4]); }
    if n > 5 { AfterProtocol(st[4].login, st[4].ticket, st[4].order, rs[4], st[5]); }
    if n > 6 { AfterDeactivation(st[5].login, st[5].ticket, st[5].order, st[5].protocol, rs[5], st[6]); }
    if n > 7 { AfterContract(st[6].ticket, st[6].order, st[6].deactivation, rs[6], st[7]); }
  }

  // ---------------------------------------------------------------------------
  // Runs from the login lookup on

  /** The requests of a run are a prefix of the plan. */
  lemma RunFollowsPlan(job: Job, run: Run)
    requires Staged(LoginStage, run) && Sends(job, run)
    ensures 1 <= |run.sent| <= |Plan|
    ensures forall k | 0 <= k < |run.sent| :: ShapeOf(run.sent[k]) == Plan[k]
  {
    forall k | 0 <= k < |run.sent|
      ensures ShapeOf(run.sent[k]) == Plan[k]
    {
      StageShape(job, run.stages[k]);
    }
  }

  /** The error-text prefixes of the four steps that check for status 200. */
  const StatusPrefix: map<nat, string> := map[
    1 := "Erro ao criar ticket: ",
    3 := "Erro ao agendar OS: ",
    5 := "Erro ao criar OS desativação: ",
    7 := "Erro ao atualizar contrato: "]

  /**
   * How a stop reads in terms of the step's position: its status error, its
   * lookup's error text, or a 500 when the call or a JSON read raised.
   */
  ghost predicate Stopped(k: nat, reply: Reply, resp: Response)
  {
    && (k in StatusPrefix && reply.Answered? && reply.status != 200 ==>
          resp == BadRequest(StatusError(StatusPrefix[k], reply.status, reply.text)))
    && ((k in StatusPrefix || k == 4) && reply.Unreachable? ==> resp == ServerError)
    && (k == 1 && reply.Answered? && reply.status == 200 && !CreatedId(reply.json).Got? ==> resp == ServerError)
    && (k == 0 && LoginId(reply).Refused? ==> resp == BadRequest(LoginId(reply).error))
    && (k == 0 && LoginId(reply).Raised? ==> resp == ServerError)
    && (k == 2 && LocateOrder(reply).Refused? ==> resp == BadRequest(NoOrderFound))
    && (k == 2 && LocateOrder(reply).Raised? ==> resp == ServerError)
    && (k == 6 && ContractFetch(reply).Refused? ==> resp == BadRequest(ContractNotFound))
    && (k == 6 && ContractFetch(reply).Raised? ==> resp == ServerError)
  }

  /** How a stage that stops answers. */
  lemma StopResponse(s: Stage, reply: Reply, resp: Response)
    requires Advance(s, reply) == Done(resp)
    ensures Stopped(Index(s), reply, resp)
  {
  }

  /** In a chained run the check at every step but the last passed. */
  lemma PassedAt(answer: Oracle, hist: seq<Request>, run: Run, k: nat)
    requires Staged(LoginStage, run) && Chained(answer, hist, run)
    requires k < |run.sent| - 1
    ensures Passes(k, ReplyAt(answer, hist, run.sent, k))
  {
    var r := ReplyAt(answer, hist, run.sent, k);
    assert Advance(run.stages[k], r) == Next(run.stages[k + 1]);
    AdvancePasses(run.stages[k], r);
  }

  /** In a chained run the check at the last step failed, and the answer is that step's. */
  lemma StoppedAtLast(answer: Oracle, hist: seq<Request>, run: Run)
    requires Staged(LoginStage, run) && Chained(answer, hist, run)
    ensures !Passes(|run.sent| - 1, ReplyAt(answer, hist, run.sent, |run.sent| - 1))
    ensures Stopped(|run.sent| - 1, ReplyAt(answer, hist, run.sent, |run.sent| - 1), run.response)
    ensures run.response.Ok? ==> |run.sent| == |Plan|
  {
    var last := run.stages[|run.sent| - 1];
    var r := ReplyAt(answer, hist, run.sent, |run.sent| - 1);
    AdvancePasses(last, r);
    StopResponse(last, r, run.response);
  }

  /** Fail-fast over a run: all checks but the last passed, the last did not, and the answer is that step's. */
  lemma RunStopsAtFirstFailure(answer: Oracle, hist: seq<Request>, run: Run) returns (rs: seq<Reply>)
    requires Staged(LoginStage, run) && Chained(answer, hist, run)
    ensures rs == Replies(answer, hist, run.sent)
    ensures 1 <= |rs| <= |Plan|
    ensures forall k | 0 <= k < |rs| - 1 :: Passes(k, rs[k])
    ensures !Passes(|rs| - 1, rs[|rs| - 1])
    ensures Stopped(|rs| - 1, rs[|rs| - 1], run.response)
    ensures run.response.Ok? ==> |rs| == |Plan|
  {
    rs := Replies(answer, hist, run.sent);
    forall k | 0 <= k < |rs| - 1
      ensures Passes(k, rs[k])
    {
      PassedAt(answer, hist, run, k);
    }
    StoppedAtLast(answer, hist, run);
  }

  /** What the replies a run got let its later steps learn. */
  ghost predicate Learned(rs: seq<Reply>)
  {
    && (|rs| > 1 ==> LoginId(rs[0]).Got?)
    && (|rs| > 2 ==> rs[1].Answered? && CreatedId(rs[1].json).Got?)
    && (|rs| > 3 ==> LocateOrder(rs[2]).Got?)
    && (|rs| > 5 ==> rs[4].Answered?)
    && (|rs| > 6 ==> rs[5].Answered?)
    && (|rs| > 7 ==> ContractFetch(rs[6]).Got?)
  }

  /**
   * Each request of a run is built from the validated body and what the
   * earlier replies gave: the login in the ticket, the ticket id in the order
   * lookup, the order id and its message (or the ticket description) in the
   * rescheduling, the protocol text in the deactivation order, the fetched
   * record, patched, in the contract update.
   */
  lemma RunRequests(answer: Oracle, hist: seq<Request>, job: Job, run: Run) returns (rs: seq<Reply>)
    requires Staged(LoginStage, run) && Sends(job, run) && Chained(answer, hist, run)
    ensures rs == Replies(answer, hist, run.sent) && Learned(rs)
    ensures run.sent[0] == LoginLookup(job.input.contractId)
    ensures |rs| > 1 ==> run.sent[1] == TicketRequest(job.input, LoginId(rs[0]).value, job.description)
    ensures |rs| > 2 ==> run.sent[2] == OrderLookup(CreatedId(rs[1].json).value)
    ensures |rs| > 3 ==>
      run.sent[3] == ScheduleRequest(job.input, LoginId(rs[0]).value, LocateOrder(rs[2]).value.id,
                                     Or(LocateOrder(rs[2]).value.message, Str(job.description)))
    ensures |rs| > 4 ==> run.sent[4] == ProtocolRequest
    ensures |rs| > 5 ==> run.sent[5] == DeactivationRequest(job.input, LoginId(rs[0]).value, rs[4].text)
    ensures |rs| > 6 ==> run.sent[6] == ContractLookup(job.input.contractId)
    ensures |rs| > 7 ==>
      run.sent[7] == ContractUpdate(job.input.contractId, Patched(ContractFetch(rs[6]).value, job.input.newAddress, KeepOrBlank, job.reformat))
  {
    rs := TransferStages(answer, hist, run);
    EarlyRequests(job, run, rs);
    LateRequests(job, run, rs);
  }

  lemma EarlyRequests(job: Job, run: Run, rs: seq<Reply>)
    requires Staged(LoginStage, run) && Sends(job, run) && |rs| == |run.sent| && Learned(rs)
    requires |rs| > 1 ==> run.stages[1] == TicketStage(LoginId(rs[0]).value)
    requires |rs| > 2 ==> run.stages[2] == OrderStage(LoginId(rs[0]).value, CreatedId(rs[1].json).value)
    requires |rs| > 3 ==> run.stages[3] == ScheduleStage(LoginId(rs[0]).value, CreatedId(rs[1].json).value, LocateOrder(rs[2]).value)
    ensures run.sent[0] == LoginLookup(job.input.contractId)
    ensures |rs| > 1 ==> run.sent[1] == TicketRequest(job.input, LoginId(rs[0]).value, job.description)
    ensures |rs| > 2 ==> run.sent[2] == OrderLookup(CreatedId(rs[1].json).value)
    ensures |rs| > 3 ==>
      run.sent[3] == ScheduleRequest(job.input, LoginId(rs[0]).value, LocateOrder(rs[2]).value.id,
                                     Or(LocateOrder(rs[2]).value.message, Str(job.description)))
  {
    assert run.sent[0] == StageRequest(job, run.stages[0]);
    if |rs| > 1 { assert run.sent[1] == StageRequest(job, run.stages[1]); }
    if |rs| > 2 { assert run.sent[2] == StageRequest(job, run.stages[2]); }
    if |rs| > 3 { assert run.sent[3] == StageRequest(job, run.stages[3]); }
  }

  lemma LateRequests(job: Job, run: Run, rs: seq<Reply>)
    requires Staged(LoginStage, run) && Sends(job, run) && |rs| == |run.sent| && Learned(rs)
    requires |rs| > 4 ==> run.stages[4] == ProtocolStage(LoginId(rs[0]).value, CreatedId(rs[1].json).value, LocateOrder(rs[2]).value.id)
    requires |rs| > 5 ==>
      run.stages[5] == DeactivationStage(LoginId(rs[0]).value, CreatedId(rs[1].json).value, LocateOrder(rs[2]).value.id, rs[4].text)
    requires |rs| > 6 ==> run.stages[6] == ContractStage(CreatedId(rs[1].json).value, LocateOrder(rs[2]).value.id, rs[5].json)
    requires |rs| > 7 ==>
      run.stages[7] == ContractPutStage(CreatedId(rs[1].json).value, LocateOrder(rs[2]).value.id, rs[5].json, ContractFetch(rs[6]).value)
    ensures |rs| > 4 ==> run.sent[4] == ProtocolRequest
    ensures |rs| > 5 ==> run.sent[5] == DeactivationRequest(job.input, LoginId(rs[0]).value, rs[4].text)
    ensures |rs| > 6 ==> run.sent[6] == ContractLookup(job.input.contractId)
    ensures |rs| > 7 ==>
      run.sent[7] == ContractUpdate(job.input.contractId, Patched(ContractFetch(rs[6]).value, job.input.newAddress, KeepOrBlank, job.reformat))
  {
    if |rs| > 4 { SentAt(job, run, 4, run.stages[4]); }
    if |rs| > 5 { SentAt(job, run, 5, run.stages[5]); }
    if |rs| > 6 { SentAt(job, run, 6, run.stages[6]); }
    if |rs| > 7 { SentAt(job, run, 7, run.stages[7]); }
  }

  /** The `k`-th request of a run, for each kind of stage. */
  lemma SentAt(job: Job, run: Run, k: nat, s: Stage)
    requires |run.stages| == |run.sent| && Sends(job, run) && k < |run.sent| && run.stages[k] == s
    ensures s.ProtocolStage? ==> run.sent[k] == ProtocolRequest
    ensures s.DeactivationStage? ==> run.sent[k] == DeactivationRequest(job.input, s.login, s.protocol)
    ensures s.ContractStage? ==> run.sent[k] == ContractLookup(job.input.contractId)
    ensures s.ContractPutStage? ==>
      run.sent[k] == ContractUpdate(job.input.contractId, Patched(s.record, job.input.newAddress, KeepOrBlank, job.reformat))
  {
    assert run.sent[k] == StageRequest(job, s);
  }

  /**
   * A run succeeds exactly when it reached the contract update, that update
   * was answered with status 200 and the deactivation reply was a JSON
   * object; the answer then carries the ticket id, the rescheduled order's
   * id and the deactivation order's id. A write that got status 200 after a
   * deactivation reply that was not an object ends in a 500.
   */
  lemma RunSuccess(answer: Oracle, hist: seq<Request>, run: Run) returns (rs: seq<Reply>)
    requires Staged(LoginStage, run) && Chained(answer, hist, run)
    ensures rs == Replies(answer, hist, run.sent) && Learned(rs)
    ensures run.response.Ok? <==>
      |rs| == |Plan| && rs[7].Answered? && rs[7].status == 200 && CreatedId(rs[5].json).Got?
    ensures |rs| == |Plan| && rs[7].Answered? && rs[7].status == 200 && !CreatedId(rs[5].json).Got? ==>
      run.response == ServerError
    ensures run.response.Ok? ==>
      run.response.body == Transferred(CreatedId(rs[1].json).value, LocateOrder(rs[2]).value.id, CreatedId(rs[5].json).value)
  {
    rs := TransferStages(answer, hist, run);
    assert Advance(run.stages[|rs| - 1], rs[|rs| - 1]) == Done(run.response);
  }

  // ---------------------------------------------------------------------------
  // The route

  /** For a valid body the route's exchange is the run from the login lookup on, with the composed description. */
  lemma TransferOfValid(answer: Oracle, hist: seq<Request>, data: Record, reformat: Reformatter, f: TransferInput)
    requires ExtractTransfer(data) == Valid(f)
    ensures RunTransfer(answer, hist, data, reformat).sent == Proceed(answer, hist, Job(f, TicketMessage(f), reformat), LoginStage).sent
    ensures RunTransfer(answer, hist, data, reformat).response == Proceed(answer, hist, Job(f, TicketMessage(f), reformat), LoginStage).response
  {
  }

  /** A body without both ids sends nothing to the ERP and answers 400; a valid one starts with the login lookup. */
  lemma NoRequestWhenInvalid(answer: Oracle, hist: seq<Request>, data: Record, reformat: Reformatter)
    ensures RunTransfer(answer, hist, data, reformat).sent == [] <==> ExtractTransfer(data).Invalid?
    ensures ExtractTransfer(data).Invalid? ==> RunTransfer(answer, hist, data, reformat).response == BadRequest(MissingIds)
    ensures ExtractTransfer(data).Valid? ==>
      RunTransfer(answer, hist, data, reformat).sent[0] == LoginLookup(ExtractTransfer(data).value.contractId)
  {
    if ExtractTransfer(data).Valid? {
      var f := ExtractTransfer(data).value;
      TransferOfValid(answer, hist, data, reformat, f);
      ProceedStaged(answer, hist, Job(f, TicketMessage(f), reformat), LoginStage);
    }
  }

  /** The requests sent are always a prefix of the plan: nothing out of order, nothing repeated, nothing after the last step. */
  lemma TransferFollowsPlan(answer: Oracle, hist: seq<Request>, data: Record, reformat: Reformatter)
    ensures |RunTransfer(answer, hist, data, reformat).sent| <= |Plan|
    ensures forall k | 0 <= k < |RunTransfer(answer, hist, data, reformat).sent| ::
      ShapeOf(RunTransfer(answer, hist, data, reformat).sent[k]) == Plan[k]
  {
    if ExtractTransfer(data).Valid? {
      var f := ExtractTransfer(data).value;
      TransferOfValid(answer, hist, data, reformat, f);
      var job := Job(f, TicketMessage(f), reformat);
      ProceedStaged(answer, hist, job, LoginStage);
      RunFollowsPlan(job, Proceed(answer, hist, job, LoginStage));
    }
  }

  /**
   * Fail-fast: every request but the last got a reply that passed its check,
   * the last one's did not, the answer is the one that step gives, and only a
   * run that reached the contract update can succeed.
   */
  lemma TransferStopsAtFirstFailure(answer: Oracle, hist: seq<Request>, data: Record, reformat: Reformatter, f: TransferInput)
    returns (t: Trace, rs: seq<Reply>)
    requires ExtractTransfer(data) == Valid(f)
    ensures t == RunTransfer(answer, hist, data, reformat) && rs == Replies(answer, hist, t.sent)
    ensures 1 <= |rs| <= |Plan|
    ensures forall k | 0 <= k < |rs| - 1 :: Passes(k, rs[k])
    ensures !Passes(|rs| - 1, rs[|rs| - 1])
    ensures Stopped(|rs| - 1, rs[|rs| - 1], t.response)
    ensures t.response.Ok? ==> |rs| == |Plan|
  {
    var job := Job(f, TicketMessage(f), reformat);
    TransferOfValid(answer, hist, data, reformat, f);
    ProceedChained(answer, hist, job, LoginStage);
    rs := RunStopsAtFirstFailure(answer, hist, Proceed(answer, hist, job, LoginStage));
    t := RunTransfer(answer, hist, data, reformat);
  }

  /** The route's requests, for a valid body, with the description composed from it. */
  lemma TransferRequests(answer: Oracle, hist: seq<Request>, data: Record, reformat: Reformatter, f: TransferInput)
    returns (t: Trace, rs: seq<Reply>)
    requires ExtractTransfer(data) == Valid(f)
    ensures t == RunTransfer(answer, hist, data, reformat) && rs == Replies(answer, hist, t.sent) && Learned(rs)
    ensures t.sent[0] == LoginLookup(f.contractId)
    ensures |rs| > 1 ==> t.sent[1] == TicketRequest(f, LoginId(rs[0]).value, TicketMessage(f))
    ensures |rs| > 2 ==> t.sent[2] == OrderLookup(CreatedId(rs[1].json).value)
    ensures |rs| > 3 ==>
      t.sent[3] == ScheduleRequest(f, LoginId(rs[0]).value, LocateOrder(rs[2]).value.id,
                                   Or(LocateOrder(rs[2]).value.message, Str(TicketMessage(f))))
    ensures |rs| > 4 ==> t.sent[4] == ProtocolRequest
    ensures |rs| > 5 ==> t.sent[5] == DeactivationRequest(f, LoginId(rs[0]).value, rs[4].text)
    ensures |rs| > 6 ==> t.sent[6] == ContractLookup(f.contractId)
    ensures |rs| > 7 ==>
      t.sent[7] == ContractUpdate(f.contractId, Patched(ContractFetch(rs[6]).value, f.newAddress, KeepOrBlank, reformat))
  {
    var job := Job(f, TicketMessage(f), reformat);
    TransferOfValid(answer, hist, data, reformat, f);
    ProceedWalks(answer, hist, job, LoginStage);
    rs := RunRequests(answer, hist, job, Proceed(answer, hist, job, LoginStage));
    t := RunTransfer(answer, hist, data, reformat);
  }

  /**
   * The route answers 200 exactly when all eight steps were taken, the contract
   * update got status 200 and the deactivation reply was a JSON object; the
   * answer carries the ticket id, the transfer order's id and the
   * deactivation order's id. A write that got status 200 after a deactivation
   * reply that was not an object ends in a 500.
   */
  lemma TransferSucceeds(answer: Oracle, hist: seq<Request>, data: Record, reformat: Reformatter, f: TransferInput)
    returns (t: Trace, rs: seq<Reply>)
    requires ExtractTransfer(data) == Valid(f)
    ensures t == RunTransfer(answer, hist, data, reformat) && rs == Replies(answer, hist, t.sent) && Learned(rs)
    ensures t.response.Ok? <==>
      |rs| == |Plan| && rs[7].Answered? && rs[7].status == 200 && CreatedId(rs[5].json).Got?
    ensures |rs| == |Plan| && rs[7].Answered? && rs[7].status == 200 && !CreatedId(rs[5].json).Got? ==>
      t.response == ServerError
    ensures t.response.Ok? ==>
      t.response.body == Transferred(CreatedId(rs[1].json).value, LocateOrder(rs[2]).value.id, CreatedId(rs[5].json).value)
  {
    var job := Job(f, TicketMessage(f), reformat);
    TransferOfValid(answer, hist, data, reformat, f);
    ProceedChained(answer, hist, job, LoginStage);
    rs := RunSuccess(answer, hist, Proceed(answer, hist, job, LoginStage));
    t := RunTransfer(answer, hist, data, reformat);
  }

  // ---------------------------------------------------------------------------
  // What the requests carry

  /** The ticket is opened for the client, contract and login found, with the description given. */
  lemma TicketRequestFor(f: TransferInput, login: Value, description: string)
    ensures var req := TicketRequest(f, login, description);
      && req.verb == Post && req.endpoint == "su_ticket" && req.body.Some?
      && req.body.value["id_cliente"] == f.clientId
      && req.body.value["id_contrato"] == f.contractId
      && req.body.value["id_login"] == login
      && req.body.value["id_responsavel_tecnico"] == f.technicianId
      && req.body.value["menssagem"] == Str(description)
  {
  }

  /**
   * The rescheduling PUT goes to the found order, books the visit with
   * `data_agenda` equal to `data_agenda_final` (both the formatted visit
   * date) at the new address, and carries the order's own message when it is
   * truthy, else the ticket description.
   */
  lemma ScheduleRequestBooksVisit(f: TransferInput, login: Value, found: FoundOrder, description: string)
    ensures var req := ScheduleRequest(f, login, found.id, Or(found.message, Str(description)));
      && req.verb == Put && req.endpoint == "su_oss_chamado" && req.target == Some(Show(found.id)) && req.body.Some?
      && req.body.value["id"] == found.id
      && req.body.value["id_login"] == login
      && req.body.value["data_agenda"] == req.body.value["data_agenda_final"] == f.visitDate
      && req.body.value["mensagem"] == (if Truthy(found.message) then found.message else Str(description))
      && req.body.value["endereco"] == f.newAddress.street
      && req.body.value["numero"] == f.newAddress.number
      && req.body.value["bairro"] == f.newAddress.district
      && req.body.value["cep"] == f.newAddress.postalCode
      && req.body.value["cidade"] == f.newAddress.city
  {
  }

  /**
   * The deactivation order is opened at the OLD address, with the protocol
   * text the ERP returned and the port-deactivation message naming the new one.
   */
  lemma DeactivationRequestAtOldAddress(f: TransferInput, login: Value, protocol: string)
    ensures var req := DeactivationRequest(f, login, protocol);
      && req.verb == Post && req.endpoint == "su_oss_chamado" && req.body.Some?
      && req.body.value["protocolo"] == Str(protocol)
      && req.body.value["id_login"] == login
      && req.body.value["mensagem"] == Str(DeactivationMessage(f))
      && req.body.value["endereco"] == f.oldAddress.street
      && req.body.value["numero"] == f.oldAddress.number
      && req.body.value["bairro"] == f.oldAddress.district
      && req.body.value["cep"] == f.oldAddress.postalCode
      && req.body.value["cidade"] == f.oldAddress.city
  {
  }
}
