/**
 * The transfer route `rota_transfer`: after validating the body it sends, in
 * this order and stopping at the first failed check, the login lookup, the
 * ticket creation, the lookup of the ticket's service order, the rescheduling
 * of that order, the protocol request, the creation of the deactivation
 * order, the contract lookup and the contract update.
 *
 * `RunTransfer` states the whole exchange as a function of the ERP oracle;
 * the method `Transfer` performs it against a `Gateway` and is proved to send
 * exactly those requests and give exactly that answer.
 */
module Transfer {
  import opened Wrappers
  import opened Json
  import opened Erp
  import opened RequestFields
  import opened ContractPatch

  // ---------------------------------------------------------------------------
  // The texts and payloads the route builds

  /** The fixed texts of the ticket description. */
  datatype Label = Recipient | Contact | Holder | AmountLabel | When | Dash | Notice | Comma | Slash | NewAddressLabel | LineEnd | PortLabel | MovingTo

  function LabelText(l: Label): string
  {
    match l
    case Recipient => "\n\nQuem receberá: "
    case Contact => "\nContato: "
    case Holder => "\nTítular/Responsável Legal: "
    case AmountLabel => "\nValor: "
    case When => "\nData/Período: "
    case Dash => " - "
    case Notice => "\n*Qualquer valor referente ao serviço deverá ser pago no momento da visita técnica, cliente ciente.\n\nCliente solicita transferência de endereço.\nEndereço atual/Desativação de porta: "
    case Comma => ", "
    case Slash => " / "
    case NewAddressLabel => "\nNovo endereço: "
    case LineEnd => "\n"
    case PortLabel => "\nDesativar porta: "
    case MovingTo => "\nCliente mudando para "
  }

  datatype Piece = Text(l: Label) | Field(v: Value)

  function Render(ps: seq<Piece>): string
  {
    if ps == [] then "" else (match ps[0] case Text(l) => LabelText(l) case Field(v) => Show(v)) + Render(ps[1..])
  }

  function TicketTemplate(f: TransferInput): seq<Piece>
  {
    [ Text(Recipient), Field(f.recipient),
      Text(Contact), Field(f.phone),
      Text(Holder), Field(f.recipient),
      Text(AmountLabel), Field(f.amount),
      Text(When), Field(f.visitDate), Text(Dash), Field(f.period),
      Text(Notice),
      Field(f.oldAddress.street), Text(Comma), Field(f.oldAddress.number), Text(Dash), Field(f.oldAddress.district),
      Text(Slash), Field(f.port),
      Text(NewAddressLabel), Field(f.newAddress.street), Text(Comma), Field(f.newAddress.number),
      Text(Dash), Field(f.newAddress.district), Text(Comma), Field(f.newAddress.postalCode), Text(LineEnd) ]
  }

  function TicketMessage(f: TransferInput): string
  {
    Strip(Render(TicketTemplate(f)))
  }

  function TicketPayload(f: TransferInput, login: Value, description: string): Record
  {
    map[
      "tipo" := Str("C"),
      "id_cliente" := f.clientId,
      "id_login" := login,
      "id_contrato" := f.contractId,
      "id_assunto" := Str("80"),
      "menssagem" := Str(description),
      "origem_endereco" := Str("CC"),
      "id_responsavel_tecnico" := f.technicianId,
      "titulo" := Str("Transferência de endereço"),
      "su_status" := Str("AG"),
      "id_ticket_setor" := Str("3"),
      "prioridade" := Str("M"),
      "id_wfl_processo" := Str("8"),
      "setor" := Str("3")]
  }

  function TicketRequest(f: TransferInput, login: Value, description: string): Request
  {
    Request(Post, "su_ticket", None, NoMarker, Some(TicketPayload(f, login, description)))
  }

  /** The query for the service order the new ticket spawned. */
  function OrderLookup(ticket: Value): Request
  {
    ListRequest("su_oss_chamado", ListQuery("id_ticket", ticket))
  }

  /** The rescheduling of the found order as the transfer visit at the new address. */
  function SchedulePayload(f: TransferInput, login: Value, order: Value, message: Value): Record
  {
    map[
      "tipo" := Str("C"),
      "id" := order,
      "id_cliente" := f.clientId,
      "id_login" := login,
      "id_contrato_kit" := f.contractId,
      "id_tecnico" := f.technicianId,
      "melhor_horario_agenda" := Str("Q"),
      "status" := Str("AG"),
      "id_filial" := Int(2),
      "id_assunto" := Int(258),
      "setor" := Int(1),
      "prioridade" := Str("N"),
      "origem_endereco" := Str("CC"),
      "mensagem_resposta" := Str("Agendado via API - Marques"),
      "endereco" := f.newAddress.street,
      "numero" := f.newAddress.number,
      "bairro" := f.newAddress.district,
      "cep" := f.newAddress.postalCode,
      "cidade" := f.newAddress.city,
      "data_agenda" := f.visitDate,
      "data_agenda_final" := f.visitDate,
      "mensagem" := message]
  }

  function ScheduleRequest(f: TransferInput, login: Value, order: Value, message: Value): Request
  {
    Request(Put, "su_oss_chamado", Some(Show(order)), NoMarker, Some(SchedulePayload(f, login, order, message)))
  }

  /** The request for a fresh attendance protocol number; it has no body. */
  const ProtocolRequest := Request(Post, "gerar_protocolo_atendimento", None, Inserir, None)

  function DeactivationMessage(f: TransferInput): string
  {
    Render([
      Text(PortLabel), Field(f.port),
      Text(MovingTo), Field(f.newAddress.street), Text(Comma), Field(f.newAddress.number),
      Text(Dash), Field(f.newAddress.district), Text(Comma), Field(f.newAddress.postalCode)])
  }

  /** The new service order that deactivates the port at the old address. */
  function DeactivationPayload(f: TransferInput, login: Value, protocol: string): Record
  {
    map[
      "tipo" := Str("C"),
      "protocolo" := Str(protocol),
      "id_cliente" := f.clientId,
      "id_login" := login,
      "id_contrato_kit" := f.contractId,
      "mensagem" := Str(DeactivationMessage(f)),
      "id_responsavel_tecnico" := f.technicianId,
      "data_agenda" := f.visitDate,
      "data_agenda_final" := f.visitDate,
      "id_tecnico" := f.technicianId,
      "endereco" := f.oldAddress.street,
      "numero" := f.oldAddress.number,
      "bairro" := f.oldAddress.district,
      "cep" := f.oldAddress.postalCode,
      "cidade" := f.oldAddress.city,
      "origem_endereco" := Str("M"),
      "id_assunto" := Str("17"),
      "titulo" := Str("Desativação de porta"),
      "status" := Str("AG"),
      "prioridade" := Str("N"),
      "setor" := Str("1"),
      "id_filial" := Str("2")]
  }

  function DeactivationRequest(f: TransferInput, login: Value, protocol: string): Request
  {
    Request(Post, "su_oss_chamado", None, NoMarker, Some(DeactivationPayload(f, login, protocol)))
  }

  // ---------------------------------------------------------------------------
  // Reading the replies

  const NoOrderFound := "Nenhuma OS encontrada para o ticket criado."

  /** The order found for the ticket: its id and its own `mensagem` (`Null` when it has none). */
  datatype FoundOrder = FoundOrder(id: Value, message: Value)

  /**
   * The reading of the order lookup: the body must be a JSON object (else
   * `.json()` or `.get` raises); a total whose text is `"0"` means no order;
   * the first record must exist and have an `id`; its `mensagem` is kept
   * for the rescheduling (which falls back to the ticket description when
   * it is not truthy, see `ScheduleMessage`).
   */
  function LocateOrder(reply: Reply): (r: Outcome<FoundOrder>)
    ensures r.Got? ==>
      && reply.Answered? && reply.json.Some? && HasRecords(reply.json.value)
      && "id" in reply.json.value.registros.value[0]
      && r.value.id == reply.json.value.registros.value[0]["id"]
      && r.value.message == Get(reply.json.value.registros.value[0], "mensagem")
    ensures r.Refused? ==> r.error == NoOrderFound
  {
    match reply
    case Unreachable(_) => Raised
    case Answered(_, _, None) => Raised
    case Answered(_, _, Some(doc)) =>
      match doc
      case Scalar(_) => Raised
      case Obj(fields, registros) =>
        if Show(GetOr(fields, "total", Int(0))) == "0" then Refused(NoOrderFound)
        else if registros.None? || registros.value == [] || "id" !in registros.value[0] then Raised
        else
          var first := registros.value[0];
          Got(FoundOrder(first["id"], Get(first, "mensagem")))
  }

  /**
   * When the order lookup is refused and when it finds an order: a total
   * whose text is `"0"` means no order; otherwise the first record must
   * exist and have an `id`. The order carries that `id` and the record's
   * own `mensagem`.
   */
  lemma LocateOrderReads(reply: Reply)
    ensures var r := LocateOrder(reply);
      && (r.Refused? <==>
            && reply.Answered? && reply.json.Some? && reply.json.value.Obj?
            && Show(GetOr(reply.json.value.fields, "total", Int(0))) == "0")
      && (r.Got? <==>
            && reply.Answered? && reply.json.Some? && HasRecords(reply.json.value)
            && Show(GetOr(reply.json.value.fields, "total", Int(0))) != "0"
            && "id" in reply.json.value.registros.value[0])
      && (r.Got? ==>
            && r.value.id == reply.json.value.registros.value[0]["id"]
            && r.value.message == Get(reply.json.value.registros.value[0], "mensagem"))
  {
  }

  /** The found order's own message when truthy, else the ticket description. */
  function ScheduleMessage(found: FoundOrder, description: string): Value
  {
    Or(found.message, Str(description))
  }

  /** `resp.json().get("id")` on a reply whose status was already checked. */
  function CreatedId(json: Option<Doc>): Outcome<Value>
  {
    match json
    case Some(Obj(fields, _)) => Got(Get(fields, "id"))
    case _ => Raised
  }

  // ---------------------------------------------------------------------------
  // The exchange as a state machine

  /**
   * Where the route stands, with what it has learnt so far: the login id,
   * the ticket id, the found service order, the protocol text, the
   * deactivation reply's parse and the fetched contract record.
   */
  datatype Stage =
    | LoginStage
    | TicketStage(login: Value)
    | OrderStage(login: Value, ticket: Value)
    | ScheduleStage(login: Value, ticket: Value, found: FoundOrder)
    | ProtocolStage(login: Value, ticket: Value, order: Value)
    | DeactivationStage(login: Value, ticket: Value, order: Value, protocol: string)
    | ContractStage(ticket: Value, order: Value, deactivation: Option<Doc>)
    | ContractPutStage(ticket: Value, order: Value, deactivation: Option<Doc>, record: Record)

  const LastStage := 7

  /** The position of a stage in the fixed order of the route's steps. */
  function Index(s: Stage): (n: nat)
    ensures n <= LastStage
  {
    match s
    case LoginStage => 0
    case TicketStage(_) => 1
    case OrderStage(_, _) => 2
    case ScheduleStage(_, _, _) => 3
    case ProtocolStage(_, _, _) => 4
    case DeactivationStage(_, _, _, _) => 5
    case ContractStage(_, _, _) => 6
    case ContractPutStage(_, _, _, _) => 7
  }

  /**
   * What the steps work from besides the replies: the validated body, the
   * ticket description composed from it, and the date reformatting the
   * contract patch uses.
   */
  datatype Job = Job(input: TransferInput, description: string, reformat: Reformatter)

  /** The one request each stage sends. */
  function StageRequest(job: Job, s: Stage): Request
  {
    var f := job.input;
    match s
    case LoginStage => LoginLookup(f.contractId)
    case TicketStage(login) => TicketRequest(f, login, job.description)
    case OrderStage(_, ticket) => OrderLookup(ticket)
    case ScheduleStage(login, _, found) => ScheduleRequest(f, login, found.id, ScheduleMessage(found, job.description))
    case ProtocolStage(_, _, _) => ProtocolRequest
    case DeactivationStage(login, _, _, protocol) => DeactivationRequest(f, login, protocol)
    case ContractStage(_, _, _) => ContractLookup(f.contractId)
    case ContractPutStage(_, _, _, record) => ContractUpdate(f.contractId, Patched(record, f.newAddress, KeepOrBlank, job.reformat))
  }

  datatype Step = Next(stage: Stage) | Done(response: Response)

  /** What the route does with the reply to a stage's request: go on to the next stage, or answer. */
  function Advance(s: Stage, reply: Reply): (r: Step)
    ensures r.Next? ==> Index(r.stage) == Index(s) + 1
    ensures r.Done? && r.response.Ok? ==> Index(s) == LastStage
  {
    match s
    case LoginStage =>
      (match LoginId(reply)
       case Raised => Done(ServerError)
       case Refused(e) => Done(BadRequest(e))
       case Got(login) => Next(TicketStage(login)))
    case TicketStage(login) =>
      (match reply
       case Unreachable(_) => Done(ServerError)
       case Answered(status, text, json) =>
         if status != 200 then Done(BadRequest(StatusError("Erro ao criar ticket: ", status, text)))
         else match CreatedId(json)
           case Got(ticket) => Next(OrderStage(login, ticket))
           case _ => Done(ServerError))
    case OrderStage(login, ticket) =>
      (match LocateOrder(reply)
       case Raised => Done(ServerError)
       case Refused(e) => Done(BadRequest(e))
       case Got(found) => Next(ScheduleStage(login, ticket, found)))
    case ScheduleStage(login, ticket, found) =>
      (match reply
       case Unreachable(_) => Done(ServerError)
       case Answered(status, text, _) =>
         if status != 200 then Done(BadRequest(StatusError("Erro ao agendar OS: ", status, text)))
         else Next(ProtocolStage(login, ticket, found.id)))
    case ProtocolStage(login, ticket, order) =>
      (match reply
       case Unreachable(_) => Done(ServerError)
       case Answered(_, protocol, _) => Next(DeactivationStage(login, ticket, order, protocol)))
    case DeactivationStage(_, ticket, order, _) =>
      (match reply
       case Unreachable(_) => Done(ServerError)
       case Answered(status, text, json) =>
         if status != 200 then Done(BadRequest(StatusError("Erro ao criar OS desativação: ", status, text)))
         else Next(ContractStage(ticket, order, json)))
    case ContractStage(ticket, order, deactivation) =>
      (match ContractFetch(reply)
       case Raised => Done(ServerError)
       case Refused(e) => Done(BadRequest(e))
       case Got(record) => Next(ContractPutStage(ticket, order, deactivation, record)))
    case ContractPutStage(ticket, order, deactivation, _) => Done(PutAnswer(ticket, order, deactivation, reply))
  }

  /** The route's answer once the contract write got `reply`: the three ids, or the write's or the deactivation's failure. */
  function PutAnswer(ticket: Value, order: Value, deactivation: Option<Doc>, reply: Reply): Response
  {
    match reply
    case Unreachable(_) => ServerError
    case Answered(status, text, _) =>
      if status != 200 then BadRequest(StatusError("Erro ao atualizar contrato: ", status, text))
      else match CreatedId(deactivation)
        case Got(d) => Ok(Transferred(ticket, order, d))
        case _ => ServerError
  }

  /** The stages a run went through, the requests it sent and its answer. */
  datatype Run = Run(stages: seq<Stage>, sent: seq<Request>, response: Response)

  /** The run from stage `s` on, after the requests `hist`. */
  function Proceed(answer: Oracle, hist: seq<Request>, job: Job, s: Stage): Run
    decreases LastStage - Index(s)
  {
    var req := StageRequest(job, s);
    match Advance(s, answer(hist, req))
    case Done(resp) => Run([s], [req], resp)
    case Next(s') =>
      var rest := Proceed(answer, hist + [req], job, s');
      Run([s] + rest.stages, [req] + rest.sent, rest.response)
  }

  /** `rota_transfer`: the requests it sends after `hist` and its answer. */
  function RunTransfer(answer: Oracle, hist: seq<Request>, data: Record, reformat: Reformatter): Trace
  {
    match ExtractTransfer(data)
    case Invalid(e) => Trace([], BadRequest(e))
    case Valid(f) =>
      var run := Proceed(answer, hist, Job(f, TicketMessage(f), reformat), LoginStage);
      Trace(run.sent, run.response)
  }

  // ---------------------------------------------------------------------------
  // The route

  /** The requests `before` grew to `after` by the run from stage `s` on, which answered `resp`. */
  ghost predicate Completes(answer: Oracle, before: seq<Request>, after: seq<Request>, job: Job, s: Stage, resp: Response)
  {
    var run := Proceed(answer, before, job, s);
    after == before + run.sent && resp == run.response
  }

  /** A stage that answers `resp`: its request is the last one sent. */
  lemma CompletesDone(answer: Oracle, before: seq<Request>, job: Job, s: Stage, resp: Response)
    requires Advance(s, answer(before, StageRequest(job, s))) == Done(resp)
    ensures Completes(answer, before, before + [StageRequest(job, s)], job, s, resp)
  {
  }

  /** A stage that goes on to `s'`: its request is sent, then the run from `s'` completes it. */
  lemma CompletesNext(answer: Oracle, before: seq<Request>, after: seq<Request>, job: Job, s: Stage, s': Stage, resp: Response)
    requires Advance(s, answer(before, StageRequest(job, s))) == Next(s')
    requires Completes(answer, before + [StageRequest(job, s)], after, job, s', resp)
    ensures Completes(answer, before, after, job, s, resp)
  {
    var req := StageRequest(job, s);
    var rest := Proceed(answer, before + [req], job, s');
    var run := Proceed(answer, before, job, s);
    assert run == Run([s] + rest.stages, [req] + rest.sent, rest.response);
    assert after == (before + [req]) + rest.sent;
    assert (before + [req]) + rest.sent == before + ([req] + rest.sent);
  }

  /** The contract write, on the fields patched from `record`, is the last request and `PutAnswer` the answer. */
  lemma CompletesPut(answer: Oracle, before: seq<Request>, job: Job, ticket: Value, order: Value, deactivation: Option<Doc>,
                     record: Record, fields: Record)
    requires fields == Patched(record, job.input.newAddress, KeepOrBlank, job.reformat)
    ensures var req := ContractUpdate(job.input.contractId, fields);
      Completes(answer, before, before + [req], job, ContractPutStage(ticket, order, deactivation, record),
                PutAnswer(ticket, order, deactivation, answer(before, req)))
  {
    var s := ContractPutStage(ticket, order, deactivation, record);
    assert StageRequest(job, s) == ContractUpdate(job.input.contractId, fields);
    CompletesDone(answer, before, job, s, PutAnswer(ticket, order, deactivation, answer(before, StageRequest(job, s))));
  }

  /** `rota_transfer` against the ERP behind `erp`. */
  method Transfer(erp: Gateway, data: Record, reformat: Reformatter) returns (resp: Response)
    modifies erp
    ensures erp.log == old(erp.log) + RunTransfer(erp.answer, old(erp.log), data, reformat).sent
    ensures resp == RunTransfer(erp.answer, old(erp.log), data, reformat).response
  {
    var input := ExtractTransfer(data);
    if input.Invalid? {
      return BadRequest(input.error);
    }
    var mensagem := TicketMessage(input.value);
    resp := FetchLogin(erp, Job(input.value, mensagem, reformat));
  }

  /** 1) the network login of the contract. */
  method FetchLogin(erp: Gateway, job: Job) returns (resp: Response)
    modifies erp
    ensures Completes(erp.answer, old(erp.log), erp.log, job, LoginStage, resp)
  {
    var reply := erp.Call(LoginLookup(job.input.contractId));
    var login := LoginId(reply);
    if login.Raised? {
      resp := ServerError;
      CompletesDone(erp.answer, old(erp.log), job, LoginStage, resp);
      return;
    } else if login.Refused? {
      resp := BadRequest(login.error);
      CompletesDone(erp.answer, old(erp.log), job, LoginStage, resp);
      return;
    }
    resp := CreateTicket(erp, job, login.value);
    CompletesNext(erp.answer, old(erp.log), erp.log, job, LoginStage, TicketStage(login.value), resp);
  }

  /** 2) the transfer ticket. */
  method CreateTicket(erp: Gateway, job: Job, login: Value) returns (resp: Response)
    modifies erp
    ensures Completes(erp.answer, old(erp.log), erp.log, job, TicketStage(login), resp)
  {
    var reply := erp.Call(TicketRequest(job.input, login, job.description));
    if reply.Unreachable? {
      resp := ServerError;
      CompletesDone(erp.answer, old(erp.log), job, TicketStage(login), resp);
      return;
    } else if reply.status != 200 {
      resp := BadRequest(StatusError("Erro ao criar ticket: ", reply.status, reply.text));
      CompletesDone(erp.answer, old(erp.log), job, TicketStage(login), resp);
      return;
    }
    var ticket := CreatedId(reply.json);
    if !ticket.Got? {
      resp := ServerError;
      CompletesDone(erp.answer, old(erp.log), job, TicketStage(login), resp);
      return;
    }
    resp := FindOrder(erp, job, login, ticket.value);
    CompletesNext(erp.answer, old(erp.log), erp.log, job, TicketStage(login), OrderStage(login, ticket.value), resp);
  }

  /** 3) the service order the ticket spawned. */
  method FindOrder(erp: Gateway, job: Job, login: Value, ticket: Value) returns (resp: Response)
    modifies erp
    ensures Completes(erp.answer, old(erp.log), erp.log, job, OrderStage(login, ticket), resp)
  {
    var reply := erp.Call(OrderLookup(ticket));
    var order := LocateOrder(reply);
    if order.Raised? {
      resp := ServerError;
      CompletesDone(erp.answer, old(erp.log), job, OrderStage(login, ticket), resp);
      return;
    } else if order.Refused? {
      resp := BadRequest(order.error);
      CompletesDone(erp.answer, old(erp.log), job, OrderStage(login, ticket), resp);
      return;
    }
    resp := ScheduleVisit(erp, job, login, ticket, order.value);
    CompletesNext(erp.answer, old(erp.log), erp.log, job, OrderStage(login, ticket), ScheduleStage(login, ticket, order.value), resp);
  }

  /** 4) reschedule the order as the transfer visit at the new address. */
  method ScheduleVisit(erp: Gateway, job: Job, login: Value, ticket: Value, found: FoundOrder) returns (resp: Response)
    modifies erp
    ensures Completes(erp.answer, old(erp.log), erp.log, job, ScheduleStage(login, ticket, found), resp)
  {
    var reply := erp.Call(ScheduleRequest(job.input, login, found.id, ScheduleMessage(found, job.description)));
    if reply.Unreachable? {
      resp := ServerError;
      CompletesDone(erp.answer, old(erp.log), job, ScheduleStage(login, ticket, found), resp);
      return;
    } else if reply.status != 200 {
      resp := BadRequest(StatusError("Erro ao agendar OS: ", reply.status, reply.text));
      CompletesDone(erp.answer, old(erp.log), job, ScheduleStage(login, ticket, found), resp);
      return;
    }
    resp := RequestProtocol(erp, job, login, ticket, found.id);
    CompletesNext(erp.answer, old(erp.log), erp.log, job, ScheduleStage(login, ticket, found), ProtocolStage(login, ticket, found.id), resp);
  }

  /** 5a) a fresh protocol number. */
  method RequestProtocol(erp: Gateway, job: Job, login: Value, ticket: Value, order: Value) returns (resp: Response)
    modifies erp
    ensures Completes(erp.answer, old(erp.log), erp.log, job, ProtocolStage(login, ticket, order), resp)
  {
    var reply := erp.Call(ProtocolRequest);
    if reply.Unreachable? {
      resp := ServerError;
      CompletesDone(erp.answer, old(erp.log), job, ProtocolStage(login, ticket, order), resp);
      return;
    }
    resp := CreateDeactivation(erp, job, login, ticket, order, reply.text);
    CompletesNext(erp.answer, old(erp.log), erp.log, job, ProtocolStage(login, ticket, order), DeactivationStage(login, ticket, order, reply.text), resp);
  }

  /** 5b) the order that deactivates the port at the old address. */
  method CreateDeactivation(erp: Gateway, job: Job, login: Value, ticket: Value, order: Value, protocol: string)
    returns (resp: Response)
    modifies erp
    ensures Completes(erp.answer, old(erp.log), erp.log, job, DeactivationStage(login, ticket, order, protocol), resp)
  {
    var reply := erp.Call(DeactivationRequest(job.input, login, protocol));
    if reply.Unreachable? {
      resp := ServerError;
      CompletesDone(erp.answer, old(erp.log), job, DeactivationStage(login, ticket, order, protocol), resp);
      return;
    } else if reply.status != 200 {
      resp := BadRequest(StatusError("Erro ao criar OS desativação: ", reply.status, reply.text));
      CompletesDone(erp.answer, old(erp.log), job, DeactivationStage(login, ticket, order, protocol), resp);
      return;
    }
    resp := FetchContract(erp, job, ticket, order, reply.json);
    CompletesNext(erp.answer, old(erp.log), erp.log, job, DeactivationStage(login, ticket, order, protocol), ContractStage(ticket, order, reply.json), resp);
  }

  /** 6a) the contract record. */
  method FetchContract(erp: Gateway, job: Job, ticket: Value, order: Value, deactivation: Option<Doc>) returns (resp: Response)
    modifies erp
    ensures Completes(erp.answer, old(erp.log), erp.log, job, ContractStage(ticket, order, deactivation), resp)
  {
    var reply := erp.Call(ContractLookup(job.input.contractId));
    var fetched := ContractFetch(reply);
    if fetched.Raised? {
      resp := ServerError;
      CompletesDone(erp.answer, old(erp.log), job, ContractStage(ticket, order, deactivation), resp);
      return;
    } else if fetched.Refused? {
      resp := BadRequest(fetched.error);
      CompletesDone(erp.answer, old(erp.log), job, ContractStage(ticket, order, deactivation), resp);
      return;
    }
    resp := PutContract(erp, job, ticket, order, deactivation, fetched.value);
    CompletesNext(erp.answer, old(erp.log), erp.log, job, ContractStage(ticket, order, deactivation), ContractPutStage(ticket, order, deactivation, fetched.value), resp);
  }

  /** 6b) patch the record in place and write it back; then answer with the three ids. */
  method PutContract(erp: Gateway, job: Job, ticket: Value, order: Value, deactivation: Option<Doc>, record: Record)
    returns (resp: Response)
    modifies erp
    ensures Completes(erp.answer, old(erp.log), erp.log, job, ContractPutStage(ticket, order, deactivation, record), resp)
  {
    var fields := PatchRecord(record, job.input.newAddress, KeepOrBlank, job.reformat);
    var reply := erp.Call(ContractUpdate(job.input.contractId, fields));
    if reply.Unreachable? {
      resp := ServerError;
    } else if reply.status != 200 {
      resp := BadRequest(StatusError("Erro ao atualizar contrato: ", reply.status, reply.text));
    } else {
      var created := CreatedId(deactivation);
      resp := if created.Got? then Ok(Transferred(ticket, order, created.value)) else ServerError;
    }
    CompletesPut(erp.answer, old(erp.log), job, ticket, order, deactivation, record, fields);
  }

}
