/**
 * The contract-update route `rota_update_contrato`: after validating the
 * body it fetches the contract, patches the record with the new address and
 * the request's cancellation reason, writes it back, re-reads the contract
 * and answers with the ERP's reply to the write.
 *
 * `RunUpdate` states the exchange as a function of the ERP oracle; the
 * method `UpdateContract` performs it against a `Gateway`.
 */
module UpdateContract {
  import opened Wrappers
  import opened Json
  import opened Erp
  import opened RequestFields
  import opened ContractPatch

  const UpdateFailed := "Erro ao atualizar contrato: "

  /** The record write for contract `c`, from the fetched record. */
  function UpdateRequest(c: ContractInput, record: Record, reformat: Reformatter): Request
  {
    ContractUpdate(c.contractId, Patched(record, c.newAddress, Override(c.cancelReason), reformat))
  }

  /**
   * After the write was accepted: the confirmation re-read, whose reply is
   * only sent for, then the write's own JSON reply as the answer.
   */
  function Confirmed(confirm: Reply, written: Option<Doc>): Response
  {
    if confirm.Unreachable? then ServerError
    else match written
      case None => ServerError
      case Some(doc) => Ok(ContractUpdated(doc))
  }

  /** After the record was found: the write of the patched record and, once it is accepted, the re-read. */
  function WriteBack(answer: Oracle, hist: seq<Request>, c: ContractInput, reformat: Reformatter, record: Record): Trace
  {
    var put := UpdateRequest(c, record, reformat);
    match answer(hist, put)
    case Unreachable(_) => Trace([put], ServerError)
    case Answered(status, text, written) =>
      if status != 200 then Trace([put], BadRequest(StatusError(UpdateFailed, status, text)))
      else
        var lookup := ContractLookup(c.contractId);
        Trace([put, lookup], Confirmed(answer(hist + [put], lookup), written))
  }

  /** The exchange for a valid body `c`, after the requests `hist`. */
  function UpdateFrom(answer: Oracle, hist: seq<Request>, c: ContractInput, reformat: Reformatter): Trace
  {
    var lookup := ContractLookup(c.contractId);
    match ContractFetch(answer(hist, lookup))
    case Raised => Trace([lookup], ServerError)
    case Refused(e) => Trace([lookup], BadRequest(e))
    case Got(record) => Then(lookup, WriteBack(answer, hist + [lookup], c, reformat, record))
  }

  /** `rota_update_contrato`: the requests it sends after `hist` and its answer. */
  function RunUpdate(answer: Oracle, hist: seq<Request>, data: Record, reformat: Reformatter): Trace
  {
    match ExtractContractUpdate(data)
    case Invalid(e) => Trace([], BadRequest(e))
    case Valid(c) => UpdateFrom(answer, hist, c, reformat)
  }

  // ---------------------------------------------------------------------------
  // The route

  /** `rota_update_contrato` against the ERP behind `erp`. */
  method UpdateContract(erp: Gateway, data: Record, reformat: Reformatter) returns (resp: Response)
    modifies erp
    ensures erp.log == old(erp.log) + RunUpdate(erp.answer, old(erp.log), data, reformat).sent
    ensures resp == RunUpdate(erp.answer, old(erp.log), data, reformat).response
  {
    var input := ExtractContractUpdate(data);
    if input.Invalid? {
      return BadRequest(input.error);
    }
    resp := FetchAndUpdate(erp, input.value, reformat);
  }

  /** The fetch for a valid body, then the write-back. */
  method FetchAndUpdate(erp: Gateway, c: ContractInput, reformat: Reformatter) returns (resp: Response)
    modifies erp
    ensures erp.log == old(erp.log) + UpdateFrom(erp.answer, old(erp.log), c, reformat).sent
    ensures resp == UpdateFrom(erp.answer, old(erp.log), c, reformat).response
  {
    var lookup := ContractLookup(c.contractId);
    var res := erp.Call(lookup);
    var fetched := ContractFetch(res);
    if fetched.Raised? {
      return ServerError;
    } else if fetched.Refused? {
      return BadRequest(fetched.error);
    }
    ghost var fetchedLog := erp.log;
    resp := PatchAndWrite(erp, c, reformat, fetched.value);
    ghost var rest := WriteBack(erp.answer, fetchedLog, c, reformat, fetched.value);
    assert fetchedLog + rest.sent == old(erp.log) + ([lookup] + rest.sent);
  }

  /** The in-place patch of the fetched record, its write and the confirmation re-read. */
  method PatchAndWrite(erp: Gateway, c: ContractInput, reformat: Reformatter, record: Record) returns (resp: Response)
    modifies erp
    ensures erp.log == old(erp.log) + WriteBack(erp.answer, old(erp.log), c, reformat, record).sent
    ensures resp == WriteBack(erp.answer, old(erp.log), c, reformat, record).response
  {
    var fields := PatchRecord(record, c.newAddress, Override(c.cancelReason), reformat);
    var resPut := erp.Call(ContractUpdate(c.contractId, fields));
    if resPut.Unreachable? {
      return ServerError;
    } else if resPut.status != 200 {
      return BadRequest(StatusError(UpdateFailed, resPut.status, resPut.text));
    }
    var confirm := erp.Call(ContractLookup(c.contractId));
    resp := Confirmed(confirm, resPut.json);
  }

  // ---------------------------------------------------------------------------
  // Properties

  /** A body without a contract id sends nothing to the ERP and answers 400; a valid one starts with the contract lookup. */
  lemma UpdateNoRequestWhenInvalid(answer: Oracle, hist: seq<Request>, data: Record, reformat: Reformatter)
    ensures RunUpdate(answer, hist, data, reformat).sent == [] <==> ExtractContractUpdate(data).Invalid?
    ensures ExtractContractUpdate(data).Invalid? ==> RunUpdate(answer, hist, data, reformat).response == BadRequest(MissingContractId)
    ensures ExtractContractUpdate(data).Valid? ==>
      RunUpdate(answer, hist, data, reformat).sent[0] == ContractLookup(ExtractContractUpdate(data).value.contractId)
  {
  }

  /**
   * For a valid body the route sends the lookup, then (once a record was
   * found) the write of the patched record, then (once the write got status
   * 200) the same lookup again, and nothing else.
   */
  lemma UpdateRequests(answer: Oracle, hist: seq<Request>, c: ContractInput, reformat: Reformatter)
    ensures var t := UpdateFrom(answer, hist, c, reformat);
      var r0 := answer(hist, ContractLookup(c.contractId));
      && 1 <= |t.sent| <= 3
      && t.sent[0] == ContractLookup(c.contractId)
      && (|t.sent| > 1 <==> ContractFetch(r0).Got?)
      && (|t.sent| > 1 ==> t.sent[1] == UpdateRequest(c, ContractFetch(r0).value, reformat))
      && (|t.sent| > 2 <==> |t.sent| > 1 && Replies(answer, hist, t.sent)[1].Answered? && Replies(answer, hist, t.sent)[1].status == 200)
      && (|t.sent| > 2 ==> t.sent[2] == t.sent[0])
  {
    ReplyShapes(answer, hist, c, reformat);
  }

  /** The write carries the new address and the request's cancellation reason, over the fetched record. */
  lemma UpdateWritesAddressAndReason(c: ContractInput, record: Record, reformat: Reformatter)
    ensures var req := UpdateRequest(c, record, reformat);
      && req.verb == Put && req.endpoint == "cliente_contrato" && req.target == Some(Show(c.contractId))
      && req.body.Some?
      && AddressKeys <= req.body.value.Keys
      && req.body.value["endereco"] == c.newAddress.street
      && req.body.value["numero"] == c.newAddress.number
      && req.body.value["bairro"] == c.newAddress.district
      && req.body.value["cep"] == c.newAddress.postalCode
      && req.body.value["cidade"] == c.newAddress.city
      && CancelReasonKey in req.body.value && req.body.value[CancelReasonKey] == c.cancelReason
  {
    PatchedAddress(record, c.newAddress, Override(c.cancelReason), reformat);
    PatchedCancelReason(record, c.newAddress, Override(c.cancelReason), reformat);
  }

  /**
   * The route answers 200 exactly when the write got status 200 with a JSON
   * reply and the re-read was answered at all, and it answers with the
   * write's reply; what the re-read returned plays no part. A write that got
   * status 200 but is not followed by a 200 answer ends in a 500.
   */
  lemma UpdateSucceeds(answer: Oracle, hist: seq<Request>, c: ContractInput, reformat: Reformatter)
    ensures var t := UpdateFrom(answer, hist, c, reformat);
      var rs := Replies(answer, hist, t.sent);
      && (t.response.Ok? <==>
            |t.sent| == 3 && rs[1].Answered? && rs[1].status == 200 && rs[1].json.Some? && rs[2].Answered?)
      && (t.response.Ok? ==> t.response.body == ContractUpdated(rs[1].json.value))
      && (|t.sent| == 3 && rs[1].Answered? && rs[1].status == 200 && !t.response.Ok? ==> t.response == ServerError)
  {
    ReplyShapes(answer, hist, c, reformat);
    var lookup := ContractLookup(c.contractId);
    var fetched := ContractFetch(answer(hist, lookup));
    if fetched.Got? {
      var put := UpdateRequest(c, fetched.value, reformat);
      var w := WriteBack(answer, hist + [lookup], c, reformat, fetched.value);
      assert UpdateFrom(answer, hist, c, reformat) == Trace([lookup] + w.sent, w.response);
      var written := answer(hist + [lookup], put);
      if written.Answered? && written.status == 200 {
        assert hist + [lookup] + [put] == hist + [lookup, put];
      }
    }
  }

  /** The replies to the second and third requests of an update are the ones `WriteBack` reads. */
  lemma ReplyShapes(answer: Oracle, hist: seq<Request>, c: ContractInput, reformat: Reformatter)
    ensures var t := UpdateFrom(answer, hist, c, reformat);
      var lookup := ContractLookup(c.contractId);
      var rs := Replies(answer, hist, t.sent);
      && rs[0] == answer(hist, lookup)
      && (|t.sent| > 1 ==> rs[1] == answer(hist + [lookup], t.sent[1]))
      && (|t.sent| > 2 ==> rs[2] == answer(hist + [lookup, t.sent[1]], lookup))
  {
    var t := UpdateFrom(answer, hist, c, reformat);
    var lookup := ContractLookup(c.contractId);
    var rs := Replies(answer, hist, t.sent);
    assert t.sent[0] == lookup;
    assert hist + t.sent[..0] == hist;
    assert rs[0] == ReplyAt(answer, hist, t.sent, 0);
    if |t.sent| > 1 {
      assert t.sent[..1] == [lookup];
      assert rs[1] == ReplyAt(answer, hist, t.sent, 1);
    }
    if |t.sent| > 2 {
      assert t.sent[2] == lookup;
      assert t.sent[..2] == [lookup, t.sent[1]];
      assert rs[2] == ReplyAt(answer, hist, t.sent, 2);
    }
  }
}
