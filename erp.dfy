/**
 * The ERP as the routes see it: the requests they send, the replies they
 * read, an oracle standing for the remote system with a log of every request
 * issued, and the reading of lookup replies done by `consultar_ixc_registro`
 * and `get_login_id`. Also the shape of the routes' own HTTP answers.
 */
module Erp {
  import opened Wrappers
  import opened Json

  datatype Verb = Post | Put

  /** The `ixcsoft` header: absent, `listar` (a list query) or `inserir`. */
  datatype Marker = NoMarker | Listar | Inserir

  /**
   * One HTTP call: verb, endpoint under the ERP's base URL, the identifier
   * appended to the URL (`/{endpoint}/{id}`), the `ixcsoft` marker and the
   * JSON body, if any.
   */
  datatype Request = Request(verb: Verb, endpoint: string, target: Option<string>, marker: Marker, body: Option<Record>)

  /**
   * A reply body that parsed as JSON: an object or a bare scalar. An
   * object's `registros` member, when it is a list of records, is
   * `registros`; every other member, including a scalar `registros`, is in
   * `fields`. A JSON object has one member per name, so a model of a real
   * body never has both.
   */
  datatype Doc = Obj(fields: Record, registros: Option<seq<Record>>) | Scalar(v: Value)

  /**
   * What a call produces: no answer at all (the `requests` call raises), or a
   * status code, the body text and, when the text is JSON, its parse.
   */
  datatype Reply = Unreachable(reason: string) | Answered(status: int, text: string, json: Option<Doc>)

  /** The ERP's answer to a request, given every request sent before it. */
  type Oracle = (seq<Request>, Request) -> Reply

  /** The ERP seen from one route invocation: the oracle and the requests sent so far. */
  class Gateway {
    const answer: Oracle
    var log: seq<Request>

    constructor (answer: Oracle)
      ensures this.answer == answer && log == []
    {
      this.answer := answer;
      log := [];
    }

    /** Send one request: it is appended to the log and answered by the oracle. */
    method Call(req: Request) returns (reply: Reply)
      modifies this
      ensures log == old(log) + [req]
      ensures reply == answer(old(log), req)
    {
      reply := answer(log, req);
      log := log + [req];
    }
  }

  /** A step's result: a value, a refusal with the text of the 400 answer, or an exception (a 500 answer). */
  datatype Outcome<T> = Got(value: T) | Refused(error: string) | Raised

  /** The ERP's list-query filter: one field, equality, first page, one row. */
  function ListQuery(qtype: string, query: Value): Record
  {
    map["qtype" := Str(qtype), "query" := query, "oper" := Str("="), "page" := Str("1"), "rp" := Str("1")]
  }

  /** A list query: a POST with the `listar` marker. */
  function ListRequest(endpoint: string, filter: Record): Request
  {
    Request(Post, endpoint, None, Listar, Some(filter))
  }

  /** `int(data.get("total", 0))`, which `consultar_ixc_registro` turns into 0 when it raises. */
  function TotalOf(doc: Doc): int
  {
    match doc
    case Scalar(_) => 0
    case Obj(fields, _) =>
      match IntOf(GetOr(fields, "total", Int(0)))
      case None => 0
      case Some(n) => n
  }

  predicate HasRecords(doc: Doc)
  {
    doc.Obj? && doc.registros.Some? && doc.registros.value != []
  }

  /**
   * How `consultar_ixc_registro` reads the reply to its list query: the
   * first record when the total is a non-zero integer, an error text when
   * the call or the JSON failed or the total is absent, not an integer or 0,
   * and an exception when a non-zero total comes without records.
   */
  function ConsultarRegistro(endpoint: string, reply: Reply): (r: Outcome<Record>)
    ensures r.Got? <==> reply.Answered? && reply.json.Some? && TotalOf(reply.json.value) != 0 && HasRecords(reply.json.value)
    ensures r.Got? ==> r.value == reply.json.value.registros.value[0]
    ensures r.Refused? <==> reply.Unreachable? || reply.json.None? || TotalOf(reply.json.value) == 0
  {
    match reply
    case Unreachable(reason) => Refused("Erro conexão IXC " + endpoint + ": " + reason)
    case Answered(status, text, json) =>
      match json
      case None => Refused("Erro ao ler resposta IXC " + endpoint + ": status " + IntToString(status) + " - " + text)
      case Some(doc) =>
        if TotalOf(doc) == 0 then Refused("Nenhum registro encontrado em " + endpoint + ".")
        else if HasRecords(doc) then Got(doc.registros.value[0])
        else Raised
  }

  /** The network-login query of `get_login_id`. */
  function LoginLookup(contractId: Value): Request
  {
    ListRequest("radusuarios", ListQuery("id_contrato", Str(Show(contractId))))
  }

  /** `get_login_id`: the `id` of the login record, or the lookup's error. */
  function LoginId(reply: Reply): Outcome<Value>
  {
    match ConsultarRegistro("radusuarios", reply)
    case Got(record) => Got(Get(record, "id"))
    case Refused(e) => Refused(e)
    case Raised => Raised
  }

  /** What a route answers. */
  datatype Success =
    | Transferred(ticketId: Value, transferOrderId: Value, deactivationOrderId: Value)
    | ContractUpdated(putResponse: Doc)

  datatype Response = Ok(body: Success) | BadRequest(error: string) | ServerError

  function StatusCode(r: Response): int
  {
    match r
    case Ok(_) => 200
    case BadRequest(_) => 400
    case ServerError => 500
  }

  /** The text of a 400 answer after a call returned another status than 200: `f"{prefix}{status} - {text}"`. */
  function StatusError(prefix: string, status: int, text: string): string
  {
    prefix + IntToString(status) + " - " + text
  }

  /** The requests a route sends, in order, and its answer. */
  datatype Trace = Trace(sent: seq<Request>, response: Response)

  /** A trace that starts with `req` and goes on as `rest`. */
  function Then(req: Request, rest: Trace): Trace
  {
    Trace([req] + rest.sent, rest.response)
  }

  /** The answer to the `k`-th request of `sent`, sent after `hist`. */
  function ReplyAt(answer: Oracle, hist: seq<Request>, sent: seq<Request>, k: nat): Reply
    requires k < |sent|
  {
    answer(hist + sent[..k], sent[k])
  }

  /** The answers to each request of `sent`, in order. */
  function Replies(answer: Oracle, hist: seq<Request>, sent: seq<Request>): (rs: seq<Reply>)
    ensures |rs| == |sent|
    ensures forall k | 0 <= k < |sent| :: rs[k] == ReplyAt(answer, hist, sent, k)
  {
    seq(|sent|, k requires 0 <= k < |sent| => ReplyAt(answer, hist, sent, k))
  }

  /** Replies to a log that starts with `req` are replies to the rest of it, sent after `req`. */
  lemma ReplyAtShift(answer: Oracle, hist: seq<Request>, req: Request, sent: seq<Request>, k: nat)
    requires 1 <= k <= |sent|
    ensures ReplyAt(answer, hist, [req] + sent, k) == ReplyAt(answer, hist + [req], sent, k - 1)
  {
    assert ([req] + sent)[..k] == [req] + sent[..k - 1];
    assert hist + ([req] + sent[..k - 1]) == (hist + [req]) + sent[..k - 1];
  }

  // ---------------------------------------------------------------------------
  // Properties

  /** An absent, non-integer or zero `total` is reported as "no record found". */
  lemma LookupWithoutTotal(endpoint: string, status: int, text: string, fields: Record, registros: Option<seq<Record>>)
    requires "total" !in fields || IntOf(fields["total"]).None? || IntOf(fields["total"]) == Some(0)
    ensures ConsultarRegistro(endpoint, Answered(status, text, Some(Obj(fields, registros))))
         == Refused("Nenhum registro encontrado em " + endpoint + ".")
  {
  }

  /** A reply that is not a JSON object is also "no record found": reading its total raises inside the guarded block. */
  lemma LookupOfScalar(endpoint: string, status: int, text: string, v: Value)
    ensures ConsultarRegistro(endpoint, Answered(status, text, Some(Scalar(v))))
         == Refused("Nenhum registro encontrado em " + endpoint + ".")
  {
  }

  /** A non-zero total written as decimal text, with records, yields the first record. */
  lemma LookupOfDecimalTotal(endpoint: string, status: int, text: string, fields: Record, rs: seq<Record>, n: int)
    requires n != 0 && rs != []
    requires "total" in fields && fields["total"] == Str(IntToString(n))
    ensures ConsultarRegistro(endpoint, Answered(status, text, Some(Obj(fields, Some(rs))))) == Got(rs[0])
  {
    ParseIntOfIntToString(n);
  }

  /** `get_login_id` returns the first login record's `id`, or passes the lookup's error text on unchanged. */
  lemma LoginIdOfLookup(reply: Reply)
    ensures ConsultarRegistro("radusuarios", reply).Got? ==>
      LoginId(reply) == Got(Get(reply.json.value.registros.value[0], "id"))
    ensures ConsultarRegistro("radusuarios", reply).Refused? ==>
      LoginId(reply) == Refused(ConsultarRegistro("radusuarios", reply).error)
    ensures LoginId(reply).Raised? <==> ConsultarRegistro("radusuarios", reply).Raised?
  {
  }
}
