/**
 * The contract re-fetch and the in-place patch of the fetched record, shared
 * by the transfer route and the contract-update route: the new address
 * overwrites five keys, five date keys are re-serialised, the default-address
 * flag is cleared, the cancellation reason is defaulted or overridden, and the
 * ERP-managed timestamp is dropped.
 */
module ContractPatch {
  import opened Wrappers
  import opened Json
  import opened Erp
  import opened RequestFields

  /**
   * `pd.to_datetime(v).strftime(pattern)`, a library parser outside the
   * model: a text, or `None` where it raises.
   */
  type Reformatter = (Value, string) -> Option<string>

  const DateOnly := "%d/%m/%Y"
  const DateTime := "%d/%m/%Y %H:%M:%S"

  const AddressKeys: set<string> := {"endereco", "numero", "bairro", "cep", "cidade"}
  const DateKeys: set<string> := {"data", "data_expiracao", "data_ativacao", "data_renovacao", "data_cadastro_sistema"}
  const DefaultAddressKey := "endereco_padrao_cliente"
  const CancelReasonKey := "motivo_cancelamento"
  const UpdatedAtKey := "ultima_atualizacao"

  /** Every key the patch writes. */
  const WrittenKeys: set<string> := AddressKeys + DateKeys + {DefaultAddressKey, CancelReasonKey}

  /** The output pattern of each date key. */
  function PatternOf(key: string): string
  {
    if key == "data_cadastro_sistema" then DateTime else DateOnly
  }

  /** How the cancellation reason is written: kept (a space when absent), or replaced by the request's. */
  datatype CancelReason = KeepOrBlank | Override(reason: Value)

  const ContractNotFound := "Contrato não encontrado"

  /** `s` contains `w` as a contiguous piece (Python's `w in s` on strings). */
  predicate Contains(s: string, w: string)
    decreases |s|
  {
    |w| <= |s| && (s[..|w|] == w || (s != [] && Contains(s[1..], w)))
  }

  /** The contract query both routes send before the update. */
  function ContractLookup(contractId: Value): Request
  {
    ListRequest("cliente_contrato", ListQuery("id", Str(Show(contractId))))
  }

  /** The update of the whole contract record. */
  function ContractUpdate(contractId: Value, record: Record): Request
  {
    Request(Put, "cliente_contrato", Some(Show(contractId)), NoMarker, Some(record))
  }

  /**
   * The body makes `"registros" not in d or len(d["registros"]) == 0` true
   * without raising: an object with no `registros`, an empty list or an
   * empty string there, or a string not containing the word.
   */
  predicate NoContract(doc: Doc)
  {
    match doc
    case Obj(fields, registros) =>
      registros == Some([]) || (registros.None? && ("registros" !in fields || fields["registros"] == Str("")))
    case Scalar(v) => v.Str? && !Contains(v.s, "registros")
  }

  /**
   * How both routes read the contract query's reply: `contrato_data =
   * res.json()` raises on a body that is not JSON, `"registros" not in
   * contrato_data` is a membership test on an object, a substring test on a
   * string and raises on other scalars. An object's scalar `registros`
   * member is empty only as the empty string; `len` raises on any other
   * scalar, and the first character of a non-empty string cannot take the
   * new address.
   */
  function ContractFetch(reply: Reply): (r: Outcome<Record>)
    ensures r.Got? <==> reply.Answered? && reply.json.Some? && HasRecords(reply.json.value)
    ensures r.Got? ==> r.value == reply.json.value.registros.value[0]
    ensures r.Refused? ==> r.error == ContractNotFound
  {
    match reply
    case Unreachable(_) => Raised
    case Answered(_, _, None) => Raised
    case Answered(_, _, Some(doc)) =>
      match doc
      case Obj(fields, registros) =>
        if registros.Some? then
          (if registros.value != [] then Got(registros.value[0]) else Refused(ContractNotFound))
        else if "registros" !in fields || fields["registros"] == Str("") then Refused(ContractNotFound)
        else Raised
      case Scalar(Str(s)) => if Contains(s, "registros") then Raised else Refused(ContractNotFound)
      case Scalar(_) => Raised
  }

  /**
   * When the contract lookup finds the contract and when it answers
   * "Contrato não encontrado"; every other reply raises.
   */
  lemma ContractFetchReads(reply: Reply)
    ensures var r := ContractFetch(reply);
      && (r.Got? <==> reply.Answered? && reply.json.Some? && HasRecords(reply.json.value))
      && (r.Got? ==> r.value == reply.json.value.registros.value[0])
      && (r.Refused? <==> reply.Answered? && reply.json.Some? && NoContract(reply.json.value))
  {
  }

  /** The local `try_format(field, fmt)` over the record `r` as it stands. */
  function TryFormatted(r: Record, key: string, pattern: string, reformat: Reformatter): Value
  {
    if key in r && Truthy(r[key]) then
      match reformat(r[key], pattern)
      case Some(s) => Str(s)
      case None => r[key]
    else GetOr(r, key, Str(""))
  }

  /** `registro[k] = v` for the five address keys. */
  function WithAddress(r: Record, a: Address): Record
  {
    r["endereco" := a.street]["numero" := a.number]["bairro" := a.district]["cep" := a.postalCode]["cidade" := a.city]
  }

  /** The five `try_format` assignments, each reading the record as the previous one left it. */
  function WithDates(r: Record, reformat: Reformatter): Record
  {
    var r2 := r["data" := TryFormatted(r, "data", DateOnly, reformat)];
    var r3 := r2["data_expiracao" := TryFormatted(r2, "data_expiracao", DateOnly, reformat)];
    var r4 := r3["data_ativacao" := TryFormatted(r3, "data_ativacao", DateOnly, reformat)];
    var r5 := r4["data_renovacao" := TryFormatted(r4, "data_renovacao", DateOnly, reformat)];
    r5["data_cadastro_sistema" := TryFormatted(r5, "data_cadastro_sistema", DateTime, reformat)]
  }

  /** The default-address flag, the cancellation reason and the removal of the timestamp. */
  function WithMarkers(r: Record, reason: CancelReason): Record
  {
    var r7 := r[DefaultAddressKey := Str("N")];
    var r8 := r7[CancelReasonKey := match reason case KeepOrBlank => GetOr(r7, CancelReasonKey, Str(" ")) case Override(v) => v];
    if UpdatedAtKey in r8 then r8 - {UpdatedAtKey} else r8
  }

  /** The record after the patch statements, applied in the order the routes apply them. */
  function Patched(r: Record, a: Address, reason: CancelReason, reformat: Reformatter): Record
  {
    WithMarkers(WithDates(WithAddress(r, a), reformat), reason)
  }

  /** The fetched contract record, changed in place by the route. */
  class ContractRecord {
    var fields: Record

    constructor (r: Record)
      ensures fields == r
    {
      fields := r;
    }

    /** `registro[key] = v`. */
    method Put(key: string, v: Value)
      modifies this
      ensures fields == old(fields)[key := v]
    {
      fields := fields[key := v];
    }

    /** `registro.pop(key, None)`. */
    method Pop(key: string)
      modifies this
      ensures fields == old(fields) - {key}
    {
      fields := fields - {key};
    }

    /** `try_format(key, pattern)`, which reads the record and changes nothing. */
    method TryFormat(key: string, pattern: string, reformat: Reformatter) returns (v: Value)
      ensures v == TryFormatted(fields, key, pattern, reformat)
    {
      if key in fields && Truthy(fields[key]) {
        var s := reformat(fields[key], pattern);
        v := if s.Some? then Str(s.value) else fields[key];
      } else {
        v := GetOr(fields, key, Str(""));
      }
    }

    /** The patch statements of both routes; they differ only in how the cancellation reason is written. */
    method ApplyAddressChange(a: Address, reason: CancelReason, reformat: Reformatter)
      modifies this
      ensures fields == Patched(old(fields), a, reason, reformat)
    {
      Put("endereco", a.street);
      Put("numero", a.number);
      Put("bairro", a.district);
      Put("cep", a.postalCode);
      Put("cidade", a.city);
      assert fields == WithAddress(old(fields), a);
      ghost var addressed := fields;
      var v := TryFormat("data", DateOnly, reformat);
      Put("data", v);
      v := TryFormat("data_expiracao", DateOnly, reformat);
      Put("data_expiracao", v);
      v := TryFormat("data_ativacao", DateOnly, reformat);
      Put("data_ativacao", v);
      v := TryFormat("data_renovacao", DateOnly, reformat);
      Put("data_renovacao", v);
      v := TryFormat("data_cadastro_sistema", DateTime, reformat);
      Put("data_cadastro_sistema", v);
      assert fields == WithDates(addressed, reformat);
      ghost var dated := fields;
      Put(DefaultAddressKey, Str("N"));
      match reason {
        case KeepOrBlank => Put(CancelReasonKey, GetOr(fields, CancelReasonKey, Str(" ")));
        case Override(m) => Put(CancelReasonKey, m);
      }
      if UpdatedAtKey in fields {
        Pop(UpdatedAtKey);
      }
      assert fields == WithMarkers(dated, reason);
    }
  }

  /**
   * Both routes' handling of the fetched record: wrap it, patch it in place
   * and hand back the fields to write.
   */
  method PatchRecord(record: Record, a: Address, reason: CancelReason, reformat: Reformatter) returns (fields: Record)
    ensures fields == Patched(record, a, reason, reformat)
  {
    var registro := new ContractRecord(record);
    registro.ApplyAddressChange(a, reason, reformat);
    fields := registro.fields;
  }

  // ---------------------------------------------------------------------------
  // Properties of the patched record

  /** The five address keys hold the request's new address. */
  lemma PatchedAddress(r: Record, a: Address, reason: CancelReason, reformat: Reformatter)
    ensures var p := Patched(r, a, reason, reformat);
      && AddressKeys <= p.Keys
      && p["endereco"] == a.street && p["numero"] == a.number && p["bairro"] == a.district
      && p["cep"] == a.postalCode && p["cidade"] == a.city
  {
    var w := WithAddress(r, a);
    var d := WithDates(w, reformat);
    assert Patched(r, a, reason, reformat) == WithMarkers(d, reason);
    forall k | k in AddressKeys
      ensures k in WithMarkers(d, reason) && WithMarkers(d, reason)[k] == w[k]
    {
      WithDatesFrame(w, reformat, k);
      WithMarkersFrame(d, reason, k);
    }
  }

  /** The markers leave every key but their own as it was. */
  lemma WithMarkersFrame(r: Record, reason: CancelReason, key: string)
    requires key != DefaultAddressKey && key != CancelReasonKey && key != UpdatedAtKey
    ensures key in WithMarkers(r, reason) <==> key in r
    ensures key in r ==> WithMarkers(r, reason)[key] == r[key]
  {
  }

  /** The five `try_format` assignments leave every other key as it was. */
  lemma WithDatesFrame(r: Record, reformat: Reformatter, key: string)
    requires key !in DateKeys
    ensures key in WithDates(r, reformat) <==> key in r
    ensures key in r ==> WithDates(r, reformat)[key] == r[key]
  {
  }

  /** The record is no longer the client's default address and carries no update timestamp. */
  lemma PatchedMarkers(r: Record, a: Address, reason: CancelReason, reformat: Reformatter)
    ensures var p := Patched(r, a, reason, reformat);
      && DefaultAddressKey in p && p[DefaultAddressKey] == Str("N") && UpdatedAtKey !in p
  {
  }

  /** The cancellation reason: the record's own when present (a space when absent), or the override. */
  lemma PatchedCancelReason(r: Record, a: Address, reason: CancelReason, reformat: Reformatter)
    ensures var p := Patched(r, a, reason, reformat);
      && CancelReasonKey in p
      && (reason.KeepOrBlank? && CancelReasonKey in r ==> p[CancelReasonKey] == r[CancelReasonKey])
      && (reason.KeepOrBlank? && CancelReasonKey !in r ==> p[CancelReasonKey] == Str(" "))
      && (reason.Override? ==> p[CancelReasonKey] == reason.reason)
  {
  }

  /**
   * Each date key is re-serialised from the fetched value with its own
   * pattern: a truthy value becomes its reformatted text when the parser
   * accepts it and stays as it was otherwise, a present falsy value is kept,
   * and an absent key is added as `""`.
   */
  lemma PatchedDates(r: Record, a: Address, reason: CancelReason, reformat: Reformatter, key: string)
    requires key in DateKeys
    ensures var p := Patched(r, a, reason, reformat);
      && key in p
      && (key !in r ==> p[key] == Str(""))
      && (key in r && !Truthy(r[key]) ==> p[key] == r[key])
      && (key in r && Truthy(r[key]) && reformat(r[key], PatternOf(key)).Some? ==>
            p[key] == Str(reformat(r[key], PatternOf(key)).value))
      && (key in r && Truthy(r[key]) && reformat(r[key], PatternOf(key)).None? ==> p[key] == r[key])
  {
    var w := WithAddress(r, a);
    var d := WithDates(w, reformat);
    assert Patched(r, a, reason, reformat) == WithMarkers(d, reason);
    WithDatesAt(w, reformat, key);
    WithMarkersFrame(d, reason, key);
    assert key !in AddressKeys;
    assert (key in w <==> key in r) && (key in r ==> w[key] == r[key]);
  }

  /** Each date key ends up as `try_format` makes it from the record before the five assignments. */
  lemma WithDatesAt(r: Record, reformat: Reformatter, key: string)
    requires key in DateKeys
    ensures key in WithDates(r, reformat)
    ensures WithDates(r, reformat)[key] == TryFormatted(r, key, PatternOf(key), reformat)
  {
  }

  /** Every key the patch does not write keeps its presence and its value. */
  lemma PatchedFrame(r: Record, a: Address, reason: CancelReason, reformat: Reformatter)
    ensures var p := Patched(r, a, reason, reformat);
      forall k | k !in WrittenKeys && k != UpdatedAtKey :: (k in p <==> k in r) && (k in r ==> p[k] == r[k])
  {
  }

  /** The patched record has exactly the fetched keys, plus the written ones, minus the timestamp. */
  lemma PatchedKeys(r: Record, a: Address, reason: CancelReason, reformat: Reformatter)
    ensures Patched(r, a, reason, reformat).Keys == r.Keys + WrittenKeys - {UpdatedAtKey}
  {
  }

  /** The date parser gives back its own output when handed it again. */
  ghost predicate StableReformat(reformat: Reformatter)
  {
    forall v, pattern :: reformat(v, pattern).Some? ==>
      reformat(Str(reformat(v, pattern).value), pattern) == reformat(v, pattern)
  }

  lemma IdempotentAtDate(r: Record, a: Address, reason: CancelReason, reformat: Reformatter, k: string)
    requires StableReformat(reformat)
    requires k in DateKeys
    ensures var p := Patched(r, a, reason, reformat);
      k in p && k in Patched(p, a, reason, reformat) && Patched(p, a, reason, reformat)[k] == p[k]
  {
    var p := Patched(r, a, reason, reformat);
    var pattern := PatternOf(k);
    PatchedDates(r, a, reason, reformat, k);
    PatchedDates(p, a, reason, reformat, k);
    if k in r && Truthy(r[k]) && reformat(r[k], pattern).Some? {
      assert reformat(p[k], pattern) == reformat(r[k], pattern);
    }
  }

  /** Two records that agree on the written keys and on every other key are equal. */
  lemma EqualByKeys(p: Record, q: Record)
    requires q.Keys == p.Keys
    requires forall k | k in p && k !in WrittenKeys :: q[k] == p[k]
    requires forall k | k in DateKeys :: k in p && q[k] == p[k]
    requires AddressKeys <= p.Keys
    requires q["endereco"] == p["endereco"] && q["numero"] == p["numero"] && q["bairro"] == p["bairro"]
    requires q["cep"] == p["cep"] && q["cidade"] == p["cidade"]
    requires DefaultAddressKey in p && q[DefaultAddressKey] == p[DefaultAddressKey]
    requires CancelReasonKey in p && q[CancelReasonKey] == p[CancelReasonKey]
    ensures q == p
  {
    forall k | k in p
      ensures q[k] == p[k]
    {
      if k in WrittenKeys {
        assert k in DateKeys || k in AddressKeys || k == DefaultAddressKey || k == CancelReasonKey;
      }
    }
  }

  lemma IdempotentKeys(r: Record, a: Address, reason: CancelReason, reformat: Reformatter)
    ensures var p := Patched(r, a, reason, reformat);
      Patched(p, a, reason, reformat).Keys == p.Keys
  {
    PatchedKeys(r, a, reason, reformat);
    PatchedKeys(Patched(r, a, reason, reformat), a, reason, reformat);
  }

  lemma IdempotentAtUnwritten(r: Record, a: Address, reason: CancelReason, reformat: Reformatter)
    ensures var p := Patched(r, a, reason, reformat);
      forall k | k in p && k !in WrittenKeys :: Patched(p, a, reason, reformat)[k] == p[k]
  {
    PatchedFrame(Patched(r, a, reason, reformat), a, reason, reformat);
  }

  lemma IdempotentAtAddress(r: Record, a: Address, reason: CancelReason, reformat: Reformatter)
    ensures var p := Patched(r, a, reason, reformat);
      var q := Patched(p, a, reason, reformat);
      AddressKeys <= p.Keys &&
      q["endereco"] == p["endereco"] && q["numero"] == p["numero"] && q["bairro"] == p["bairro"] &&
      q["cep"] == p["cep"] && q["cidade"] == p["cidade"]
  {
    PatchedAddress(Patched(r, a, reason, reformat), a, reason, reformat);
    PatchedAddress(r, a, reason, reformat);
  }

  lemma IdempotentAtMarkers(r: Record, a: Address, reason: CancelReason, reformat: Reformatter)
    ensures var p := Patched(r, a, reason, reformat);
      var q := Patched(p, a, reason, reformat);
      && DefaultAddressKey in p && q[DefaultAddressKey] == p[DefaultAddressKey]
      && CancelReasonKey in p && q[CancelReasonKey] == p[CancelReasonKey]
  {
    var p := Patched(r, a, reason, reformat);
    PatchedMarkers(p, a, reason, reformat);
    PatchedMarkers(r, a, reason, reformat);
    PatchedCancelReason(p, a, reason, reformat);
    PatchedCancelReason(r, a, reason, reformat);
  }

  /**
   * Patching an already patched record with the same request changes nothing,
   * provided the date parser reads its own output back as the same date.
   */
  lemma PatchedIdempotent(r: Record, a: Address, reason: CancelReason, reformat: Reformatter)
    requires StableReformat(reformat)
    ensures Patched(Patched(r, a, reason, reformat), a, reason, reformat) == Patched(r, a, reason, reformat)
  {
    var p := Patched(r, a, reason, reformat);
    var q := Patched(p, a, reason, reformat);
    IdempotentKeys(r, a, reason, reformat);
    IdempotentAtUnwritten(r, a, reason, reformat);
    IdempotentAtAddress(r, a, reason, reformat);
    IdempotentAtMarkers(r, a, reason, reformat);
    forall k | k in DateKeys
      ensures k in p && q[k] == p[k]
    {
      IdempotentAtDate(r, a, reason, reformat, k);
    }
    EqualByKeys(p, q);
  }

  /**
   * A month-first reading of the two date-only forms the patch meets, as
   * pandas' default reads `2024-05-03` and `03/05/2024`: `YYYY-MM-DD`, and
   * `AA/BB/YYYY` with `AA` the month and `BB` the day; either is written back
   * as `%d/%m/%Y`. It is a stand-in for those inputs only: pandas falls back
   * to day first when `AA` exceeds 12 and rejects non-digit texts, which this
   * reading does not do. Other texts and patterns are left out.
   */
  function MonthFirst(v: Value, pattern: string): Option<string>
  {
    if pattern != DateOnly || !v.Str? || |v.s| != 10 then None
    else if v.s[4] == '-' && v.s[7] == '-' then Some(v.s[8..] + "/" + v.s[5..7] + "/" + v.s[..4])
    else if v.s[2] == '/' && v.s[5] == '/' then Some(v.s[3..5] + "/" + v.s[..2] + "/" + v.s[6..])
    else None
  }

  /** 3 May 2024 as `YYYY-MM-DD` is written day first. */
  lemma MonthFirstOfIso()
    ensures MonthFirst(Str("2024-05-03"), DateOnly) == Some("03/05/2024")
  {
    var t := "2024-05-03";
    assert t[8..] == "03" && t[5..7] == "05" && t[..4] == "2024";
    assert "03" + "/" + "05" + "/" + "2024" == "03/05/2024";
  }

  /** `03/05/2024` read month first is 5 March. */
  lemma MonthFirstOfWritten()
    ensures MonthFirst(Str("03/05/2024"), DateOnly) == Some("05/03/2024")
  {
    var t := "03/05/2024";
    assert t[3..5] == "05" && t[..2] == "03" && t[6..] == "2024";
    assert "05" + "/" + "03" + "/" + "2024" == "05/03/2024";
  }

  /** The month-first reading does not read its own output back as the same date. */
  lemma MonthFirstUnstable()
    ensures !StableReformat(MonthFirst)
  {
    var v := Str("2024-05-03");
    MonthFirstOfIso();
    MonthFirstOfWritten();
    assert MonthFirst(Str(MonthFirst(v, DateOnly).value), DateOnly) != MonthFirst(v, DateOnly);
  }

  /**
   * Under a month-first reading the patch is not idempotent: the contract
   * date 3 May 2024 is written `03/05/2024`, and patching that record again
   * turns it into `05/03/2024`, 5 March.
   */
  lemma MonthFirstRepatchSwaps(a: Address, reason: CancelReason)
    ensures var r := map["data" := Str("2024-05-03")];
      var p := Patched(r, a, reason, MonthFirst);
      && p["data"] == Str("03/05/2024")
      && Patched(p, a, reason, MonthFirst)["data"] == Str("05/03/2024")
      && Patched(p, a, reason, MonthFirst) != p
  {
    var r := map["data" := Str("2024-05-03")];
    var p := Patched(r, a, reason, MonthFirst);
    MonthFirstOfIso();
    MonthFirstOfWritten();
    PatchedDates(r, a, reason, MonthFirst, "data");
    PatchedDates(p, a, reason, MonthFirst, "data");
  }
}
