/**
 * Reading the JSON body of the two write routes: the mandatory identifiers,
 * the alias chains `d.get(a) or d.get(b) or ""`, the technician default and
 * the fee text.
 */
module RequestFields {
  import opened Json
  import opened DateFormat

  /**
   * `d.get(keys[0]) or d.get(keys[1]) or ... or fallback`: the value of the
   * first key whose value is truthy, and `fallback` when there is none.
   */
  function FirstTruthy(d: Record, keys: seq<string>, fallback: Value): (r: Value)
    ensures (forall i | 0 <= i < |keys| :: !Truthy(Get(d, keys[i]))) ==> r == fallback
    ensures forall i | 0 <= i < |keys| ::
      Truthy(Get(d, keys[i])) && (forall j | 0 <= j < i :: !Truthy(Get(d, keys[j]))) ==> r == Get(d, keys[i])
  {
    if keys == [] then fallback
    else
      var rest := FirstTruthy(d, keys[1..], fallback);
      assert forall i | 1 <= i < |keys| :: keys[i] == keys[1..][i - 1];
      Or(Get(d, keys[0]), rest)
  }

  /** An address as the request states it (street, number, district, postal code, city). */
  datatype Address = Address(street: Value, number: Value, district: Value, postalCode: Value, city: Value)

  /** The new address: `address`/`endereco`, `number`/`numero`, `neighborhood`/`bairro`, `cep`, `city`/`cidade`. */
  function NewAddress(d: Record): Address
  {
    Address(
      FirstTruthy(d, ["address", "endereco"], Str("")),
      FirstTruthy(d, ["number", "numero"], Str("")),
      FirstTruthy(d, ["neighborhood", "bairro"], Str("")),
      FirstTruthy(d, ["cep"], Str("")),
      FirstTruthy(d, ["city", "cidade"], Str("")))
  }

  /** The address being left: `oldAddress`/`endereco_antigo`, `oldNumber`/`old_numero`, `oldNeighborhood`/`old_bairro`, `oldCep`, `oldCity`. */
  function OldAddress(d: Record): Address
  {
    Address(
      FirstTruthy(d, ["oldAddress", "endereco_antigo"], Str("")),
      FirstTruthy(d, ["oldNumber", "old_numero"], Str("")),
      FirstTruthy(d, ["oldNeighborhood", "old_bairro"], Str("")),
      FirstTruthy(d, ["oldCep"], Str("")),
      FirstTruthy(d, ["oldCity"], Str("")))
  }

  /** Everything the transfer route reads from its body. */
  datatype TransferInput = TransferInput(
    clientId: Value,
    contractId: Value,
    technicianId: Value,
    recipient: Value,
    phone: Value,
    valueType: Value,
    amount: Value,
    scheduledDate: Value,
    period: Value,
    visitDate: Value,
    newAddress: Address,
    oldAddress: Address,
    port: Value)

  /** What the contract-update route reads from its body. */
  datatype ContractInput = ContractInput(contractId: Value, newAddress: Address, cancelReason: Value)

  /** Either the fields of a request or the text of the 400 answer that refuses it. */
  datatype Validated<T> = Valid(value: T) | Invalid(error: string)

  const MissingIds := "ID do cliente e contrato são obrigatórios."
  const MissingContractId := "ID do contrato (contractId) é obrigatório."

  function ClientId(d: Record): Value
  {
    Or(Get(d, "clientId"), Get(d, "id_cliente"))
  }

  function ContractId(d: Record): Value
  {
    Or(Get(d, "contractId"), Get(d, "id_contrato"))
  }

  /** The fee line of the ticket: the tax amount, the renewal word, or nothing. */
  function Amount(d: Record, valueType: Value): Value
  {
    if valueType == Str("taxa") then Get(d, "taxValue")
    else if valueType == Str("renovacao") then Str("Renovação")
    else Str("")
  }

  /** The field extraction and validation of `rota_transfer`. */
  function ExtractTransfer(d: Record): (r: Validated<TransferInput>)
    ensures r.Invalid? <==> !Truthy(ClientId(d)) || !Truthy(ContractId(d))
    ensures r.Invalid? ==> r.error == MissingIds
  {
    var clientId := ClientId(d);
    var contractId := ContractId(d);
    if !Truthy(clientId) || !Truthy(contractId) then Invalid(MissingIds)
    else
      var valueType := FirstTruthy(d, ["valueType", "valor"], Str(""));
      var period := FirstTruthy(d, ["period", "periodo"], Str(""));
      var scheduledDate := Get(d, "scheduledDate");
      Valid(TransferInput(
        clientId, contractId,
        Or(Get(d, "id_tecnico"), Str("147")),
        Or(Get(d, "nome_cliente"), Str("")),
        Or(Get(d, "telefone"), Str("")),
        valueType,
        Amount(d, valueType),
        scheduledDate,
        period,
        FormatDateBrWithTime(scheduledDate, period),
        NewAddress(d),
        OldAddress(d),
        FirstTruthy(d, ["portaNumber", "des_porta"], Str(""))))
  }

  /** The field extraction and validation of `rota_update_contrato`. */
  function ExtractContractUpdate(d: Record): (r: Validated<ContractInput>)
    ensures r.Invalid? <==> !Truthy(ContractId(d))
    ensures r.Invalid? ==> r.error == MissingContractId
  {
    var contractId := ContractId(d);
    if !Truthy(contractId) then Invalid(MissingContractId)
    else Valid(ContractInput(contractId, NewAddress(d), GetOr(d, "motivo_cancelamento", Str(" "))))
  }

  // ---------------------------------------------------------------------------
  // Properties

  /** Identifiers that reach the ERP are truthy and come from their two aliases, camelCase first. */
  lemma TransferIds(d: Record)
    requires Truthy(ClientId(d)) && Truthy(ContractId(d))
    ensures var f := ExtractTransfer(d).value;
      && Truthy(f.clientId) && Truthy(f.contractId)
      && f.clientId == (if Truthy(Get(d, "clientId")) then Get(d, "clientId") else Get(d, "id_cliente"))
      && f.contractId == (if Truthy(Get(d, "contractId")) then Get(d, "contractId") else Get(d, "id_contrato"))
  {
  }

  /** The technician is the request's `id_tecnico` when truthy, else the fixed `"147"`. */
  lemma TechnicianDefault(d: Record)
    requires Truthy(ClientId(d)) && Truthy(ContractId(d))
    ensures var t := ExtractTransfer(d).value.technicianId;
      && Truthy(t)
      && (Truthy(Get(d, "id_tecnico")) ==> t == Get(d, "id_tecnico"))
      && (!Truthy(Get(d, "id_tecnico")) ==> t == Str("147"))
  {
  }

  /**
   * The fee text is the request's `taxValue` for the `taxa` value type, the
   * renewal word for `renovacao`, and empty otherwise; the value type is
   * `valueType`, else `valor`, else empty.
   */
  lemma AmountRule(d: Record)
    requires Truthy(ClientId(d)) && Truthy(ContractId(d))
    ensures var f := ExtractTransfer(d).value;
      && (Truthy(Get(d, "valueType")) ==> f.valueType == Get(d, "valueType"))
      && (!Truthy(Get(d, "valueType")) && Truthy(Get(d, "valor")) ==> f.valueType == Get(d, "valor"))
      && (!Truthy(Get(d, "valueType")) && !Truthy(Get(d, "valor")) ==> f.valueType == Str(""))
      && (f.valueType == Str("taxa") ==> f.amount == Get(d, "taxValue"))
      && (f.valueType == Str("renovacao") ==> f.amount == Str("Renovação"))
      && (f.valueType != Str("taxa") && f.valueType != Str("renovacao") ==> f.amount == Str(""))
  {
    assert ["valueType", "valor"][1] == "valor";
  }

  /** Each address field is the first truthy alias, else empty; every alias chain yields a string when nothing is given. */
  lemma NewAddressAliases(d: Record)
    ensures var a := NewAddress(d);
      && a.street == (if Truthy(Get(d, "address")) then Get(d, "address") else if Truthy(Get(d, "endereco")) then Get(d, "endereco") else Str(""))
      && a.number == (if Truthy(Get(d, "number")) then Get(d, "number") else if Truthy(Get(d, "numero")) then Get(d, "numero") else Str(""))
      && a.district == (if Truthy(Get(d, "neighborhood")) then Get(d, "neighborhood") else if Truthy(Get(d, "bairro")) then Get(d, "bairro") else Str(""))
      && a.postalCode == (if Truthy(Get(d, "cep")) then Get(d, "cep") else Str(""))
      && a.city == (if Truthy(Get(d, "city")) then Get(d, "city") else if Truthy(Get(d, "cidade")) then Get(d, "cidade") else Str(""))
  {
    var a := NewAddress(d);
    assert ["address", "endereco"][0] == "address" && ["address", "endereco"][1] == "endereco";
    assert ["number", "numero"][0] == "number" && ["number", "numero"][1] == "numero";
    assert ["neighborhood", "bairro"][0] == "neighborhood" && ["neighborhood", "bairro"][1] == "bairro";
    assert ["cep"][0] == "cep";
    assert ["city", "cidade"][0] == "city" && ["city", "cidade"][1] == "cidade";
  }

  /** Each field of the address being left is its first truthy alias, else empty; `oldCep` and `oldCity` have one alias each. */
  lemma OldAddressAliases(d: Record)
    ensures var a := OldAddress(d);
      && a.street == (if Truthy(Get(d, "oldAddress")) then Get(d, "oldAddress") else if Truthy(Get(d, "endereco_antigo")) then Get(d, "endereco_antigo") else Str(""))
      && a.number == (if Truthy(Get(d, "oldNumber")) then Get(d, "oldNumber") else if Truthy(Get(d, "old_numero")) then Get(d, "old_numero") else Str(""))
      && a.district == (if Truthy(Get(d, "oldNeighborhood")) then Get(d, "oldNeighborhood") else if Truthy(Get(d, "old_bairro")) then Get(d, "old_bairro") else Str(""))
      && a.postalCode == (if Truthy(Get(d, "oldCep")) then Get(d, "oldCep") else Str(""))
      && a.city == (if Truthy(Get(d, "oldCity")) then Get(d, "oldCity") else Str(""))
  {
    assert ["oldAddress", "endereco_antigo"][0] == "oldAddress" && ["oldAddress", "endereco_antigo"][1] == "endereco_antigo";
    assert ["oldNumber", "old_numero"][0] == "oldNumber" && ["oldNumber", "old_numero"][1] == "old_numero";
    assert ["oldNeighborhood", "old_bairro"][0] == "oldNeighborhood" && ["oldNeighborhood", "old_bairro"][1] == "old_bairro";
    assert ["oldCep"][0] == "oldCep";
    assert ["oldCity"][0] == "oldCity";
  }

  /**
   * The rest of a valid transfer body: the contact fields default to empty,
   * the period is `period`, else `periodo`, else empty, the visit date is the
   * schedule text of `scheduledDate` at that period, the door number is
   * `portaNumber`, else `des_porta`, else empty, and both addresses are read
   * by their alias chains.
   */
  lemma TransferFields(d: Record)
    requires Truthy(ClientId(d)) && Truthy(ContractId(d))
    ensures var f := ExtractTransfer(d).value;
      && f.recipient == (if Truthy(Get(d, "nome_cliente")) then Get(d, "nome_cliente") else Str(""))
      && f.phone == (if Truthy(Get(d, "telefone")) then Get(d, "telefone") else Str(""))
      && f.period == (if Truthy(Get(d, "period")) then Get(d, "period") else if Truthy(Get(d, "periodo")) then Get(d, "periodo") else Str(""))
      && f.scheduledDate == Get(d, "scheduledDate")
      && f.visitDate == FormatDateBrWithTime(Get(d, "scheduledDate"), f.period)
      && f.port == (if Truthy(Get(d, "portaNumber")) then Get(d, "portaNumber") else if Truthy(Get(d, "des_porta")) then Get(d, "des_porta") else Str(""))
      && f.newAddress == NewAddress(d)
      && f.oldAddress == OldAddress(d)
  {
    assert ["period", "periodo"][0] == "period" && ["period", "periodo"][1] == "periodo";
    assert ["portaNumber", "des_porta"][0] == "portaNumber" && ["portaNumber", "des_porta"][1] == "des_porta";
  }

  /** The cancellation reason of the update route is taken as given, even when falsy; absent means a single space. */
  lemma CancelReasonDefault(d: Record)
    requires ExtractContractUpdate(d).Valid?
    ensures var c := ExtractContractUpdate(d).value;
      && ("motivo_cancelamento" in d ==> c.cancelReason == d["motivo_cancelamento"])
      && ("motivo_cancelamento" !in d ==> c.cancelReason == Str(" "))
  {
  }
}
