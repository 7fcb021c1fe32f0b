# Address-transfer service: a Dafny model of its ERP workflow

The service is a small Flask application, `app.py`, in front of an IXC ERP. This
project models the logic under its HTTP plumbing and proves properties of it.
It covers four parts:

- **The visit-date formatter** `format_date_br_with_time`. It turns an ISO date,
  optionally followed by `T…`, and a period-of-day token into the ERP's schedule
  text `DD/MM/YYYY HH:MM:SS`. Otherwise it answers `""` or hands the input back.
  It uses Python's `strptime("%Y-%m-%d")` rules: a four-digit year, the `%m` and
  `%d` forms, no text left over, and a real calendar day.
- **Request field extraction** in both write routes (`DateFormat`, `RequestFields`).
  Only the client id and the contract id are mandatory. Aliases are resolved as
  `a or b or ""` under Python truthiness. The technician defaults to `"147"`, and
  the fee text is chosen by a three-way rule.
- **The contract-record patch** (`ContractPatch`). The fetched ERP record is a
  mutable object (`ContractRecord`), and both routes change it in place:
  - its five address keys are overwritten;
  - its five date keys go through the local `try_format`, with the pandas parser
    passed in as a partial function `Reformatter`;
  - the default-address flag is set to `"N"`;
  - the cancellation reason is kept (transfer) or overridden (update);
  - the ERP's timestamp is removed.

  `Patched` states the result as a function of the fetched record. Lemmas state
  the result key by key and the keys left alone. Patching twice gives the same
  record only when the date parser reads its own `DD/MM/YYYY` output back as
  the same date. pandas' default reading is month first, and under it a second
  patch swaps day and month (see Findings).
- **The transfer step sequencer** `rota_transfer`, and the contract-update route
  `rota_update_contrato` (`Erp`, `Transfer`, `TransferSteps`, `UpdateContract`).
  - The ERP is an oracle: given the requests already sent and a new request, it
    returns a reply.
  - A `Gateway` object appends every request it sends to its log.
  - The transfer is eight requests in a fixed order:
    1. network-login lookup;
    2. ticket creation;
    3. lookup of the ticket's service order;
    4. rescheduling of that order;
    5. protocol request;
    6. creation of the deactivation order;
    7. contract lookup;
    8. contract write.
  - Each step stops at its own check. `Advance` is the step function of a small
    state machine whose stages carry what the route has learnt so far, and
    `Proceed` runs it from one stage to the end.
  - The route method and its per-step methods are proved to send exactly the
    requests `RunTransfer` lists, and to give exactly its answer. Lemmas then
    establish:
    - the order of the requests;
    - the first failing check is the last request sent;
    - how each request is built from the body and from the earlier replies;
    - when the route succeeds, and with which ids.
  - The update route is proved the same way against `RunUpdate`.
  - How `consultar_ixc_registro` and `get_login_id` read a lookup reply is
    modelled in `Erp`.

A route answers `Ok` (200), `BadRequest(text)` (400, with the route's exact
error text) or `ServerError` (500). An exception that reaches a route's
catch-all handler becomes `ServerError`. That covers a failed connection, a
`.json()` that raises, a missing `registros`, and a `.get` on a non-object.

Three effects of the code's order are kept:

- The protocol reply's text becomes the deactivation order's `protocolo`
  (app.py:295, 301).
- The transfer reads the deactivation reply's `id` only while building its
  success answer, after the contract write got 200 (app.py:394-402).
- The update route reads its write's JSON only after the confirmation re-read
  (app.py:487-494).

So in both routes a contract write that got status 200 can still be followed
by a 500. `TransferSucceeds` and `UpdateSucceeds` state when it succeeds and
that it is a 500 otherwise. Likewise a ticket reply with status 200 whose JSON
is not an object ends the transfer in a 500 (app.py:239-240), as
`TransferStopsAtFirstFailure` states.

## Model

| member | source | states |
|---|---|---|
| Json.OrTruthy | app.py:169-170 | Python's `a or b` is truthy iff one operand is, and is one of its operands |
| Json.TrimEnd | app.py:215 | `rstrip` gives a prefix whose last character is not whitespace; only whitespace was removed |
| Json.TrimStart | app.py:215 | `lstrip` gives a suffix whose first character is not whitespace; only whitespace was removed |
| Json.ParseIntOfIntToString | app.py:76 | `int()` reads back every integer written in decimal, sign included, so `int(str(i)) == i` |
| Json.ParseIntNegative | app.py:76 | `int()` of a minus sign followed by a decimal digit string is the negated value of the digits |
| Json.ParseIntUnsigned | app.py:76 | `int()` of an unsigned decimal digit string is the value of the digits |
| Json.StripKeepsUnspaced | app.py:215 | `strip` leaves a text that neither starts nor ends with whitespace unchanged |
| Json.ParseInt | app.py:76 | definition of `int(s)` on a string: surrounding whitespace stripped, an optional sign, digits with single `_` between them; `None` where it raises. Its properties are the three lemmas above |
| Json.IntOf | app.py:76 | definition of `int(v)`: an integer as is, a boolean as 1 or 0, a string through `ParseInt`, `None` raises |
| Json.Show | app.py:256 | definition of `str(v)`: `None`, `True`/`False`, decimal digits, or the string itself; `ParseIntOfIntToString` states that a shown integer reads back |
| DateFormat.BeforeT | app.py:102 | `split("T")[0]` is the longest prefix without a `T`; the next character, if any, is `T` |
| DateFormat.MonthField | app.py:103 | the `%m` field read by `strptime` is a month 1..12; which texts give which month is `MonthFieldReads` |
| DateFormat.DayField | app.py:103 | the `%d` field read by `strptime` is a day 1..31; which texts give which day is `DayFieldReads` |
| DateFormat.ParseIsoDate | app.py:103 | a date `strptime("%Y-%m-%d")` accepts is a real calendar day with year 1..9999; which texts it accepts is `ParseIsoDateReads` |
| DateFormat.MonthFieldReads | app.py:103 | `%m` reads month `m` from exactly its renderings: two digits `01`-`12`, or one digit for months 1-9 |
| DateFormat.DayFieldReads | app.py:103 | `%d` reads day `d` from exactly its renderings: two digits `01`-`31`, or for days 1-9 one digit alone or after a space |
| DateFormat.ParseIsoDateOfParts | app.py:103 | four digits, a dash, a month text with no dash, a dash and a day text are read field by field, and give a date only when the year is at least 1 and the day exists in that month |
| DateFormat.ParseIsoDateRendering | app.py:103 | every text `strptime` accepts is four year digits, a dash, a rendering of the month, a dash and a rendering of the day of the date it reads |
| DateFormat.ParseIsoDateOfRendering | app.py:103 | every such rendering of a calendar date is read back as that date |
| DateFormat.ParseIsoDateReads | app.py:103 | `strptime` gives `d` iff `d` is a calendar date and the text is one of its renderings; everything else is rejected |
| DateFormat.ParseIsoDateOfShortFields | app.py:103 | `2024-1-5` is read as 5 January 2024 |
| DateFormat.ParseIsoDateRejectsMonth13 | app.py:103 | `2024-13-01` is rejected |
| DateFormat.ParseIsoDateOfIsoText | app.py:103 | parsing the canonical `YYYY-MM-DD` text of a valid date gives that date back |
| DateFormat.FormatBr | app.py:109 | `strftime("%d/%m/%Y")` has slashes at positions 2 and 5; reading its digit groups back gives day, month and year |
| DateFormat.FormatBrExample | app.py:109 | 5 January 2024 is written `05/01/2024` |
| DateFormat.HourOfPeriod | app.py:104-108 | the hour is 09:00:00 iff the period is `manha`, 14:00:00 iff `tarde`, and 10:00:00 for every other value |
| DateFormat.FormatDateBrWithTime | app.py:97-111 | the result is `""` iff the date is falsy; otherwise it is the input unchanged or a 19-character schedule text |
| DateFormat.FormatDateOfIsoDate | app.py:101-109 | a valid ISO date, optionally followed by `T…`, becomes `DD/MM/YYYY` + space + the period's hour |
| DateFormat.FormatDateOfParsed | app.py:101-109 | a text whose part before `T` is read as a calendar date becomes that date as `DD/MM/YYYY`, a space and the period's hour |
| DateFormat.FormatDateOfShortFields | app.py:101-109 | a morning visit on any text whose part before `T` is `2024-1-5` is written as 5 January 2024 at 09:00:00 |
| DateFormat.FormatDateExample | app.py:97-111 | the visit date `2024-1-5T10:00` with period `manha` becomes `05/01/2024 09:00:00`, with `FormatBrExample` |
| DateFormat.FormatDateKeepsUnparsed | app.py:110-111 | a non-empty text whose part before `T` is not a valid date is returned unchanged |
| DateFormat.FormatDateIdempotent | app.py:97-111 | formatting an already formatted value again, with any period, changes nothing |
| RequestFields.FirstTruthy | app.py:184-196 | an alias chain yields the first alias with a truthy value, and the fallback when there is none |
| RequestFields.ExtractTransfer | app.py:169-196 | the transfer body is refused iff the client id or the contract id is falsy, with the route's error text |
| RequestFields.ExtractContractUpdate | app.py:416-425 | the update body is refused iff the contract id is falsy, with the route's error text |
| RequestFields.TransferIds | app.py:169-172 | accepted ids are truthy and come from `clientId`/`id_cliente` and `contractId`/`id_contrato`, camelCase first |
| RequestFields.TechnicianDefault | app.py:175 | the technician is `id_tecnico` when truthy, else `"147"` |
| RequestFields.AmountRule | app.py:178-179 | value type from `valueType`, then `valor`, then `""`; the amount is `taxValue` for `taxa`, `Renovação` for `renovacao`, else `""` |
| RequestFields.NewAddressAliases | app.py:184-188 | each new-address field is its first truthy alias (English name first), else `""`; `cep` has one alias |
| RequestFields.OldAddressAliases | app.py:190-194 | each field of the address being left is its first truthy alias (English name first), else `""`; `oldCep` and `oldCity` have one alias each |
| RequestFields.TransferFields | app.py:176-196 | the contact fields default to `""`; the period is `period`, else `periodo`, else `""`; the visit date is `format_date_br_with_time` of `scheduledDate` at that period; the door number is `portaNumber`, else `des_porta`, else `""`; both addresses come from their alias chains |
| RequestFields.CancelReasonDefault | app.py:425 | the update's cancellation reason is the body's `motivo_cancelamento` when the key is present, else a space |
| Erp.Gateway.Call | app.py:64 | a call appends exactly its request to the log, and its reply is the oracle's answer given the earlier log |
| Erp.ConsultarRegistro | app.py:51-82 | a first record iff the reply is JSON with a non-zero total and records; an error text iff the call or JSON failed or the total is zero; otherwise it raises |
| Erp.LookupWithoutTotal | app.py:75-81 | an absent, non-integer or zero `total` gives the "no record found" error |
| Erp.LookupOfScalar | app.py:75-81 | a JSON reply that is not an object also gives the "no record found" error |
| Erp.LookupOfDecimalTotal | app.py:76-82 | a non-zero total written as decimal text, with records, gives the first record |
| Erp.LoginIdOfLookup | app.py:84-95 | `get_login_id` is the first login record's `id`, or the lookup's error text passed on unchanged |
| Erp.TotalOf | app.py:75-78 | definition of the lookup's total: `int(data.get("total", 0))`, and 0 where that raises or the body is not an object |
| Erp.LoginId | app.py:84-95 | definition of `get_login_id`; `LoginIdOfLookup` states it |
| ContractPatch.ContractFetch | app.py:342-346 | the contract is found iff the reply is a JSON object with a non-empty `registros` list, and it is the first record; a refusal carries "Contrato não encontrado"; when it is refused is `ContractFetchReads` |
| ContractPatch.ContractFetchReads | app.py:342-346 | the contract is found iff the reply is a JSON object with a non-empty `registros` list, and it is the first record; the answer is "Contrato não encontrado" iff `registros` is absent, an empty list or an empty string, or the body is a string without the word `registros`; anything else raises |
| ContractPatch.NoContract | app.py:343 | definition of the body for which `"registros" not in d or len(d["registros"]) == 0` is true without raising |
| ContractPatch.TryFormatted | app.py:355-361 | definition of `try_format` over the record as it stands; `PatchedDates` states its result for each date key |
| ContractPatch.WithAddress | app.py:348-352 | definition of the five address assignments; `PatchedAddress` states them |
| ContractPatch.WithDates | app.py:363-367 | definition of the five `try_format` assignments in order; `WithDatesAt` and `PatchedDates` state them |
| ContractPatch.WithMarkers | app.py:369-374 | definition of the flag, the reason and the removal of the timestamp; `PatchedMarkers` and `PatchedCancelReason` state them |
| ContractPatch.Patched | app.py:346-374 | definition of the record after the patch statements in the routes' order; the `Patched…` lemmas state it key by key |
| ContractPatch.ContractRecord.Put | app.py:348-352 | `registro[k] = v` sets that one key in the record |
| ContractPatch.ContractRecord.Pop | app.py:373-374 | `pop` removes that one key |
| ContractPatch.ContractRecord.TryFormat | app.py:355-361 | `try_format` reads the record as it stands and changes nothing |
| ContractPatch.ContractRecord.ApplyAddressChange | app.py:346-374 | the in-place statements leave the record equal to `Patched` of the record before them |
| ContractPatch.PatchRecord | app.py:346-374 | the fields written back are `Patched` of the fetched record |
| ContractPatch.PatchedAddress | app.py:348-352 | after the patch, the five address keys hold the request's new address |
| ContractPatch.PatchedMarkers | app.py:369-374 | after the patch, `endereco_padrao_cliente` is `"N"` and `ultima_atualizacao` is absent |
| ContractPatch.PatchedCancelReason | app.py:370 | the reason is the record's own value when present and a space when absent; under an override it is the request's value |
| ContractPatch.PatchedDates | app.py:355-367 | each date key: truthy and parseable becomes its reformatted text; truthy but unparseable stays; present and falsy is kept; absent is added as `""`; each key uses its own pattern |
| ContractPatch.PatchedFrame | app.py:346-374 | every key the patch does not write keeps its presence and its value |
| ContractPatch.PatchedKeys | app.py:346-374 | the patched keys are the fetched keys plus the written ones, minus the timestamp |
| ContractPatch.WithDatesAt | app.py:363-367 | each date key ends up present, holding `try_format` of the record the date assignments started from |
| ContractPatch.PatchedIdempotent | app.py:346-374 | patching a patched record with the same request changes nothing, given a date parser that reads its own output back as the same date (`StableReformat`); pandas' default month-first reading is not one, see `MonthFirstRepatchSwaps` |
| ContractPatch.MonthFirstUnstable | app.py:355-361 | pandas' month-first reading of `DD/MM/YYYY` does not read its own output back as the same date |
| ContractPatch.MonthFirstRepatchSwaps | app.py:355-370 | under that reading the contract date `2024-05-03` is patched to `03/05/2024`, and patching again gives `05/03/2024` |
| Transfer.LocateOrder | app.py:255-259 | a found order comes from a JSON object reply with records whose first record has an `id`, and carries that `id` and that record's `mensagem`; a refusal carries the "no order" text; when it is refused is `LocateOrderReads` |
| Transfer.LocateOrderReads | app.py:255-259 | the "no order" error iff the reply is a JSON object whose `total`, as text, is `"0"`; an order iff the total is not `"0"` and the first record exists and has an `id`; the order carries that `id` and the record's own `mensagem`; anything else raises |
| Transfer.TicketMessage | app.py:204-215 | definition of the ticket description: the template with the body's fields, stripped; `TicketRequestFor` states where it goes |
| Transfer.TicketPayload | app.py:217-232 | definition of the ticket body; `TicketRequestFor` states its fields |
| Transfer.SchedulePayload | app.py:262-287 | definition of the reschedule body, with `melhor_horario_agenda` always `"Q"`; `ScheduleRequestBooksVisit` states its fields |
| Transfer.DeactivationPayload | app.py:298-322 | definition of the deactivation body; `DeactivationRequestAtOldAddress` states its fields |
| Transfer.CreatedId | app.py:240-241 | definition of `resp.json().get("id")`: raises unless the reply is a JSON object |
| Transfer.Advance | app.py:198-403 | each stage either goes on to the next stage or ends the run; only the last stage can answer 200 |
| Transfer.PutAnswer | app.py:394-402 | definition of the answer to the contract write; `TransferSucceeds` states it |
| Transfer.Proceed | app.py:198-403 | definition of the run from one stage to the end; `ProceedWalks` states its shape |
| Transfer.RunTransfer | app.py:163-407 | definition of the whole route as requests and an answer; the `Transfer…` lemmas state it |
| Transfer.Transfer | app.py:163-407 | the route sends exactly the requests of `RunTransfer` after the earlier log, and gives its answer |
| Transfer.FetchLogin | app.py:198-201 | step 1, the login lookup; then the run from the ticket stage |
| Transfer.CreateTicket | app.py:203-241 | step 2, the ticket; status not 200 gives its error text, and a non-object reply raises |
| Transfer.FindOrder | app.py:243-259 | step 3, the lookup of the ticket's order |
| Transfer.ScheduleVisit | app.py:261-291 | step 4, the rescheduling of the found order |
| Transfer.RequestProtocol | app.py:293-295 | step 5, the protocol request; only a failed connection stops it |
| Transfer.CreateDeactivation | app.py:298-328 | step 6, the deactivation order |
| Transfer.FetchContract | app.py:330-346 | step 7, the contract lookup |
| Transfer.PutContract | app.py:346-403 | step 8, the patched record's write and the final answer |
| TransferSteps.ProceedWalks | app.py:198-403 | every run walks the stages in order, one request per stage, each stage going on to the next until one answers |
| TransferSteps.StageShape | app.py:235-389 | each stage sends the verb, endpoint and `ixcsoft` marker the plan fixes for its position |
| TransferSteps.AdvancePasses | app.py:199-344 | a stage goes on iff its check passes: login found; ticket 200 with a JSON object; order found; reschedule 200; protocol answered; deactivation 200; contract found |
| TransferSteps.NoRequestWhenInvalid | app.py:169-172 | the transfer sends nothing iff the body is refused, answering 400 with the ids error; otherwise the first request is the login lookup |
| TransferSteps.TransferFollowsPlan | app.py:198-389 | at most eight requests, the k-th of the shape the plan gives for position k |
| TransferSteps.TransferStopsAtFirstFailure | app.py:199-395 | all checks before the last request pass; the last one fails, with that step's answer (its status error, its lookup's error text, or a 500 for a failed connection, a raised lookup or a 200 ticket reply that is not an object); a success sent all eight |
| TransferSteps.TransferRequests | app.py:199-389 | each request is built from the body and earlier replies: login into the ticket, ticket id into the order lookup, order id into the reschedule, protocol into the deactivation, fetched record into the write |
| TransferSteps.TransferSucceeds | app.py:394-403 | success iff all eight requests were sent, the write got 200 and the deactivation reply was a JSON object; the answer is the ticket, order and deactivation ids; a 200 write after a deactivation reply that is not an object answers 500 |
| TransferSteps.TicketRequestFor | app.py:217-235 | the ticket carries the client, contract, login, technician and the composed description |
| TransferSteps.ScheduleRequestBooksVisit | app.py:262-287 | the reschedule targets the found order at the new address; `data_agenda` equals `data_agenda_final`, the visit date; the message is the order's own if truthy, else the description |
| TransferSteps.DeactivationRequestAtOldAddress | app.py:298-324 | the deactivation order carries the protocol, the login, the deactivation note and the old address |
| UpdateContract.UpdateContract | app.py:412-498 | the route sends exactly the requests of `RunUpdate` and gives its answer |
| UpdateContract.FetchAndUpdate | app.py:427-443 | the contract lookup, then the write-back once a record was found |
| UpdateContract.PatchAndWrite | app.py:443-494 | the in-place patch with the override, the write, and after a 200 the confirmation re-read |
| UpdateContract.Confirmed | app.py:487-494 | definition of the answer after an accepted write; `UpdateSucceeds` states it |
| UpdateContract.WriteBack | app.py:443-494 | definition of the write and the re-read; `UpdateRequests` and `UpdateWritesAddressAndReason` state them |
| UpdateContract.UpdateFrom | app.py:427-494 | definition of the exchange for a valid body; `UpdateRequests` and `UpdateSucceeds` state it |
| UpdateContract.RunUpdate | app.py:409-498 | definition of the whole route as requests and an answer; `UpdateNoRequestWhenInvalid` states its start |
| UpdateContract.UpdateNoRequestWhenInvalid | app.py:416-418 | nothing is sent iff the body is refused, answering 400 with the contract-id error; otherwise the first request is the contract lookup |
| UpdateContract.UpdateRequests | app.py:427-490 | lookup, then the write iff a record was found, then the same lookup again iff the write got 200; nothing else |
| UpdateContract.UpdateWritesAddressAndReason | app.py:443-465 | the write is a PUT to the contract carrying all five new-address fields and the request's cancellation reason |
| UpdateContract.UpdateSucceeds | app.py:487-494 | success iff the write got 200 with a JSON reply and the re-read was answered; the answer carries the write's reply; a 200 write that does not succeed answers 500 |
| UpdateContract.ReplyShapes | app.py:427-490 | the replies of a run are the oracle's answers to the lookup, then the write, then the same lookup again |

## Left out

- Flask routing, CORS headers and the OPTIONS preflight: web-framework plumbing.
- The plain lookup routes `rota_cliente_lookup` and `rota_contrato_lookup`: these are single-call proxies.
- The HTTP transport (`requests`, headers, the token, timeouts, the base URL) and `.env` loading. The ERP is an oracle parameter, and a request keeps only its verb, endpoint, id suffix, `ixcsoft` marker and body.
- `print` debug logging: it has no effect on the answers.
- The text of a 500 answer (`str(e)`): only the status is modelled.
- `pandas.to_datetime(...).strftime(...)`: a foreign library, passed in as a partial function `Reformatter`.
- JSON values are scalar only. Floats, nested objects and lists inside field values, a body other than a JSON object, and a top-level JSON array reply are not modelled. A reply is a bare scalar or an object of scalar members, whose `registros` member may instead be a list of records.
- `int()` and `strptime` read ASCII digits only, not the other Unicode decimal digits Python accepts.
- The update's confirmation re-read: its reply plays no part beyond whether the ERP answered at all. The protocol reply is used only for its body text, and for whether it was answered.
- The straight-line shape of `rota_transfer`: the route is one method per step, each ending in a call to the next, all proved against the same run function.
- A float visit date: dates are scalars as above. A non-string truthy date is returned unchanged, because `split` raises on it.
- The fixed `message` texts of the two 200 answers (app.py:399, 494): a success keeps only the ids and the write's reply, so the constant greeting is not modelled.
- DateFormat.FormatBr: the model writes `%Y` zero-padded to four digits (`05/01/0005`); where the platform's `strftime` leaves `%Y` unpadded, as glibc does, years 1-999 come out shorter (`05/01/5`), and the 19-character length stated by `DateFormat.FormatDateBrWithTime` does not hold for them.
- DateFormat.MonthField: its own contract gives only the range 1..12, to keep every use of it cheap; the texts accepted and the month read are stated by `MonthFieldReads`.
- DateFormat.DayField: its own contract gives only the range 1..31, for the same reason; the texts accepted and the day read are stated by `DayFieldReads`.
- DateFormat.ParseIsoDate: its own contract gives only that the date is a calendar date; which texts are accepted and which rejected is stated by `ParseIsoDateReads`.
- ContractPatch.ContractFetch: its own contract does not say when the lookup is refused, because that clause in the contract makes every proof about the transfer's steps much more expensive; `ContractFetchReads` states it.
- Transfer.LocateOrder: its own contract does not say when the lookup is refused, nor that every reply with a non-`"0"` total and a first record with an `id` is found, for the same reason; `LocateOrderReads` states both.

## Findings

| source | as written | input that shows it | evidently intended | confidence | as-written member | corrected member |
|---|---|---|---|---|---|---|
| app.py:355-370 | `try_format` re-reads each date with `pd.to_datetime` and its default month-first reading, then writes it back day first as `%d/%m/%Y` | a contract whose `data` is `2024-05-03`, patched, then patched again | a patched date stays the same date when the record is patched again | low: the ERP may never hand back a `DD/MM/YYYY` date; not executed | ContractPatch.MonthFirstRepatchSwaps | ContractPatch.PatchedIdempotent |
