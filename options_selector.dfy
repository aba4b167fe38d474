/**
  The `OptionsSelector` component's signal-ingestion logic: the Telegram
  submission (inference call, two parses, validation, processing call) and the
  platform callback, with the two pieces of state they overwrite.
  Network responses and parse results are inputs.
 */
module OptionsSelector {
  import opened Wrappers
  import opened JsValues
  import opened CoinLookup
  import opened SignalNormalizer

  const DataKey: string := "data"

  /** A `fetch` response: its `ok` flag and the outcome of parsing its body as JSON
      (`None` when `JSON.parse` or `.json()` throws). */
  datatype Response = Response(ok: bool, body: Option<JsValue>)

  /** An outbound request, in the order the handler issues them. */
  datatype Call = Infer(message: string) | Process(signalData: SignalData)

  /** Every way the `try` block can throw into the `catch`. */
  datatype Failure =
    | InferenceNotOk          // `!response.ok`
    | EnvelopeUnparsable      // `JSON.parse(responseText)` throws
    | EnvelopeNullish         // `data.result` on a null envelope throws
    | PayloadUnparsable       // `JSON.parse(data.result)` throws
    | ToLowerCaseThrows       // `tokenSymbol.toLowerCase` is not a function
    | ProcessingNotOk         // `!processResponse.ok`
    | ProcessedUnparsable     // `processResponse.json()` throws
    | ProcessedNullish        // `processedData.data` on a null body throws

  /** How one submission ends. */
  datatype Outcome = Displayed(row: JsValue) | InvalidFormat | Failed(failure: Failure)

  /** The calls a submission issued and how it ended. */
  datatype Run = Run(calls: seq<Call>, outcome: Outcome)

  /** Notifications shown to the user. */
  datatype Notice = InvalidFormatToast | InferenceFailedToast

  /** The results-table state: `tableData` and `showTable`. */
  datatype TableState = TableState(tableData: seq<JsValue>, showTable: bool)

  datatype Tab = Option1 | Option2

  /** Whether the submission gets as far as the processing request. */
  predicate ReachesProcessing(coins: seq<Coin>, inference: Response, payload: Option<JsValue>) {
    && inference.ok
    && inference.body.Some? && !IsNullish(inference.body.value)
    && payload.Some? && Normalize(coins, payload.value).Ok?
  }

  /** Whether the submission ends by filling the table. */
  predicate Succeeds(coins: seq<Coin>, inference: Response, payload: Option<JsValue>, processing: Response) {
    && ReachesProcessing(coins, inference, payload)
    && processing.ok && processing.body.Some? && !IsNullish(processing.body.value)
  }

  /** One run of `handleTelegramSimulate` on `message`: `inference` answers the `/infer`
      call, `payload` is what parsing the envelope's `result` gives, and `processing`
      answers the processing call, and is consulted only if that call is made. */
  function Submit(coins: seq<Coin>, message: string, inference: Response,
                  payload: Option<JsValue>, processing: Response): (r: Run)
    ensures 1 <= |r.calls| <= 2 && r.calls[0] == Infer(message)
    ensures |r.calls| == 2 <==> ReachesProcessing(coins, inference, payload)
    ensures |r.calls| == 2 ==>
      payload.Some? && IsComplete(payload.value) &&
      r.calls[1] == Process(Normalize(coins, payload.value).value)
    ensures r.outcome.Displayed? <==> Succeeds(coins, inference, payload, processing)
    ensures r.outcome.Displayed? ==> r.outcome.row == Get(processing.body.value, DataKey)
    ensures r.outcome == InvalidFormat <==>
      && inference.ok && inference.body.Some? && !IsNullish(inference.body.value)
      && payload.Some? && !IsComplete(payload.value)
  {
    var inferCall := [Infer(message)];
    if !inference.ok then Run(inferCall, Failed(InferenceNotOk))
    else if inference.body.None? then Run(inferCall, Failed(EnvelopeUnparsable))
    else if IsNullish(inference.body.value) then Run(inferCall, Failed(EnvelopeNullish))
    else if payload.None? then Run(inferCall, Failed(PayloadUnparsable))
    else match Normalize(coins, payload.value)
      case Err(Incomplete) => Run(inferCall, InvalidFormat)
      case Err(SymbolNotString) => Run(inferCall, Failed(ToLowerCaseThrows))
      case Ok(signalData) =>
        var calls := inferCall + [Process(signalData)];
        if !processing.ok then Run(calls, Failed(ProcessingNotOk))
        else if processing.body.None? then Run(calls, Failed(ProcessedUnparsable))
        else if IsNullish(processing.body.value) then Run(calls, Failed(ProcessedNullish))
        else Run(calls, Displayed(Get(processing.body.value, DataKey)))
  }

  /** The notifications an outcome raises: the invalid-format toast, the generic
      failure toast of the `catch`, or none. */
  function NoticesOf(o: Outcome): (r: seq<Notice>)
    ensures |r| <= 1
    ensures r == [] <==> o.Displayed?
    ensures r == [InvalidFormatToast] <==> o == InvalidFormat
  {
    match o
    case Displayed(_) => []
    case InvalidFormat => [InvalidFormatToast]
    case Failed(_) => [InferenceFailedToast]
  }

  /** The table state after a submission ends with `o`. */
  function AfterSubmit(t: TableState, o: Outcome): (r: TableState)
    ensures r != t ==> o.Displayed?
    ensures o.Displayed? ==> r.tableData == [o.row] && r.showTable
  {
    if o.Displayed? then TableState([o.row], true) else t
  }

  /** Only a successful submission touches the table; it then holds exactly the one
      returned row, whatever it held before, and is shown. */
  lemma TableChangesOnlyOnSuccess(t: TableState, coins: seq<Coin>, message: string,
                                  inference: Response, payload: Option<JsValue>, processing: Response)
    ensures var after := AfterSubmit(t, Submit(coins, message, inference, payload, processing).outcome);
      after == if Succeeds(coins, inference, payload, processing)
               then TableState([Get(processing.body.value, DataKey)], true)
               else t
  {
  }

  /** A non-ok inference response ends the submission before any parse is looked at
      or any processing call is made. */
  lemma InferenceFailureAbortsFirst(coins: seq<Coin>, message: string, inference: Response,
                                    payload: Option<JsValue>, processing: Response)
    requires !inference.ok
    ensures Submit(coins, message, inference, payload, processing) == Run([Infer(message)], Failed(InferenceNotOk))
  {
  }

  /** An envelope that does not parse ends the submission before the inner parse. */
  lemma EnvelopeFailureAbortsBeforePayload(coins: seq<Coin>, message: string, inference: Response,
                                           payload: Option<JsValue>, processing: Response)
    requires inference.ok && inference.body.None?
    ensures Submit(coins, message, inference, payload, processing) == Run([Infer(message)], Failed(EnvelopeUnparsable))
  {
  }

  /** A payload that does not parse ends the submission before validation. */
  lemma PayloadFailureAbortsBeforeValidation(coins: seq<Coin>, message: string, inference: Response,
                                             processing: Response)
    requires inference.ok && inference.body.Some? && !IsNullish(inference.body.value)
    ensures Submit(coins, message, inference, None, processing) == Run([Infer(message)], Failed(PayloadUnparsable))
  {
  }

  /** A null envelope makes reading `data.result` throw, before the inner parse. */
  lemma NullishEnvelopeAbortsBeforePayload(coins: seq<Coin>, message: string, inference: Response,
                                           payload: Option<JsValue>, processing: Response)
    requires inference.ok && inference.body.Some? && IsNullish(inference.body.value)
    ensures Submit(coins, message, inference, payload, processing) == Run([Infer(message)], Failed(EnvelopeNullish))
  {
  }

  /** A truthy `tokenSymbol` that is not a string passes the guard but makes
      `toLowerCase` throw, so no processing call is made. */
  lemma NonStringSymbolAbortsBeforeProcessing(coins: seq<Coin>, message: string, inference: Response,
                                              payload: Option<JsValue>, processing: Response)
    requires inference.ok && inference.body.Some? && !IsNullish(inference.body.value)
    requires payload.Some? && IsComplete(payload.value) && !Get(payload.value, TokenSymbolKey).Str?
    ensures Submit(coins, message, inference, payload, processing) == Run([Infer(message)], Failed(ToLowerCaseThrows))
  {
  }

  /** Once the processing request is issued, a non-ok response, an unparsable body or
      a null body ends the run with both calls made and nothing displayed. */
  lemma ProcessingFailureAfterRequest(coins: seq<Coin>, message: string, inference: Response,
                                      payload: Option<JsValue>, processing: Response)
    requires ReachesProcessing(coins, inference, payload)
    requires !processing.ok || processing.body.None? || IsNullish(processing.body.value)
    ensures var calls := [Infer(message), Process(Normalize(coins, payload.value).value)];
      Submit(coins, message, inference, payload, processing) ==
        Run(calls, Failed(
          if !processing.ok then ProcessingNotOk
          else if processing.body.None? then ProcessedUnparsable
          else ProcessedNullish))
  {
  }

  /** A processing request is built only from a payload whose five fields are all
      truthy, and it carries them unchanged with the resolved `tokenId`. */
  lemma {:induction false} ProcessingOnlyAfterValidation(coins: seq<Coin>, message: string, inference: Response,
                                                         payload: Option<JsValue>, processing: Response, call: Call)
    requires call in Submit(coins, message, inference, payload, processing).calls && call.Process?
    ensures payload.Some? && IsComplete(payload.value)
    ensures call.signalData.tokenSymbol == Get(payload.value, TokenSymbolKey)
    ensures call.signalData.signal == Get(payload.value, SignalKey)
    ensures call.signalData.tp1 == Get(payload.value, Tp1Key)
    ensures call.signalData.tp2 == Get(payload.value, Tp2Key)
    ensures call.signalData.sl == Get(payload.value, SlKey)
    ensures call.signalData.tokenId == GetCoinId(coins, Get(payload.value, TokenSymbolKey).s)
  {
    var r := Submit(coins, message, inference, payload, processing);
    assert r.calls[0].Infer?;
    assert |r.calls| == 2 && call == r.calls[1];
  }

  /** The component: the two pieces of results-table state, the active tab and the
      message box, plus a record of the requests issued and the toasts shown. */
  class OptionsSelector {
    var activeOption: Tab
    var telegramMessage: string
    var showTable: bool
    var tableData: seq<JsValue>
    ghost var requests: seq<Call>
    ghost var notices: seq<Notice>

    function Table(): TableState
      reads this
    {
      TableState(tableData, showTable)
    }

    /** The condition under which the results table is rendered. */
    function TableVisible(): bool
      reads this
    {
      showTable && activeOption == Option1
    }

    /** The initial state: first tab, empty message, no rows, table hidden. */
    constructor ()
      ensures activeOption == Option1 && telegramMessage == []
      ensures Table() == TableState([], false) && !TableVisible()
      ensures requests == [] && notices == []
    {
      activeOption := Option1;
      telegramMessage := [];
      showTable := false;
      tableData := [];
      requests := [];
      notices := [];
    }

    /** A tab button's `onClick`. */
    method SelectOption(option: Tab)
      modifies this
      ensures activeOption == option
      ensures Table() == old(Table()) && TableVisible() == (showTable && option == Option1)
      ensures telegramMessage == old(telegramMessage)
      ensures requests == old(requests) && notices == old(notices)
    {
      activeOption := option;
    }

    /** The message box's `onChange`. */
    method EditMessage(text: string)
      modifies this
      ensures telegramMessage == text
      ensures activeOption == old(activeOption) && Table() == old(Table())
      ensures requests == old(requests) && notices == old(notices)
    {
      telegramMessage := text;
    }

    /** Records the toast of the `catch` block; the state is otherwise untouched. */
    method ReportFailure()
      modifies this`notices
      ensures notices == old(notices) + [InferenceFailedToast]
    {
      notices := notices + [InferenceFailedToast];
    }

    /** `handleTelegramSimulate`, step by step: each `throw` ends in the failure
        toast; only a fully successful run overwrites the table state. */
    method HandleTelegramSimulate(coins: seq<Coin>, inference: Response,
                                  payload: Option<JsValue>, processing: Response)
      modifies this
      ensures var run := Submit(coins, old(telegramMessage), inference, payload, processing);
        && requests == old(requests) + run.calls
        && Table() == AfterSubmit(old(Table()), run.outcome)
        && notices == old(notices) + NoticesOf(run.outcome)
      ensures Succeeds(coins, inference, payload, processing) ==>
        tableData == [Get(processing.body.value, DataKey)] && showTable
      ensures !Succeeds(coins, inference, payload, processing) ==>
        Table() == old(Table()) && TableVisible() == old(TableVisible())
      ensures activeOption == old(activeOption) && telegramMessage == old(telegramMessage)
    {
      requests := requests + [Infer(telegramMessage)];
      if !inference.ok {
        ReportFailure();
        return;
      }
      if inference.body.None? {
        ReportFailure();
        return;
      }
      var data := inference.body.value;
      if IsNullish(data) {
        ReportFailure();
        return;
      }
      if payload.None? {
        ReportFailure();
        return;
      }
      var parsedResult := payload.value;
      if !IsComplete(parsedResult) {
        notices := notices + [InvalidFormatToast];
        return;
      }
      var tokenSymbol := Get(parsedResult, TokenSymbolKey);
      if !tokenSymbol.Str? {
        ReportFailure();
        return;
      }
      var tokenSymbolLower := Lower(tokenSymbol.s);
      var coinId := GetCoinId(coins, tokenSymbolLower);
      var processData := SignalData(
        tokenSymbol, Get(parsedResult, SignalKey), Get(parsedResult, Tp1Key),
        Get(parsedResult, Tp2Key), Get(parsedResult, SlKey), coinId);
      requests := requests + [Process(processData)];
      if !processing.ok {
        ReportFailure();
        return;
      }
      if processing.body.None? {
        ReportFailure();
        return;
      }
      var processedData := processing.body.value;
      if IsNullish(processedData) {
        ReportFailure();
        return;
      }
      tableData := [Get(processedData, DataKey)];
      showTable := true;
    }

    /** `handlePlatformSimulateSuccess`: the platform flow's rows replace the table,
        which is then shown if the first tab is active. */
    method HandlePlatformSimulateSuccess(data: seq<JsValue>)
      modifies this
      ensures Table() == TableState(data, true)
      ensures TableVisible() <==> activeOption == Option1
      ensures activeOption == old(activeOption) && telegramMessage == old(telegramMessage)
      ensures requests == old(requests) && notices == old(notices)
    {
      tableData := data;
      showTable := true;
    }
  }
}
