/**
 * `GooglePayPaymentMethodLauncherActivity`
 * (googlepaylauncher/GooglePayPaymentMethodLauncherActivity.kt): launches the
 * Google Pay payment-data task at most once per view model and turns the
 * task's status code into a `GooglePayPaymentMethodLauncher.Result`.
 */
module GooglePayPaymentMethodLauncher {
  import opened Wrappers
  import opened Strings

  const MISSING_ARGS_MESSAGE := "GooglePayPaymentMethodLauncherActivity was started without arguments."
  const UNEXPECTED_RESULT_CODE_MESSAGE := "Google Pay returned an expected result code."

  /**
   * `CommonStatusCodes.SUCCESS`, `CANCELED`, `NETWORK_ERROR`, `DEVELOPER_ERROR`
   * and `AutoResolveHelper.RESULT_ERROR`, whose values belong to the Google Pay SDK.
   */
  datatype StatusCodes = StatusCodes(success: int, canceled: int, networkError: int,
                                     developerError: int, resultError: int) {
    predicate Distinct() {
      var all := [success, canceled, networkError, developerError, resultError];
      forall i, j :: 0 <= i < j < |all| ==> all[i] != all[j]
    }
  }

  /** `GooglePayPaymentMethodLauncher.ErrorCode`. */
  datatype ErrorCode = INTERNAL_ERROR | DEVELOPER_ERROR | NETWORK_ERROR

  datatype Throwable = Throwable(message: string)
  datatype PaymentMethod = PaymentMethod(id: string)

  /** `GooglePayPaymentMethodLauncher.Result`. */
  datatype Result = Completed(paymentMethod: PaymentMethod) | Canceled | Failed(error: Throwable, errorCode: ErrorCode)

  datatype Args = Args(config: string)
  datatype PaymentData = PaymentData(json: string)
  datatype Task = Task(request: string)
  datatype Status = Status(statusCode: int, statusMessage: Option<string>)

  /** `ApiTaskResult<PaymentData>`. */
  datatype ApiTaskResult = ApiTaskResult(status: Status, result: Option<PaymentData>)

  /** What the activity does with a task result. */
  datatype Handling =
    | CreatePaymentMethod(paymentData: PaymentData)
    | UpdateResult(result: Result)
    | NullPointerException  // `taskResult.result!!` on a SUCCESS without payment data

  /** `googlePayStatusCodeToErrorCode`. */
  function StatusCodeToErrorCode(codes: StatusCodes, statusCode: int): (e: ErrorCode)
    ensures e == NETWORK_ERROR <==> statusCode == codes.networkError
    ensures e == DEVELOPER_ERROR <==> statusCode != codes.networkError && statusCode == codes.developerError
    ensures e == INTERNAL_ERROR <==> statusCode !in {codes.networkError, codes.developerError}
  {
    if statusCode == codes.networkError then NETWORK_ERROR
    else if statusCode == codes.developerError then DEVELOPER_ERROR
    else INTERNAL_ERROR
  }

  const FAILED_WITH_ERROR_PREFIX := "Google Pay failed with error "

  /**
   * `"Google Pay failed with error ${status.statusCode}: ${status.statusMessage}"`:
   * the prefix, the status code in decimal, then `": "` and the status
   * message, a null message reading "null".
   */
  function FailedWithErrorMessage(status: Status): (m: string)
    ensures var tail := ": " + status.statusMessage.GetOr("null");
      && FAILED_WITH_ERROR_PREFIX <= m
      && |FAILED_WITH_ERROR_PREFIX| + |tail| < |m|
      && m[|m| - |tail|..] == tail
      && var code := m[|FAILED_WITH_ERROR_PREFIX|..|m| - |tail|];
         // a minus sign, then the magnitude's digits with no leading zero
         && (status.statusCode < 0 ==>
               |code| > 1 && code[0] == '-' && code[1] != '0'
               && DigitsOnly(code[1..]) && DecimalValue(code[1..]) == -status.statusCode)
         // the digits of the code, "0" being the only one to start with a zero
         && (status.statusCode >= 0 ==>
               DigitsOnly(code) && DecimalValue(code) == status.statusCode && (code[0] == '0' ==> |code| == 1))
  {
    var code := IntToDecimal(status.statusCode);
    var tail := ": " + status.statusMessage.GetOr("null");
    var m := FAILED_WITH_ERROR_PREFIX + code + tail;
    assert m[|FAILED_WITH_ERROR_PREFIX|..|m| - |tail|] == code;
    assert m[|m| - |tail|..] == tail;
    m
  }

  /** `onGooglePayResult(taskResult: ApiTaskResult)`: the `when` on the status code. */
  function TaskResultHandling(codes: StatusCodes, taskResult: ApiTaskResult): (h: Handling)
    ensures h.CreatePaymentMethod? <==> taskResult.status.statusCode == codes.success && taskResult.result.Some?
    ensures h.CreatePaymentMethod? ==> h.paymentData == taskResult.result.value
    ensures h.NullPointerException? <==> taskResult.status.statusCode == codes.success && taskResult.result.None?
    ensures h.UpdateResult? ==> !h.result.Completed?
  {
    var code := taskResult.status.statusCode;
    if code == codes.success then
      match taskResult.result
      case Some(paymentData) => CreatePaymentMethod(paymentData)
      case None => NullPointerException
    else if code == codes.canceled then UpdateResult(Canceled)
    else if code == codes.resultError then
      UpdateResult(Failed(Throwable(FailedWithErrorMessage(taskResult.status)), StatusCodeToErrorCode(codes, code)))
    else UpdateResult(Failed(Throwable(UNEXPECTED_RESULT_CODE_MESSAGE), INTERNAL_ERROR))
  }

  /** Each status code other than SUCCESS has its own outcome. */
  lemma StatusOutcomes(codes: StatusCodes, taskResult: ApiTaskResult)
    requires codes.Distinct()
    ensures var code := taskResult.status.statusCode;
      var h := TaskResultHandling(codes, taskResult);
      && (code == codes.canceled ==> h == UpdateResult(Canceled))
      && (code == codes.resultError ==>
            h == UpdateResult(Failed(Throwable(FailedWithErrorMessage(taskResult.status)), StatusCodeToErrorCode(codes, code))))
      && (code !in {codes.success, codes.canceled, codes.resultError} ==>
            h == UpdateResult(Failed(Throwable(UNEXPECTED_RESULT_CODE_MESSAGE), INTERNAL_ERROR)))
  {
    var all := [codes.success, codes.canceled, codes.networkError, codes.developerError, codes.resultError];
    assert all[0] != all[1] && all[0] != all[4] && all[1] != all[4];
  }

  /**
   * In the `RESULT_ERROR` branch the status code is `RESULT_ERROR` itself,
   * so the mapping can only ever give `INTERNAL_ERROR`.
   */
  lemma ResultErrorIsAlwaysInternal(codes: StatusCodes, taskResult: ApiTaskResult)
    requires codes.Distinct()
    requires taskResult.status.statusCode == codes.resultError
    ensures TaskResultHandling(codes, taskResult).UpdateResult?
    ensures TaskResultHandling(codes, taskResult).result.Failed?
    ensures TaskResultHandling(codes, taskResult).result.errorCode == INTERNAL_ERROR
  {
    var all := [codes.success, codes.canceled, codes.networkError, codes.developerError, codes.resultError];
    assert all[0] != all[4] && all[1] != all[4] && all[2] != all[4] && all[3] != all[4];
  }

  /** The outcome of `viewModel.createLoadPaymentDataTask()`. */
  datatype TaskCreation = Created(task: Task) | CreationFailed(error: Throwable)

  class GooglePayPaymentMethodLauncherActivity {
    const codes: StatusCodes
    /** `lateinit var args`. */
    var args: Option<Args>
    /** Whether `onCreate` registered the result collector and the Google Pay launcher. */
    var collecting: bool
    /** `viewModel.hasLaunched`: kept by the view model across activity recreation. */
    var hasLaunched: bool
    /** The tasks handed to `googlePayLauncher.launch`, in order. */
    var launched: seq<Task>
    /** `viewModel.updateResult`: the result waiting for the collector. */
    var pendingResult: Option<Result>
    /** The result handed to `setResult` before `finish`, once there is one. */
    var finishedWith: Option<Result>

    /** The task is launched at most once, and `hasLaunched` says whether it was. */
    ghost predicate Valid()
      reads this
    {
      |launched| <= 1 && (hasLaunched <==> |launched| == 1) && (collecting ==> args.Some?)
    }

    constructor (codes: StatusCodes)
      ensures Valid()
      ensures this.codes == codes && args == None && !collecting && !hasLaunched
      ensures launched == [] && pendingResult == None && finishedWith == None
    {
      this.codes := codes;
      args := None;
      collecting := false;
      hasLaunched := false;
      launched := [];
      pendingResult := None;
      finishedWith := None;
    }

    /**
     * `onCreate`. Without arguments it finishes with `DEVELOPER_ERROR`. Otherwise
     * it launches a new task unless one was launched already; a task that cannot
     * be created gives `INTERNAL_ERROR` and leaves `hasLaunched` false.
     */
    method OnCreate(fromIntent: Option<Args>, creation: TaskCreation)
      requires Valid()
      modifies this
      ensures Valid()
      ensures fromIntent.None? ==>
        && finishedWith == Some(Failed(Throwable(MISSING_ARGS_MESSAGE), DEVELOPER_ERROR))
        && args == old(args) && collecting == old(collecting) && hasLaunched == old(hasLaunched)
        && launched == old(launched) && pendingResult == old(pendingResult)
      ensures fromIntent.Some? ==> args == fromIntent && collecting && finishedWith == old(finishedWith)
      ensures fromIntent.Some? && old(hasLaunched) ==>
        launched == old(launched) && hasLaunched && pendingResult == old(pendingResult)
      ensures fromIntent.Some? && !old(hasLaunched) && creation.Created? ==>
        launched == [creation.task] && hasLaunched && pendingResult == old(pendingResult)
      ensures fromIntent.Some? && !old(hasLaunched) && creation.CreationFailed? ==>
        launched == [] && !hasLaunched && pendingResult == Some(Failed(creation.error, INTERNAL_ERROR))
    {
      if fromIntent.None? {
        finishedWith := Some(Failed(Throwable(MISSING_ARGS_MESSAGE), DEVELOPER_ERROR));
        return;
      }
      args := fromIntent;
      collecting := true;
      if !hasLaunched {
        match creation
        case Created(task) =>
          launched := launched + [task];
          hasLaunched := true;
        case CreationFailed(error) =>
          pendingResult := Some(Failed(error, INTERNAL_ERROR));
      }
    }

    /**
     * The launcher's callback. On SUCCESS the activity finishes with what
     * `viewModel.createPaymentMethod` returns, given here as `created`.
     * `threw` reports the `NullPointerException` of a SUCCESS without data.
     */
    method OnGooglePayResult(taskResult: ApiTaskResult, created: Result) returns (threw: bool)
      requires Valid() && collecting
      modifies this`pendingResult, this`finishedWith
      ensures Valid()
      ensures var h := TaskResultHandling(codes, taskResult);
        && threw == h.NullPointerException?
        && finishedWith == (if h.CreatePaymentMethod? then Some(created) else old(finishedWith))
        && pendingResult == (if h.UpdateResult? then Some(h.result) else old(pendingResult))
    {
      var h := TaskResultHandling(codes, taskResult);
      threw := false;
      match h
      case CreatePaymentMethod(_) => finishedWith := Some(created);
      case UpdateResult(result) => pendingResult := Some(result);
      case NullPointerException => threw := true;
    }

    /** The result collector: a waiting result finishes the activity. */
    method OnResultCollected()
      requires Valid()
      modifies this`finishedWith
      ensures Valid()
      ensures finishedWith == if collecting && pendingResult.Some? then pendingResult else old(finishedWith)
    {
      if collecting && pendingResult.Some? {
        finishedWith := pendingResult;
      }
    }
  }
}
