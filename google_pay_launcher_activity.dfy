/**
 * `GooglePayLauncherActivity` (googlepaylauncher/GooglePayLauncherActivity.kt):
 * the activity that resolves the Google Pay task and routes the activity
 * result either to a Google Pay result or to the confirmation of the
 * Stripe intent. Calls into the view model and the error reporter are
 * recorded, in order, as a sequence of `Call`s.
 */
module GooglePayLauncher {
  import opened Wrappers

  /** The request code the Google Pay task is resolved with. */
  const LOAD_PAYMENT_DATA_REQUEST_CODE := 4444

  const MISSING_ARGS_MESSAGE := "GooglePayLauncherActivity was started without arguments."
  const FAILED_WITH_ERROR_PREFIX := "Google Pay failed with error: "
  const UNEXPECTED_RESULT_CODE_MESSAGE := "Google Pay returned an expected result code."
  const MISSING_DATA_MESSAGE := "Google Pay data was not available"

  /** `RESULT_OK`, `RESULT_CANCELED` and `AutoResolveHelper.RESULT_ERROR`, whose values belong to the platform and the Google Pay SDK. */
  datatype ResultCodes = ResultCodes(ok: int, canceled: int, error: int) {
    predicate Distinct() {
      ok != canceled && ok != error && canceled != error
    }
  }

  datatype ErrorKind = IllegalArgumentException | RuntimeException
  datatype Throwable = Throwable(kind: ErrorKind, message: string)

  /** `GooglePayLauncher.Result`. */
  datatype Result = Completed | Canceled | Failed(error: Throwable)

  /** The launch arguments and the Google Pay payloads, opaque here. */
  datatype Args = Args(clientSecret: string)
  datatype PaymentData = PaymentData(json: string)
  datatype Task = Task(request: string)
  datatype Status = Status(statusMessage: Option<string>)

  /** The extras of a result `Intent` that the activity reads. */
  datatype IntentData = IntentData(paymentData: Option<PaymentData>, status: Option<Status>)

  /** `Intent()`: an intent with no extras. */
  const EMPTY_INTENT := IntentData(None, None)

  /** What the activity asks of its collaborators, in order. */
  datatype Call =
    | PayWithGoogle(task: Task, requestCode: int)
    | MarkTaskAsLaunched
    | UpdateResult(result: Result)
    | ConfirmStripeIntent(paymentData: PaymentData)
    | OnConfirmResult(requestCode: int, data: IntentData)
    | ReportMissingIntentData

  /** `onGooglePayResult(data)`: confirm with the payment data, or report and fail without it. */
  function OnGooglePayResult(data: Option<IntentData>): (calls: seq<Call>)
    ensures var pd := if data.Some? then data.value.paymentData else None;
      calls == if pd.Some? then [ConfirmStripeIntent(pd.value)]
               else [ReportMissingIntentData, UpdateResult(Failed(Throwable(IllegalArgumentException, MISSING_DATA_MESSAGE)))]
  {
    match data
    case Some(IntentData(Some(paymentData), _)) => [ConfirmStripeIntent(paymentData)]
    case _ => [ReportMissingIntentData, UpdateResult(Failed(Throwable(IllegalArgumentException, MISSING_DATA_MESSAGE)))]
  }

  /** The message of a `RESULT_ERROR` failure: the status message, or nothing. */
  function ErrorMessage(data: Option<IntentData>): (m: string)
    ensures data.Some? && data.value.status.Some? && data.value.status.value.statusMessage.Some? ==>
      m == FAILED_WITH_ERROR_PREFIX + data.value.status.value.statusMessage.value
    ensures !(data.Some? && data.value.status.Some? && data.value.status.value.statusMessage.Some?) ==>
      m == FAILED_WITH_ERROR_PREFIX
  {
    var status := if data.Some? then data.value.status else None;
    FAILED_WITH_ERROR_PREFIX + (if status.Some? then status.value.statusMessage.GetOr("") else "")
  }

  /** `onActivityResult(requestCode, resultCode, data)`. */
  function DispatchActivityResult(codes: ResultCodes, requestCode: int, resultCode: int, data: Option<IntentData>): (calls: seq<Call>)
    ensures 1 <= |calls| <= 2
    ensures forall k :: 0 <= k < |calls| ==> !calls[k].PayWithGoogle? && !calls[k].MarkTaskAsLaunched?
    // anything other than the Google Pay request is handed on, intact, to the confirmation flow
    ensures calls[0].OnConfirmResult? <==> requestCode != LOAD_PAYMENT_DATA_REQUEST_CODE
    ensures calls[0].OnConfirmResult? ==> calls == [OnConfirmResult(requestCode, data.GetOr(EMPTY_INTENT))]
    // the Google Pay request either sets a result or starts confirmation, never both
    ensures requestCode == LOAD_PAYMENT_DATA_REQUEST_CODE ==>
      (calls[|calls| - 1].UpdateResult? <==> !calls[0].ConfirmStripeIntent?)
  {
    if requestCode == LOAD_PAYMENT_DATA_REQUEST_CODE then
      if resultCode == codes.ok then OnGooglePayResult(data)
      else if resultCode == codes.canceled then [UpdateResult(Canceled)]
      else if resultCode == codes.error then [UpdateResult(Failed(Throwable(RuntimeException, ErrorMessage(data))))]
      else [UpdateResult(Failed(Throwable(RuntimeException, UNEXPECTED_RESULT_CODE_MESSAGE)))]
    else
      [OnConfirmResult(requestCode, data.GetOr(EMPTY_INTENT))]
  }

  /** With the Google Pay request code, each result code gives its own outcome. */
  lemma GooglePayRequestOutcomes(codes: ResultCodes, resultCode: int, data: Option<IntentData>)
    requires codes.Distinct()
    ensures var calls := DispatchActivityResult(codes, LOAD_PAYMENT_DATA_REQUEST_CODE, resultCode, data);
      && (resultCode == codes.canceled ==> calls == [UpdateResult(Canceled)])
      && (resultCode == codes.error ==>
            calls == [UpdateResult(Failed(Throwable(RuntimeException, ErrorMessage(data))))])
      && (resultCode !in {codes.ok, codes.canceled, codes.error} ==>
            calls == [UpdateResult(Failed(Throwable(RuntimeException, UNEXPECTED_RESULT_CODE_MESSAGE)))])
      && (resultCode == codes.ok ==> calls == OnGooglePayResult(data))
  {
  }

  /** A Google Pay result is set exactly when the request is Google Pay's and it did not deliver payment data. */
  lemma ResultSetIff(codes: ResultCodes, requestCode: int, resultCode: int, data: Option<IntentData>)
    requires codes.Distinct()
    ensures (exists k :: 0 <= k < |DispatchActivityResult(codes, requestCode, resultCode, data)|
                && DispatchActivityResult(codes, requestCode, resultCode, data)[k].UpdateResult?)
      <==> requestCode == LOAD_PAYMENT_DATA_REQUEST_CODE
           && !(resultCode == codes.ok && data.Some? && data.value.paymentData.Some?)
  {
    var calls := DispatchActivityResult(codes, requestCode, resultCode, data);
    if requestCode == LOAD_PAYMENT_DATA_REQUEST_CODE
       && !(resultCode == codes.ok && data.Some? && data.value.paymentData.Some?) {
      assert calls[|calls| - 1].UpdateResult?;
    }
  }

  /** Every `markTaskAsLaunched` comes straight after a `payWithGoogle`. */
  ghost predicate LaunchedBeforeMarked(calls: seq<Call>) {
    forall i :: 0 <= i < |calls| && calls[i].MarkTaskAsLaunched? ==> i > 0 && calls[i - 1].PayWithGoogle?
  }

  class GooglePayLauncherActivity {
    const codes: ResultCodes
    /** `lateinit var args`. */
    var args: Option<Args>
    /** Whether `onCreate` got as far as starting the two flow collectors. */
    var collecting: bool
    /** The calls made so far into the view model and the error reporter. */
    var calls: seq<Call>
    /** The result handed to `setResult` before `finish`, once there is one. */
    var finishedWith: Option<Result>

    ghost predicate Valid()
      reads this
    {
      LaunchedBeforeMarked(calls) && (collecting ==> args.Some?)
    }

    constructor (codes: ResultCodes)
      ensures Valid()
      ensures this.codes == codes && args == None && !collecting && calls == [] && finishedWith == None
    {
      this.codes := codes;
      args := None;
      collecting := false;
      calls := [];
      finishedWith := None;
    }

    /** `onCreate`: without launch arguments, finish with `Failed` and set up nothing else. */
    method OnCreate(fromIntent: Option<Args>)
      requires Valid()
      modifies this
      ensures Valid() && calls == old(calls)
      ensures fromIntent.None? ==>
        && finishedWith == Some(Failed(Throwable(IllegalArgumentException, MISSING_ARGS_MESSAGE)))
        && args == old(args) && collecting == old(collecting)
      ensures fromIntent.Some? ==>
        args == fromIntent && collecting && finishedWith == old(finishedWith)
    {
      if fromIntent.None? {
        finishedWith := Some(Failed(Throwable(IllegalArgumentException, MISSING_ARGS_MESSAGE)));
        return;
      }
      args := fromIntent;
      collecting := true;
    }

    /** The launch-task collector: a task is resolved with request code 4444 and only then marked launched. */
    method OnLaunchTaskEmitted(task: Option<Task>)
      requires Valid()
      modifies this`calls
      ensures Valid()
      ensures calls == old(calls) + if collecting && task.Some? then
        [PayWithGoogle(task.value, LOAD_PAYMENT_DATA_REQUEST_CODE), MarkTaskAsLaunched] else []
    {
      if collecting && task.Some? {
        calls := calls + [PayWithGoogle(task.value, LOAD_PAYMENT_DATA_REQUEST_CODE)];
        calls := calls + [MarkTaskAsLaunched];
      }
    }

    /** The result collector: a non-null result finishes the activity with it. */
    method OnGooglePayResultEmitted(result: Option<Result>)
      requires Valid()
      modifies this`finishedWith
      ensures Valid()
      ensures finishedWith == if collecting && result.Some? then result else old(finishedWith)
    {
      if collecting && result.Some? {
        finishedWith := result;
      }
    }

    /** `onActivityResult`, delivered only to an activity that received its arguments. */
    method OnActivityResult(requestCode: int, resultCode: int, data: Option<IntentData>)
      requires Valid() && args.Some?
      modifies this`calls
      ensures Valid()
      ensures calls == old(calls) + DispatchActivityResult(codes, requestCode, resultCode, data)
    {
      var more := DispatchActivityResult(codes, requestCode, resultCode, data);
      calls := calls + more;
      assert forall i :: |old(calls)| <= i < |calls| ==> calls[i] == more[i - |old(calls)|];
    }
  }
}
