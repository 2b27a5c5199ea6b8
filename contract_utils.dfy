/** Ledger-result classification and dispatch (src/utils/contractUtils.js).
    Every awaited contract call, together with its `tx.wait()`, is an oracle
    outcome supplied by the caller; `JSON.parse` is an oracle function. */
module ContractUtils {
  import opened JsValues

  /** The `code` property of a thrown provider error. */
  datatype ErrorCode = NoCode | StrCode(s: string) | NumCode(n: int)

  /** A thrown error: its `code` and its `message`, either of which may be absent. */
  datatype ProviderError = ProviderError(code: ErrorCode, message: Option<string>)

  /** The object the ledger functions return: `{hash, success: true[, simulated: true]}`
      or `{success: false, error}`. */
  datatype TxResult = Sent(hash: string, simulated: bool) | Failed(error: string)

  // ---------------------------------------------------------------------------
  // handleProviderError

  // Each message is written as its label and its text, so that the verifier
  // sees their first characters, which tell them apart.
  const RpcMessage := "RPC Error: " + "Check that your wallet is connected to the correct network"
  const NetworkMessage := "Network Error: " + "Please make sure you are connected to the Telos network"
  const CallExceptionMessage := "Contract Error: "
    + "Transaction reverted. Check that you have permissions to call this function."
  const UserRejectedMessage := "Transaction " + "was rejected by user"
  const GasMessage := "Gas Error: " + "Transaction may require more gas than allowed"
  const UnknownDetail := "Unknown error occurred"
  const AlreadyMarkedMessage := "You have " + "already marked attendance for this session"

  /** JavaScript truthiness of `error.code`. */
  predicate CodeTruthy(c: ErrorCode) {
    match c
    case NoCode => false
    case StrCode(s) => s != ""
    case NumCode(n) => n != 0
  }

  /** `error.code.toString()`, for numeric codes below 10^21 in magnitude
      (larger ones are written in exponent form, which is not modelled). */
  function CodeToString(c: ErrorCode): string {
    match c
    case NoCode => ""
    case StrCode(s) => s
    case NumCode(n) => IntToString(n)
  }

  /** `error.message?.includes(t)` */
  predicate MessageIncludes(e: ProviderError, t: string) {
    e.message.Some? && Includes(e.message.value, t)
  }

  /** The classifier's categories, one per check, the last being the default. */
  datatype Category = Rpc | Network | CallException | UserRejected | Gas | Other

  /** Position of a category's check in the classifier. */
  function Rank(c: Category): nat {
    match c
    case Rpc => 0
    case Network => 1
    case CallException => 2
    case UserRejected => 3
    case Gas => 4
    case Other => 5
  }

  /** Whether a category's check, taken on its own, accepts the error. */
  predicate Matches(c: Category, e: ProviderError) {
    match c
    case Rpc => CodeTruthy(e.code) && Includes(CodeToString(e.code), "32")
    case Network => e.code == StrCode("NETWORK_ERROR") || MessageIncludes(e, "network")
    case CallException => e.code == StrCode("CALL_EXCEPTION") || MessageIncludes(e, "call exception")
    case UserRejected => e.code == NumCode(4001) || MessageIncludes(e, "user rejected")
    case Gas => MessageIncludes(e, "gas") || MessageIncludes(e, "fee")
    case Other => true
  }

  /** The category whose check fires first: it accepts the error and no
      check ranked before it does. */
  function Classify(e: ProviderError): (c: Category)
    ensures Matches(c, e)
    ensures forall d: Category :: Rank(d) < Rank(c) ==> !Matches(d, e)
  {
    if Matches(Rpc, e) then Rpc
    else if Matches(Network, e) then Network
    else if Matches(CallException, e) then CallException
    else if Matches(UserRejected, e) then UserRejected
    else if Matches(Gas, e) then Gas
    else Other
  }

  /** The default message's detail: the error's message, or a fixed text when
      it is absent or empty. */
  function DefaultDetail(e: ProviderError): string {
    if e.message.Some? && e.message.value != "" then e.message.value else UnknownDetail
  }

  /** Which category a classifier message reports. */
  function CategoryOfMessage(m: string): Category {
    if m == RpcMessage then Rpc
    else if m == NetworkMessage then Network
    else if m == CallExceptionMessage then CallException
    else if m == UserRejectedMessage then UserRejected
    else if m == GasMessage then Gas
    else Other
  }

  /** `handleProviderError`: always a failure with a non-empty message, from
      which the category of the first matching check can be read back. */
  function HandleProviderError(e: ProviderError): (r: TxResult)
    ensures r.Failed? && |r.error| > 0
    ensures CategoryOfMessage(r.error) == Classify(e)
    ensures Classify(e) == Other ==> r.error == "Error: " + DefaultDetail(e)
    ensures r.error != AlreadyMarkedMessage
  {
    match Classify(e)
    case Rpc => Failed(RpcMessage)
    case Network => Failed(NetworkMessage)
    case CallException => Failed(CallExceptionMessage)
    case UserRejected => Failed(UserRejectedMessage)
    case Gas => Failed(GasMessage)
    case Other =>
      var m := "Error: " + DefaultDetail(e);
      assert m[0] == 'E' && AlreadyMarkedMessage[0] == 'Y';
      assert RpcMessage[0] == 'R' && NetworkMessage[0] == 'N' && CallExceptionMessage[0] == 'C';
      assert UserRejectedMessage[0] == 'T' && GasMessage[0] == 'G';
      Failed(m)
  }

  /** A JSON-RPC internal error (code -32603) is reported as an RPC error,
      whatever its message says. */
  lemma JsonRpcCodeIsRpc(message: Option<string>)
    ensures Classify(ProviderError(NumCode(-32603), message)) == Rpc
  {
  }

  /** A wallet's rejection code 4001 contains no "32", so the RPC check never
      hides it: it reaches the user-rejection check whenever the message fires
      neither the network nor the call-exception check. */
  lemma RejectionCodeIsUserRejected(m: Option<string>)
    requires !MessageIncludes(ProviderError(NumCode(4001), m), "network")
    requires !MessageIncludes(ProviderError(NumCode(4001), m), "call exception")
    ensures Classify(ProviderError(NumCode(4001), m)) == UserRejected
  {
    assert IntToString(4001) == "4001";
    NoThreeNoRpc("4001");
  }

  /** A code whose text has no '3' never contains "32". */
  lemma {:induction false} NoThreeNoRpc(s: string)
    requires forall i :: 0 <= i < |s| ==> s[i] != '3'
    ensures !Includes(s, "32")
  {
    if |s| > 0 {
      assert |s| < 2 || s[..2] != "32" by {
        if |s| >= 2 { assert s[..2][0] == s[0]; }
      }
      NoThreeNoRpc(s[1..]);
    }
  }

  // ---------------------------------------------------------------------------
  // Ledger calls

  /** `'0x' + Array(64).fill('0').join('')`, the hash of a simulated transaction. */
  function SimulatedHash(): (h: string)
    ensures |h| == 66 && h[..2] == "0x"
    ensures forall i :: 2 <= i < |h| ==> h[i] == '0'
  {
    "0x" + seq(64, _ => '0')
  }

  /** What a function returns when no contract address is configured. */
  function SimulatedSuccess(): TxResult { Sent(SimulatedHash(), true) }

  /** The deployment the functions run against: whether `CONTRACT_ADDRESS` is
      set, and whether the contract object exposes `updateBatchAttendanceCodes`. */
  datatype Ledger = Ledger(hasAddress: bool, hasBatchFunction: bool)

  /** The transaction a dispatch sends, if any. */
  datatype LedgerCall =
    | NoCall
    | SingleCall(code: string, validity: int)
    | BatchCall(codes: string, validity: int)
    | MarkCall(markCode: string)

  /** How the awaited call and `tx.wait()` end: a receipt hash, or a thrown error. */
  datatype CallOutcome = Confirmed(hash: string) | Threw(error: ProviderError)

  /** A ledger function's transaction (if any) and its returned object. */
  datatype Dispatch = Dispatch(call: LedgerCall, result: TxResult)

  /** The returned object once the transaction has been sent. */
  function Settle(o: CallOutcome): (r: TxResult)
    ensures r.Sent? <==> o.Confirmed?
    ensures o.Confirmed? ==> r == Sent(o.hash, false)
    ensures o.Threw? ==> r == HandleProviderError(o.error)
  {
    match o
    case Confirmed(h) => Sent(h, false)
    case Threw(e) => HandleProviderError(e)
  }

  /** Element `[0]` of a parsed batch: a string, or something else, on which
      `code.startsWith` throws a TypeError with the given message. */
  datatype FirstElement = StringElement(s: string) | NonStringElement(typeError: string)

  /** `JSON.parse(codesString)` and reading its `.length`: either this throws
      (a SyntaxError, or a TypeError on `null`) with the given message, or it
      yields a value whose element `[0]` is given. */
  datatype BatchParse = Unreadable(message: string) | Parsed(first: FirstElement)

  /** A property of `JSON.parse`: a string found at `[0]` of the parsed value
      is shorter than the text it was parsed from. */
  ghost predicate ParseShrinks(parse: string -> BatchParse) {
    forall s :: parse(s).Parsed? && parse(s).first.StringElement? ==> |parse(s).first.s| < |s|
  }

  /** The check in `updateAttendanceCode` that routes a code to the batch path. */
  predicate IsBatchPayload(code: string) {
    StartsWith(code, "[") || StartsWith(code, "{")
  }

  /** A code-less error carrying a JavaScript engine message. */
  function EngineError(message: string): ProviderError { ProviderError(NoCode, Some(message)) }

  /** What every dispatch from `top` guarantees: a transaction goes out only
      with an address configured; the single-code function never receives a
      batch payload, and receives nothing longer than `top`; the batch function
      is called only when present, and then with `top` itself; a sent
      transaction's result is the ledger's; a simulated result means no
      address; a real hash comes from the ledger's receipt. */
  predicate Routed(ledger: Ledger, top: string, validity: int, outcome: CallOutcome, d: Dispatch) {
    && (d.call != NoCall ==> ledger.hasAddress && d.result == Settle(outcome))
    && (d.call.SingleCall? ==>
          !IsBatchPayload(d.call.code) && |d.call.code| <= |top| && d.call.validity == validity)
    && (d.call.BatchCall? ==> ledger.hasBatchFunction && d.call == BatchCall(top, validity))
    && !d.call.MarkCall?
    && (d.result.Sent? && d.result.simulated ==>
          !ledger.hasAddress && d.call == NoCall && d.result.hash == SimulatedHash())
    && (d.result.Sent? && !d.result.simulated ==> d.call != NoCall && outcome == Confirmed(d.result.hash))
  }

  /** `updateAttendanceCode`: a code starting with `[` or `{` goes to the batch
      path; any other code is simulated without an address, and otherwise sent
      to the single-code function. */
  function UpdateAttendanceCode(ledger: Ledger, parse: string -> BatchParse, code: string,
                                validity: int, outcome: CallOutcome): (d: Dispatch)
    requires ParseShrinks(parse)
    ensures IsBatchPayload(code) ==> d == UpdateBatchAttendanceCodes(ledger, parse, code, validity, outcome)
    ensures !IsBatchPayload(code) && !ledger.hasAddress ==> d == Dispatch(NoCall, SimulatedSuccess())
    ensures !IsBatchPayload(code) && ledger.hasAddress ==> d.call == SingleCall(code, validity)
    ensures Routed(ledger, code, validity, outcome, d)
    decreases |code|, 1
  {
    if IsBatchPayload(code) then UpdateBatchAttendanceCodes(ledger, parse, code, validity, outcome)
    else if !ledger.hasAddress then Dispatch(NoCall, SimulatedSuccess())
    else Dispatch(SingleCall(code, validity), Settle(outcome))
  }

  /** `updateBatchAttendanceCodes`. The batch is parsed before the address is
      checked, so an unreadable batch fails even when simulating. Without the
      batch function it falls back to `updateAttendanceCode` on element `[0]`. */
  function UpdateBatchAttendanceCodes(ledger: Ledger, parse: string -> BatchParse, codes: string,
                                      validity: int, outcome: CallOutcome): (d: Dispatch)
    requires ParseShrinks(parse)
    ensures parse(codes).Unreadable? ==>
      d == Dispatch(NoCall, HandleProviderError(EngineError(parse(codes).message)))
    ensures parse(codes).Parsed? && !ledger.hasAddress ==> d == Dispatch(NoCall, SimulatedSuccess())
    ensures parse(codes).Parsed? && ledger.hasAddress && ledger.hasBatchFunction ==>
      d.call == BatchCall(codes, validity)
    ensures parse(codes).Parsed? && ledger.hasAddress && !ledger.hasBatchFunction ==>
      d.call.SingleCall? || d.call == NoCall
    ensures parse(codes).Parsed? && parse(codes).first.NonStringElement?
            && ledger.hasAddress && !ledger.hasBatchFunction ==>
      d == Dispatch(NoCall, HandleProviderError(EngineError(parse(codes).first.typeError)))
    ensures Routed(ledger, codes, validity, outcome, d)
    decreases |codes|, 0
  {
    match parse(codes)
    case Unreadable(message) => Dispatch(NoCall, HandleProviderError(EngineError(message)))
    case Parsed(first) =>
      if !ledger.hasAddress then Dispatch(NoCall, SimulatedSuccess())
      else if !ledger.hasBatchFunction then
        match first
        case StringElement(s) => UpdateAttendanceCode(ledger, parse, s, validity, outcome)
        case NonStringElement(typeError) => Dispatch(NoCall, HandleProviderError(EngineError(typeError)))
      else Dispatch(BatchCall(codes, validity), Settle(outcome))
  }

  /** Without the batch function, a batch whose element `[0]` is a string is
      handled exactly as `updateAttendanceCode` handles that string. */
  lemma BatchFallsBackToFirstCode(ledger: Ledger, parse: string -> BatchParse, codes: string,
                                  validity: int, outcome: CallOutcome)
    requires ParseShrinks(parse)
    requires ledger.hasAddress && !ledger.hasBatchFunction
    requires parse(codes).Parsed? && parse(codes).first.StringElement?
    ensures UpdateBatchAttendanceCodes(ledger, parse, codes, validity, outcome)
         == UpdateAttendanceCode(ledger, parse, parse(codes).first.s, validity, outcome)
  {
  }

  /** `markAttendance`: simulated without an address; otherwise an error
      whose message mentions "already marked" gets its own message, and any
      other error goes to the classifier. */
  function MarkAttendance(ledger: Ledger, code: string, outcome: CallOutcome): (d: Dispatch)
    ensures !ledger.hasAddress ==> d == Dispatch(NoCall, SimulatedSuccess())
    ensures ledger.hasAddress ==> d.call == MarkCall(code)
    ensures ledger.hasAddress && outcome.Confirmed? ==> d.result == Sent(outcome.hash, false)
    ensures ledger.hasAddress && outcome.Threw? ==>
      d.result.Failed?
      && (d.result.error == AlreadyMarkedMessage <==> MessageIncludes(outcome.error, "already marked"))
    ensures ledger.hasAddress && outcome.Threw? && !MessageIncludes(outcome.error, "already marked") ==>
      d.result == HandleProviderError(outcome.error)
  {
    if !ledger.hasAddress then Dispatch(NoCall, SimulatedSuccess())
    else
      var result :=
        if outcome.Threw? && MessageIncludes(outcome.error, "already marked") then Failed(AlreadyMarkedMessage)
        else Settle(outcome);
      Dispatch(MarkCall(code), result)
  }

  // ---------------------------------------------------------------------------
  // isTeacher

  /** How the awaited `contract.teacher()` ends. */
  datatype TeacherRead = Returned(teacher: string) | ReadThrew(error: ProviderError)

  /** What `isTeacher` returns: a boolean, or the classifier's failure object. */
  datatype TeacherCheck = Answer(isTeacher: bool) | CheckFailed(failure: TxResult)

  /** Two strings are equal up to ASCII case, character by character. */
  predicate EqualIgnoringCase(a: string, b: string) {
    |a| == |b| && forall i :: 0 <= i < |a| ==> LowerChar(a[i]) == LowerChar(b[i])
  }

  /** `isTeacher`: true without an address; otherwise whether the contract's
      teacher and the address agree once both are lower-cased. */
  function IsTeacher(ledger: Ledger, address: string, read: TeacherRead): (r: TeacherCheck)
    ensures !ledger.hasAddress ==> r == Answer(true)
    ensures ledger.hasAddress && read.Returned? ==>
      r == Answer(EqualIgnoringCase(read.teacher, address))
    ensures ledger.hasAddress && read.ReadThrew? ==> r == CheckFailed(HandleProviderError(read.error))
  {
    if !ledger.hasAddress then Answer(true)
    else match read
      case Returned(teacher) =>
        var same := ToLowerCase(teacher) == ToLowerCase(address);
        assert same <==> EqualIgnoringCase(teacher, address) by {
          if EqualIgnoringCase(teacher, address) {
            assert forall i :: 0 <= i < |teacher| ==> ToLowerCase(teacher)[i] == ToLowerCase(address)[i];
          }
          if same {
            forall i | 0 <= i < |teacher| ensures LowerChar(teacher[i]) == LowerChar(address[i]) {
              assert ToLowerCase(teacher)[i] == ToLowerCase(address)[i];
            }
          }
        }
        Answer(same)
      case ReadThrew(e) => CheckFailed(HandleProviderError(e))
  }

  /** Writing the queried address in upper case does not change the answer. */
  lemma IsTeacherIgnoresCase(ledger: Ledger, address: string, read: TeacherRead)
    ensures IsTeacher(ledger, ToUpperCase(address), read) == IsTeacher(ledger, address, read)
  {
  }
}
