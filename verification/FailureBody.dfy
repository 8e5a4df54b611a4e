/**
 * The failure fields added to the wallet's own error bodies (electron/walletFailure.ts):
 * the table of codes, and what an answer that names no class is given.
 */
module FailureBodies {
  import opened Prelude
  import opened JsonText
  import opened WalletFailure

  const INSUFFICIENT := Failure(InsufficientFunds, NoFault, CheckFirst)
  const LOCKED := Failure(Locked, NoFault, Safe)
  const DENIED := Failure(PermissionDenied, User, Unsafe)
  const EXPIRED := Failure(PermissionDenied, NoFault, Safe)
  const POLICY := Failure(PolicyBlocked, NoFault, Unsafe)
  const NOT_HERE := Failure(Unavailable, Wallet, Unsafe)
  const CHECK := Failure(Unavailable, Wallet, CheckFirst)

  const UNCERTAIN_CODES := {"WALLET_BRIDGE_PENDING", "ACTION_IN_PROGRESS", "SPEND_REGION_ABANDONED", "INSUFFICIENT_OR_STALE_FUNDS"}
  const LATER_CODES := {"WALLET_BRIDGE_TIMEOUT", "WALLET_BALANCE_TIMEOUT", "INPUTS_UNVERIFIED", "OFFLINE_PAYMENTS_DISABLED",
                        "CHANGE_CHAINING_REQUIRED", "SPENDING_BUDGET_UNAVAILABLE"}
  const LOCKED_CODES := {"WALLET_LOCKED", "NOT_AUTHENTICATED"}
  const DENIED_CODES := {"PERMISSION_DENIED", "ACTION_DENIED", "TOKEN_VIEW_DENIED", "ITEM_VIEW_DENIED", "COUNTERSIGNED_VIEW_DENIED",
                         "HANDLE_ISSUE_REFUSED", "HANDLE_ISSUE_GRANT_REVOKED"}
  const POLICY_CODES := {"ORIGIN_REFUSED", "MARKET_ORIGIN_DENIED", "MIGRATION_ORIGIN_DENIED", "PROTOCOL_REFUSE", "RESERVED_KEY",
                         "ORIGIN_BOUND_IN_APP", "HANDLE_ISSUE_GRANT_USED", "HANDLE_ISSUE_TAKEN"}
  const INVALID_CODES := {"BAD_REQUEST", "BODY_TOO_LARGE", "INVALID_SATOSHIS", "INVALID_TOKEN_SCOPE", "INVALID_P1SAT_SCOPE",
                          "INVALID_COUNTERSIGNED_SCOPE", "INVALID_IDENTITY_PROOF", "MISSING_TOKEN_SCOPE_TAG", "MISSING_P1SAT_SCOPE_TAG",
                          "MISSING_COUNTERSIGNED_SCOPE_TAG", "USE_TOKEN_SCOPE", "USE_P1SAT_SCOPE", "USE_COUNTERSIGNED_SCOPE",
                          "UNSUPPORTED_P_BASKET", "EMPTY_INPUTS", "DUST_OUTPUT", "COIN_OWN_ADDRESS", "HANDLE_ISSUE_INVALID",
                          "HANDLE_ISSUE_WRONG_KEY", "HANDLE_ISSUE_TICKET_REJECTED"}
  const NOT_HERE_CODES := {"UNIMPLEMENTED", "INDEX_EXPANSION_UNAVAILABLE", "ASSET_PROTOCOL_RETIRED", "COIN_UNSUPPORTED_CHAIN",
                           "BNT_WALLET_ONLY", "COUNTERSIGNED_WALLET_ONLY", "MARKET_LISTING_REFUSED", "ITEM_ORIGIN_UNPROVEN",
                           "BEEF_ANCESTRY_INCOMPLETE", "FEE_TOO_LOW", "ARCADE_HARD_REJECT"}
  const CHECK_CODES := {"DOUBLE_SPENT", "HANDLE_ISSUE_FAILED"}

  /** The class a code has on any method. */
  function KnownFailure(code: string): Option<Failure> {
    if code in UNCERTAIN_CODES then Some(UNCERTAIN)
    else if code in LATER_CODES then Some(LATER)
    else if code == "WALLET_BRIDGE_UNAVAILABLE" then Some(UNREACHABLE)
    else if code == "INSUFFICIENT_FUNDS" then Some(INSUFFICIENT)
    else if code in LOCKED_CODES then Some(LOCKED)
    else if code in DENIED_CODES then Some(DENIED)
    else if code == "HANDLE_ISSUE_GRANT_EXPIRED" then Some(EXPIRED)
    else if code in POLICY_CODES then Some(POLICY)
    else if code in INVALID_CODES then Some(INVALID)
    else if code in NOT_HERE_CODES then Some(NOT_HERE)
    else if code in CHECK_CODES then Some(CHECK)
    else None
  }

  function CodeIn(fields: map<string, Json>): Option<string> {
    if "code" in fields && fields["code"].Str? then Some(fields["code"].s) else None
  }

  function FailureFor(code: Option<string>, status: int, spend: bool): Failure {
    if code.Some? && KnownFailure(code.value).Some? then KnownFailure(code.value).value
    else if status == 404 then INVALID
    else if spend then UNCERTAIN
    else LATER
  }

  function ClassText(c: FailureClass): string {
    match c
    case InsufficientFunds => "insufficient-funds"
    case Locked => "locked"
    case PermissionDenied => "permission-denied"
    case PolicyBlocked => "policy-blocked"
    case Unreachable => "unreachable"
    case InvalidRequest => "invalid-request"
    case UncertainDelivery => "uncertain-delivery"
    case Unavailable => "unavailable"
  }

  function FaultText(f: FailureFault): string {
    match f
    case User => "user"
    case Application => "application"
    case Wallet => "wallet"
    case NoFault => "none"
  }

  function RetryText(r: FailureRetry): string {
    match r
    case Safe => "safe"
    case Unsafe => "unsafe"
    case CheckFirst => "check-first"
  }

  predicate NamesClass(j: Json) {
    j.Str? && exists c: FailureClass :: j.s == ClassText(c)
  }

  /** An error body that already says how it failed. */
  predicate IsClassed(fields: map<string, Json>) {
    "class" in fields && NamesClass(fields["class"])
  }

  /** The object an error body becomes; nothing where the body passes as it is. */
  function WithWalletFailure(status: int, body: string, spend: bool): Option<map<string, Json>> {
    if status < 400 then None
    else match ParseDocument(body)
      case Some(Obj(fields)) =>
        if IsClassed(fields) then None
        else
          var failure := FailureFor(CodeIn(fields), status, spend);
          Some(map["status" := Str("error")] + fields
               + map["class" := Str(ClassText(failure.class_)), "fault" := Str(FaultText(failure.fault)), "retry" := Str(RetryText(failure.retry))])
      case _ => None
  }

  lemma {:induction false} FieldKeysApart()
    ensures "class" != "fault" && "class" != "retry" && "fault" != "retry"
    ensures "code" != "class" && "code" != "fault" && "code" != "retry" && "code" != "status"
    ensures RetryText(Safe) != RetryText(Unsafe) && RetryText(Safe) != RetryText(CheckFirst)
  {
    assert "class"[0] == 'c' && "fault"[0] == 'f' && "retry"[0] == 'r' && "code"[0] == 'c' && "status"[0] == 's';
    assert RetryText(Safe)[0] == 's' && RetryText(Unsafe)[0] == 'u' && RetryText(CheckFirst)[0] == 'c';
  }

  /** Whatever is rewritten says how it failed, keeps all else it said, and passes as it is the next time. */
  lemma {:induction false} RewrittenOnce(status: int, body: string, again: string, spend: bool)
    requires WithWalletFailure(status, body, spend).Some?
    requires ParseDocument(again) == Some(Obj(WithWalletFailure(status, body, spend).value))
    ensures WithWalletFailure(status, again, spend) == None
    ensures var before, after := ParseDocument(body).value.fields, WithWalletFailure(status, body, spend).value;
            && IsClassed(after) && CodeIn(after) == CodeIn(before)
            && forall k :: k in before && k != "class" && k != "fault" && k != "retry" ==> k in after && after[k] == before[k]
  {
    FieldKeysApart();
    var failure := FailureFor(CodeIn(ParseDocument(body).value.fields), status, spend);
    assert WithWalletFailure(status, body, spend).value["class"] == Str(ClassText(failure.class_));
  }

  /** An error answer to a spend that named no class is told a retry is safe exactly where the table says so of its code. */
  lemma {:induction false} SpendSafeExactlyWhen(status: int, body: string)
    requires WithWalletFailure(status, body, true).Some?
    ensures var fields := WithWalletFailure(status, body, true).value;
            var code := CodeIn(ParseDocument(body).value.fields);
            && "retry" in fields
            && (fields["retry"] == Str(RetryText(Safe)) <==>
                  code.Some? && KnownFailure(code.value).Some? && KnownFailure(code.value).value.retry == Safe)
  {
    FieldKeysApart();
    var failure := FailureFor(CodeIn(ParseDocument(body).value.fields), status, true);
    assert WithWalletFailure(status, body, true).value["retry"] == Str(RetryText(failure.retry));
  }

  function CodeText(code: BridgeCode): string {
    match code
    case WALLET_BRIDGE_PENDING => PENDING
    case WALLET_BRIDGE_TIMEOUT => TIMEOUT
    case WALLET_BRIDGE_UNAVAILABLE => UNAVAILABLE
    case HTTP_BRIDGE_ERROR => "HTTP_BRIDGE_ERROR"
  }

  /** The classes of the bridge's own answers are the table's. */
  lemma {:induction false} BridgeCodesInTable(code: BridgeCode)
    requires code != HTTP_BRIDGE_ERROR
    ensures KnownFailure(CodeText(code)) == ByCode(code)
  {
    var t, u := TIMEOUT, UNAVAILABLE;
    assert t[14] == 'T' && u[14] == 'U' && |t| == 21 && |u| == 25;
  }
}
