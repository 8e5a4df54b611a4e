/**
 * Which requests may move money, and how a failed one is classed
 * (electron/bridgeDeadline.ts, electron/walletFailure.ts).
 */
module WalletFailure {
  import opened Prelude

  const BRIDGE_DEADLINE_MS := 120000
  const SPEND_DEADLINE_MS := 300000

  /** Lower-cased names of the methods that change nothing in the wallet. */
  const READ_METHODS: set<string> := {
    "health", "getversion", "getnetwork", "getheight", "getheaderforheight", "isauthenticated",
    "waitforauthentication", "getpublickey", "listactions", "listoutputs", "getbalance",
    "listcertificates", "provecertificate", "discoverbyidentitykey", "discoverbyattributes",
    "revealcounterpartykeylinkage", "revealspecifickeylinkage", "encrypt", "decrypt", "createhmac",
    "verifyhmac", "createsignature", "verifysignature", "getlegacyaddress", "listmigrationtxids",
    "verifymarketlistingprovenance", "getmarketsettlementreceipt", "getmarketlistingstatus",
    "listbntassets", "getltcdepositaddress", "listltcdeposits", "getcoinaddress", "listcoins",
    "listassetprofiles", "getclaimedcloudhandle", "getarcusdaddress", "listarcusd",
    "listarcusdcwrapclaims", "getarcusdcwrapspendable", "planarcusdcfractionalize", "planarcusdcredeem"
  }

  predicate IsBlank(c: char) {
    c == ' ' || c == '\t' || c == '\n' || c == '\r' || c == 11 as char || c == 12 as char
  }

  function DropLeading(s: string, drop: char -> bool): string {
    if s != "" && drop(s[0]) then DropLeading(s[1..], drop) else s
  }

  function DropTrailing(s: string, drop: char -> bool): string {
    if s != "" && drop(s[|s| - 1]) then DropTrailing(s[..|s| - 1], drop) else s
  }

  function Lower(s: string): (t: string)
    ensures |t| == |s|
  {
    seq(|s|, i requires 0 <= i < |s| => if 'A' <= s[i] <= 'Z' then (s[i] as int + 32) as char else s[i])
  }

  function MethodOf(path: string): string {
    var trimmed := DropTrailing(DropLeading(path, IsBlank), IsBlank);
    DropTrailing(DropLeading(Lower(trimmed), c => c == '/'), c => c == '/')
  }

  predicate IsSpendMethodPath(path: string) {
    MethodOf(path) !in READ_METHODS
  }

  /** The words the bridge's own messages start with; an answer is coded by looking for them. */
  const PENDING := "WALLET_BRIDGE_PENDING"
  const TIMEOUT := "WALLET_BRIDGE_TIMEOUT"
  const UNAVAILABLE := "WALLET_BRIDGE_UNAVAILABLE"

  function DeadlineDetail(httpMethod: string, path: string, spend: bool): string {
    if spend then
      ": " + httpMethod + " " + path + " is still running in the wallet after " + Decimal(SPEND_DEADLINE_MS) +
        "ms — it may still complete; reconcile before retrying"
    else ": no renderer reply for " + httpMethod + " " + path + " within " + Decimal(BRIDGE_DEADLINE_MS) + "ms"
  }

  /** The deadline's message for a path whose class is `spend`. */
  function DeadlineMessage(httpMethod: string, path: string, spend: bool): string {
    (if spend then PENDING else TIMEOUT) + DeadlineDetail(httpMethod, path, spend)
  }

  datatype FailureClass =
    | InsufficientFunds | Locked | PermissionDenied | PolicyBlocked
    | Unreachable | InvalidRequest | UncertainDelivery | Unavailable
  datatype FailureFault = User | Application | Wallet | NoFault
  datatype FailureRetry = Safe | Unsafe | CheckFirst

  datatype Failure = Failure(class_: FailureClass, fault: FailureFault, retry: FailureRetry)

  const INVALID := Failure(InvalidRequest, Application, Unsafe)
  const UNCERTAIN := Failure(UncertainDelivery, NoFault, CheckFirst)
  const LATER := Failure(Unavailable, Wallet, Safe)
  const UNREACHABLE := Failure(Unreachable, NoFault, Safe)

  /** The codes the bridge itself puts on an answer. */
  datatype BridgeCode = WALLET_BRIDGE_PENDING | WALLET_BRIDGE_TIMEOUT | WALLET_BRIDGE_UNAVAILABLE | HTTP_BRIDGE_ERROR

  /** The table entries for bridge codes; `HTTP_BRIDGE_ERROR` is not in the table. */
  function ByCode(code: BridgeCode): Option<Failure> {
    match code
    case WALLET_BRIDGE_PENDING => Some(UNCERTAIN)
    case WALLET_BRIDGE_TIMEOUT => Some(LATER)
    case WALLET_BRIDGE_UNAVAILABLE => Some(UNREACHABLE)
    case HTTP_BRIDGE_ERROR => None
  }

  /** The failure of a request whose path has the class `spend`. */
  function WalletFailureFor(code: BridgeCode, status: int, spend: bool): Failure {
    match ByCode(code)
    case Some(known) => known
    case None => if status == 404 then INVALID else if spend then UNCERTAIN else LATER
  }

  /** An answer: the wallet's own words, or an error the bridge made. */
  datatype BridgeReply =
    | FromWallet(status: int, body: string)
    | FromBridge(status: int, code: BridgeCode, failure: Failure)

  function CodeOf(message: string): BridgeCode {
    if Includes(message, PENDING) then WALLET_BRIDGE_PENDING
    else if Includes(message, TIMEOUT) then WALLET_BRIDGE_TIMEOUT
    else if Includes(message, UNAVAILABLE) then WALLET_BRIDGE_UNAVAILABLE
    else HTTP_BRIDGE_ERROR
  }

  function BridgeErrorReply(message: string, spend: bool): BridgeReply {
    var code := CodeOf(message);
    var status := if code == HTTP_BRIDGE_ERROR then 500 else 503;
    FromBridge(status, code, WalletFailureFor(code, status, spend))
  }

  /** An answer that never tells its caller that trying again is safe. */
  predicate ChecksFirst(reply: BridgeReply) {
    reply.FromBridge? ==> reply.failure.retry == CheckFirst
  }

  /** The deadline of a spend is never answered as safe to repeat, whatever its path spells. */
  lemma {:induction false} SpendDeadlineChecksFirst(httpMethod: string, path: string)
    ensures Includes(DeadlineMessage(httpMethod, path, true), PENDING)
    ensures ChecksFirst(BridgeErrorReply(DeadlineMessage(httpMethod, path, true), true))
  {
    IncludesPrefix(PENDING, DeadlineDetail(httpMethod, path, true));
  }

  /** Exactly when an error message is answered as safe to repeat. */
  lemma {:induction false} SafeExactlyWhen(message: string, spend: bool)
    ensures BridgeErrorReply(message, spend).failure.retry == Safe <==>
              !Includes(message, PENDING)
              && (Includes(message, TIMEOUT) || Includes(message, UNAVAILABLE) || !spend)
  {
  }
}
