/**
 * `ErrorHandler` of sites/aliyun/static/js/error-handler.js: how an error
 * is classified into a toast (title, message, action buttons), the bounded
 * log of the last 50 errors, and the retry loop of `callApi` with its
 * linear back-off. The DOM work (building, showing and hiding toasts) is
 * reduced to the toast's content; the API function is a parameter that
 * gives the outcome of each attempt, and the sleeps are recorded instead
 * of waited for.
 */
module ErrorHandling {
  import opened Wrappers
  import opened Strs

  /** `errorInfo`: its `type` and its `message`, which may be missing. */
  datatype ErrorInfo = ErrorInfo(kind: string, message: Option<string>)

  /** The two buttons a toast can offer: reload the page, or go to the login page. */
  datatype Action = Retry | Relogin

  /** What `showToast` is given for an error. */
  datatype Toast = Toast(title: string, message: string, actions: seq<Action>)

  const MaxErrors: nat := 50
  const MaxMessage: nat := 200

  const NetworkMessage: string := "网络连接失败,请检查网络设置"
  const KeyIdMessage: string := "AccessKey ID 无效,请检查密钥配置"
  const SecretMessage: string := "AccessKey Secret 错误,请检查密钥配置"
  const RamMessage: string := "权限不足,请检查 RAM 角色权限"
  const ThrottlingMessage: string := "API 调用频率超限,请稍后重试"

  /** The types with a title of their own. */
  predicate KnownKind(kind: string) {
    kind == "runtime" || kind == "promise" || kind == "network" || kind == "auth"
  }

  /** `getErrorTitle`: a title per known type, '出错了' for any other. */
  function Title(kind: string): (t: string)
    ensures t == "出错了" <==> !KnownKind(kind)
  {
    match kind
    case "runtime" => "程序错误"
    case "promise" => "API 调用失败"
    case "network" => "网络错误"
    case "auth" => "认证失败"
    case _ => "出错了"
  }

  /** Known types have different titles, so the title tells the type. */
  lemma TitleTellsKind(a: string, b: string)
    requires KnownKind(a) && Title(a) == Title(b)
    ensures a == b
  {
  }

  /** `errorInfo.message || '未知错误'`. */
  function RawMessage(info: ErrorInfo): (raw: string)
    ensures raw != ""
    ensures info.message.Some? && info.message.value != "" ==> raw == info.message.value
  {
    if info.message.Some? && info.message.value != "" then info.message.value else "未知错误"
  }

  /** None of the substrings `getErrorMessage` looks for. */
  predicate Unrecognised(raw: string) {
    !Contains(raw, "NetworkError") && !Contains(raw, "Failed to fetch") && !Contains(raw, "InvalidAccessKeyId")
    && !Contains(raw, "SignatureDoesNotMatch") && !Contains(raw, "Forbidden.RAM") && !Contains(raw, "Throttling")
  }

  /**
   * `getErrorMessage`: the first recognised substring, in a fixed order,
   * picks a fixed explanation; otherwise the message itself, cut to 200
   * characters and '...' when longer.
   */
  function Message(info: ErrorInfo): (m: string)
    ensures |m| <= MaxMessage + 3
    ensures !Unrecognised(RawMessage(info)) ==>
              m in [NetworkMessage, KeyIdMessage, SecretMessage, RamMessage, ThrottlingMessage]
    ensures Unrecognised(RawMessage(info)) && |RawMessage(info)| <= MaxMessage ==> m == RawMessage(info)
    ensures Unrecognised(RawMessage(info)) && |RawMessage(info)| > MaxMessage ==>
              |m| == MaxMessage + 3 && m[..MaxMessage] == RawMessage(info)[..MaxMessage] && m[MaxMessage..] == "..."
  {
    var raw := RawMessage(info);
    if Contains(raw, "NetworkError") || Contains(raw, "Failed to fetch") then NetworkMessage
    else if Contains(raw, "InvalidAccessKeyId") then KeyIdMessage
    else if Contains(raw, "SignatureDoesNotMatch") then SecretMessage
    else if Contains(raw, "Forbidden.RAM") then RamMessage
    else if Contains(raw, "Throttling") then ThrottlingMessage
    else if |raw| > MaxMessage then raw[..MaxMessage] + "..."
    else raw
  }

  /** A network failure is reported as such whatever else the message mentions. */
  lemma NetworkFirst(info: ErrorInfo)
    requires Contains(RawMessage(info), "NetworkError") || Contains(RawMessage(info), "Failed to fetch")
    ensures Message(info) == NetworkMessage
  {
  }

  /** A message that names two problems is explained by the earlier rule: permissions before throttling. */
  lemma EarlierRuleWins(info: ErrorInfo)
    requires Contains(RawMessage(info), "Forbidden.RAM") && Contains(RawMessage(info), "Throttling")
    requires !Contains(RawMessage(info), "NetworkError") && !Contains(RawMessage(info), "Failed to fetch")
    requires !Contains(RawMessage(info), "InvalidAccessKeyId") && !Contains(RawMessage(info), "SignatureDoesNotMatch")
    ensures Message(info) == RamMessage
  {
  }

  /** `errorInfo.message?.includes(part)`: false when the message is missing. */
  predicate Mentions(info: ErrorInfo, part: string) {
    info.message.Some? && Contains(info.message.value, part)
  }

  /** `getErrorActions`: retry for network errors, re-login for authentication errors, retry first. */
  function Actions(info: ErrorInfo): (acts: seq<Action>)
    ensures Retry in acts <==> info.kind == "network" || Mentions(info, "NetworkError")
    ensures Relogin in acts <==> info.kind == "auth" || Mentions(info, "InvalidAccessKey")
    ensures |acts| <= 2 && (|acts| == 2 ==> acts == [Retry, Relogin])
  {
    var retry := if info.kind == "network" || Mentions(info, "NetworkError") then [Retry] else [];
    var relogin := if info.kind == "auth" || Mentions(info, "InvalidAccessKey") then [Relogin] else [];
    retry + relogin
  }

  /** An invalid key id is explained as such and offers the way back to the login page. */
  lemma InvalidKeyIdOffersRelogin(info: ErrorInfo)
    requires info.message.Some? && Contains(info.message.value, "InvalidAccessKeyId")
    requires !Contains(info.message.value, "NetworkError") && !Contains(info.message.value, "Failed to fetch")
    ensures Message(info) == KeyIdMessage
    ensures Relogin in Actions(info)
  {
    assert "InvalidAccessKey" + "Id" == "InvalidAccessKeyId";
    ContainsPrefix(info.message.value, "InvalidAccessKey", "Id");
  }

  /** The `handleError` branch: no toast for a resource that failed to load, the classified toast otherwise. */
  function ToastFor(info: ErrorInfo): (t: Option<Toast>)
    ensures t.None? <==> info.kind == "resource"
    ensures t.Some? ==> t.value.title == Title(info.kind) && t.value.message == Message(info)
                        && t.value.actions == Actions(info)
  {
    if info.kind == "resource" then None else Some(Toast(Title(info.kind), Message(info), Actions(info)))
  }

  /** `logError`'s push then shift: the oldest entry goes once there are more than 50. */
  function Trim(log: seq<ErrorInfo>): (r: seq<ErrorInfo>)
    ensures |log| <= MaxErrors + 1 ==> |r| <= MaxErrors
    ensures |log| > MaxErrors ==> r == log[1..]
    ensures |log| <= MaxErrors ==> r == log
  {
    if |log| > MaxErrors then log[1..] else log
  }

  /** The last 50 entries of a history, or all of it when shorter. */
  function Recent(history: seq<ErrorInfo>): (r: seq<ErrorInfo>)
    ensures |r| <= MaxErrors
    ensures |r| == if |history| < MaxErrors then |history| else MaxErrors
  {
    if |history| > MaxErrors then history[|history| - MaxErrors..] else history
  }

  /** Logging onto the last 50 of a history gives the last 50 of the longer history. */
  lemma TrimKeepsRecent(history: seq<ErrorInfo>, e: ErrorInfo)
    ensures Trim(Recent(history) + [e]) == Recent(history + [e])
  {
    if |history| >= MaxErrors {
      assert Recent(history) + [e] == history[|history| - MaxErrors..] + [e];
      assert (history[|history| - MaxErrors..] + [e])[1..] == (history + [e])[|history| + 1 - MaxErrors..];
    }
  }

  /** The log of every error ever handled is the last 50 of them, newest last. */
  lemma {:induction false} LogIsRecent(history: seq<ErrorInfo>)
    ensures LogAfter(history) == Recent(history)
  {
    if history != [] {
      var prefix := history[..|history| - 1];
      LogIsRecent(prefix);
      assert prefix + [history[|history| - 1]] == history;
      TrimKeepsRecent(prefix, history[|history| - 1]);
    }
  }

  /** The log after the errors of `history` were logged, one by one, from an empty log. */
  function LogAfter(history: seq<ErrorInfo>): seq<ErrorInfo> {
    if history == [] then [] else Trim(LogAfter(history[..|history| - 1]) + [history[|history| - 1]])
  }

  /** What the API function does on one attempt. */
  datatype Outcome = Resolved(value: string) | Rejected(reason: string)

  /** How `callApi` ends: with the first result, or by rethrowing the last error. */
  datatype CallResult = Returned(value: string) | Threw(reason: string)

  /** The waits before the retries after `failures` failed attempts: `retryDelay * (attempt + 1)` each. */
  function Backoff(retryDelay: nat, failures: nat): (waits: seq<nat>)
    ensures |waits| == failures
    ensures forall k | 0 <= k < failures :: waits[k] == retryDelay * (k + 1)
  {
    if failures == 0 then [] else Backoff(retryDelay, failures - 1) + [retryDelay * failures]
  }

  function Sum(s: seq<nat>): nat {
    if s == [] then 0 else Sum(s[..|s| - 1]) + s[|s| - 1]
  }

  /** 1 + 2 + ... + n. */
  function Triangle(n: nat): nat {
    if n == 0 then 0 else Triangle(n - 1) + n
  }

  lemma {:induction false} TriangleClosed(n: nat)
    ensures 2 * Triangle(n) == n * (n + 1)
  {
    if n > 0 {
      TriangleClosed(n - 1);
      assert n * (n + 1) == (n - 1) * n + 2 * n;
    }
  }

  /** The back-off is linear, so `n` retries wait `retryDelay * n * (n + 1) / 2` in all. */
  lemma BackoffTotal(retryDelay: nat, n: nat)
    ensures 2 * Sum(Backoff(retryDelay, n)) == retryDelay * (n * (n + 1))
  {
    BackoffTriangle(retryDelay, n);
    TriangleClosed(n);
    assert retryDelay * (2 * Triangle(n)) == 2 * (retryDelay * Triangle(n));
  }

  lemma {:induction false} BackoffTriangle(retryDelay: nat, n: nat)
    ensures Sum(Backoff(retryDelay, n)) == retryDelay * Triangle(n)
  {
    if n > 0 {
      BackoffTriangle(retryDelay, n - 1);
      var b := Backoff(retryDelay, n);
      assert b[..|b| - 1] == Backoff(retryDelay, n - 1);
      assert retryDelay * Triangle(n) == retryDelay * Triangle(n - 1) + retryDelay * n;
    }
  }

  class ErrorHandler {
    /** `this.errors`, oldest first. */
    var errors: seq<ErrorInfo>

    constructor ()
      ensures errors == []
    {
      errors := [];
    }

    /** The log holds at most 50 entries. */
    predicate Valid()
      reads this
    {
      |errors| <= MaxErrors
    }

    /** `logError`: push, then shift past 50. */
    method LogError(info: ErrorInfo)
      modifies this
      ensures errors == Trim(old(errors) + [info])
      ensures old(Valid()) ==> Valid() && errors[|errors| - 1] == info
    {
      errors := errors + [info];
      if |errors| > MaxErrors {
        errors := errors[1..];
      }
    }

    /** `handleError`: logs the error, then gives the toast to show, if any. */
    method HandleError(info: ErrorInfo) returns (toast: Option<Toast>)
      modifies this
      ensures errors == Trim(old(errors) + [info])
      ensures toast == ToastFor(info)
    {
      LogError(info);
      if info.kind == "resource" {
        toast := None;
      } else {
        toast := Some(Toast(Title(info.kind), Message(info), Actions(info)));
      }
    }

    /** `clearErrors`. */
    method ClearErrors()
      modifies this
      ensures errors == [] && Valid()
    {
      errors := [];
    }

    /**
     * `callApi`: up to `maxRetries + 1` attempts; the first that resolves
     * is returned; a failed attempt before the last waits
     * `retryDelay * (attempt + 1)`; the last failure is handled as a
     * 'network' error and rethrown.
     */
    method CallApi(api: nat -> Outcome, maxRetries: nat, retryDelay: nat) returns (r: CallResult, calls: nat, waits: seq<nat>)
      modifies this
      ensures 1 <= calls <= maxRetries + 1
      ensures forall k | 0 <= k < calls - 1 :: api(k).Rejected?
      ensures r.Returned? <==> api(calls - 1).Resolved?
      ensures r.Returned? ==> r.value == api(calls - 1).value && errors == old(errors)
      ensures r.Threw? ==> calls == maxRetries + 1 && r.reason == api(maxRetries).reason
                           && errors == Trim(old(errors) + [ErrorInfo("network", Some(r.reason))])
      ensures waits == Backoff(retryDelay, calls - 1)
    {
      var attempt := 0;
      waits := [];
      while attempt < maxRetries && api(attempt).Rejected?
        invariant attempt <= maxRetries
        invariant forall k | 0 <= k < attempt :: api(k).Rejected?
        invariant waits == Backoff(retryDelay, attempt)
        invariant errors == old(errors)
        decreases maxRetries - attempt
      {
        waits := waits + [retryDelay * (attempt + 1)];
        attempt := attempt + 1;
      }
      calls := attempt + 1;
      match api(attempt)
      case Resolved(value) =>
        r := Returned(value);
      case Rejected(reason) =>
        var _ := HandleError(ErrorInfo("network", Some(reason)));
        r := Threw(reason);
    }
  }
}
