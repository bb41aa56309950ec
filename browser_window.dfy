/**
 * `create_browser_window` in create_window.py: a new BitBrowser window is made by copying a
 * reference configuration (a template or a listed window), naming it after the reference,
 * filling in the account's credentials and the proxy, and posting the result to the local API.
 *
 * JSON objects keep Python's reference semantics: the copied fingerprint entry is the
 * reference's own `dict`, so pinning its version changes the reference configuration as well.
 * An object's fields are a map from name to value; their order is not modelled, since the API
 * reads fields by name. The window list is one snapshot, passed in, and so is the reply to the
 * create request.
 */
module BrowserWindow {
  import opened Wrappers
  import opened Text
  import opened BrowserLines

  // ===========================================================================
  // JSON values

  /** A JSON object as Python holds it once decoded: a `dict`, shared by whoever refers to it. */
  class JsonObject {
    var entries: map<string, Value>

    constructor(entries: map<string, Value>)
      ensures this.entries == entries
    {
      this.entries := entries;
    }
  }

  /**
   * A decoded JSON value. `Other` stands for a list or a float, known only by its Python type
   * name and its truthiness.
   */
  datatype Value =
    | Str(s: string)
    | Int(i: int)
    | Bool(b: bool)
    | Null
    | Obj(o: JsonObject)
    | Other(typeName: string, truthy: bool)

  /** `d.get(k)`. */
  function Lookup(d: map<string, Value>, k: string): Option<Value> {
    if k in d then Some(d[k]) else None
  }

  /** Python's `type(v).__name__`. */
  function TypeName(v: Value): string {
    match v
    case Str(_) => "str"
    case Int(_) => "int"
    case Bool(_) => "bool"
    case Null => "NoneType"
    case Obj(_) => "dict"
    case Other(t, _) => t
  }

  /** The text of the `AttributeError` raised by calling `.get` on a value that is not a `dict`. */
  function NoGet(v: Value): string {
    "'" + TypeName(v) + "' object has no attribute 'get'"
  }

  /**
   * `v == 0` in Python, for a looked-up value (`None` when missing); `False == 0` holds too, and
   * so does `0.0 == 0`: the only falsy floats are the zeros.
   */
  predicate IsZero(v: Option<Value>) {
    || v == Some(Int(0)) || v == Some(Bool(false))
    || (v.Some? && v.value.Other? && v.value.typeName == "float" && !v.value.truthy)
  }

  /** `v == True` in Python; `1 == True` holds too. */
  predicate IsTrue(v: Option<Value>) {
    v == Some(Bool(true)) || v == Some(Int(1))
  }

  /** The local API's acceptance test, `res.get('code') == 0 or res.get('success') == True`. */
  predicate Accepted(res: map<string, Value>) {
    IsZero(Lookup(res, "code")) || IsTrue(Lookup(res, "success"))
  }

  /** A Python string argument given and non-empty (`if name_prefix:`). */
  predicate Given(s: Option<string>) {
    s.Some? && s.value != ""
  }

  // ===========================================================================
  // Outcomes

  /** Why no window was created; each case is one of the `(None, message)` returns. */
  datatype CreateError =
    | NoReference                                                   // neither a template nor a reference id
    | ReferenceNotFound(id: string)                                 // the reference id is not listed
    | Duplicate(windowName: Option<Value>, windowId: Option<Value>) // a window already has the email
    | Rejected(msg: Value)                                          // the API answered with a failure
    | NoId                                                          // the API accepted but sent no id
    | RequestFailed(reason: string)                                 // the request or its reply raised

  /**
   * What a call comes to: the new window's id, an error returned to the caller, or an exception
   * (named by its class) that escapes the function, since nothing before the request is guarded.
   */
  datatype Outcome = Created(id: Value) | Failed(error: CreateError) | Crashed(exception: string)

  /** Python's `str(v)` for the values an error message shows; objects and lists only by kind. */
  function Show(v: Option<Value>): string {
    match v
    case None => "None"
    case Some(Str(s)) => s
    case Some(Int(i)) => if i < 0 then "-" + NatToString(-i) else NatToString(i)
    case Some(Bool(b)) => if b then "True" else "False"
    case Some(Null) => "None"
    case Some(Obj(_)) => "{...}"
    case Some(Other(t, _)) => "<" + t + ">"
  }

  /** The message returned with each error. */
  function ErrorMessage(e: CreateError): string {
    match e
    case NoReference => "未指定参考窗口ID或模板配置"
    case ReferenceNotFound(id) => "找不到参考窗口: " + id
    case Duplicate(name, id) => "该账号已有对应窗口: " + Show(name) + " (ID: " + Show(id) + ")"
    case Rejected(msg) => "创建请求被拒绝: " + Show(Some(msg))
    case NoId => "API返回成功但未获取到ID"
    case RequestFailed(reason) => "请求异常: " + reason
  }

  // ===========================================================================
  // The window list (get_browser_info, get_next_window_name and the duplicate check)

  /** The position of the first window whose `key` holds `value` (`b.get(key) == value`). */
  function FirstWith(ws: seq<JsonObject>, key: string, value: Value): (r: Option<nat>)
    reads ws
    ensures r.Some? ==> r.value < |ws| && Lookup(ws[r.value].entries, key) == Some(value)
    ensures r.Some? ==> forall j :: 0 <= j < r.value ==> Lookup(ws[j].entries, key) != Some(value)
    ensures r.None? ==> forall j :: 0 <= j < |ws| ==> Lookup(ws[j].entries, key) != Some(value)
  {
    if |ws| == 0 then None
    else if Lookup(ws[0].entries, key) == Some(value) then Some(0)
    else
      match FirstWith(ws[1..], key, value)
      case None => None
      case Some(k) => Some(k + 1)
  }

  /** The search loop of `get_browser_info` and of the duplicate check. */
  method FindWindow(ws: seq<JsonObject>, key: string, value: Value) returns (r: Option<nat>)
    ensures r == FirstWith(ws, key, value)
  {
    var i := 0;
    while i < |ws|
      invariant 0 <= i <= |ws|
      invariant forall j :: 0 <= j < i ==> Lookup(ws[j].entries, key) != Some(value)
    {
      if Lookup(ws[i].entries, key) == Some(value) {
        return Some(i);
      }
      i := i + 1;
    }
    return None;
  }

  /** A window's `name` as `get_next_window_name` reads it: missing is `''`, a non-string fails. */
  function NameOf(w: JsonObject): Option<string>
    reads w
  {
    match Lookup(w.entries, "name").GetOr(Str(""))
    case Str(s) => Some(s)
    case _ => None
  }

  /** The names of the windows; `None` when one is not a string (`.startswith` would raise). */
  function NamesOf(ws: seq<JsonObject>): (r: Option<seq<string>>)
    reads ws
    ensures r.Some? ==> |r.value| == |ws| && forall k :: 0 <= k < |ws| ==> NameOf(ws[k]) == Some(r.value[k])
    ensures r.None? ==> exists k :: 0 <= k < |ws| && NameOf(ws[k]).None?
  {
    if |ws| == 0 then Some([])
    else
      var rest := NamesOf(ws[1..]);
      if NameOf(ws[0]).None? then None
      else if rest.None? then
        var k :| 0 <= k < |ws| - 1 && NameOf(ws[1..][k]).None?;
        assert ws[k + 1] == ws[1..][k];
        None
      else
        assert forall k :: 1 <= k < |ws| ==> ws[k] == ws[1..][k - 1];
        Some([NameOf(ws[0]).value] + rest.value)
  }

  // ===========================================================================
  // The reference configuration

  /** The reference configuration chosen, or the error that ends the call. */
  datatype Choice = Chosen(cfg: JsonObject) | Refused(error: CreateError)

  function TemplateFrame(template: Option<JsonObject>): set<JsonObject> {
    if template.Some? then {template.value} else {}
  }

  /** `if template_config:` — a template that is given and not empty. */
  predicate HasTemplate(template: Option<JsonObject>)
    reads TemplateFrame(template)
  {
    template.Some? && |template.value.entries| > 0
  }

  /**
   * The configuration to copy: a non-empty template wins; else the listed window with the
   * reference id; with neither given, the call is refused.
   */
  function Reference(template: Option<JsonObject>, referenceId: Option<string>, ws: seq<JsonObject>): (r: Choice)
    reads ws, TemplateFrame(template)
    ensures HasTemplate(template) ==> r == Chosen(template.value)
    ensures !HasTemplate(template) && Given(referenceId) ==>
      && (r.Chosen? <==> exists k :: 0 <= k < |ws| && Lookup(ws[k].entries, "id") == Some(Str(referenceId.value)))
      && (r.Chosen? ==> r.cfg in ws && Lookup(r.cfg.entries, "id") == Some(Str(referenceId.value)))
      && (r.Refused? ==> r.error == ReferenceNotFound(referenceId.value))
    ensures !HasTemplate(template) && !Given(referenceId) ==> r == Refused(NoReference)
    ensures r.Chosen? ==> r.cfg in ws || r.cfg in TemplateFrame(template)
  {
    if HasTemplate(template) then Chosen(template.value)
    else if Given(referenceId) then
      match FirstWith(ws, "id", Str(referenceId.value))
      case Some(k) => Chosen(ws[k])
      case None => Refused(ReferenceNotFound(referenceId.value))
    else Refused(NoReference)
  }

  /** The first branch of `create_browser_window`, with `get_browser_info` for the reference id. */
  method ChooseReference(template: Option<JsonObject>, referenceId: Option<string>, ws: seq<JsonObject>) returns (r: Choice)
    ensures r == Reference(template, referenceId, ws)
  {
    if HasTemplate(template) {
      return Chosen(template.value);
    }
    if Given(referenceId) {
      var k := FindWindow(ws, "id", Str(referenceId.value));
      if k.Some? {
        return Chosen(ws[k.value]);
      }
      return Refused(ReferenceNotFound(referenceId.value));
    }
    return Refused(NoReference);
  }

  // ===========================================================================
  // The payload

  const FingerprintKey: string := "browserFingerPrint"

  /** The reference fields the new window never inherits. */
  predicate Excluded(k: string) {
    || k == "id" || k == "name" || k == "remark" || k == "userName" || k == "password" || k == "faSecretKey"
    || k == "createTime" || k == "updateTime"
  }

  /** The proxy settings the payload always sets. */
  predicate ProxyKey(k: string) {
    k == "proxyType" || k == "proxyMethod" || k == "host" || k == "port" || k == "proxyUserName" || k == "proxyPassword"
  }

  /** The fields the payload sets on top of the copied ones. */
  predicate Assigned(k: string) {
    || k == "name" || k == "remark" || k == "platform" || k == "url"
    || k == "userName" || k == "password" || k == "faSecretKey" || k == FingerprintKey || ProxyKey(k)
  }

  /** The browser core version every new window is pinned to. */
  const CoreVersion: string := "140"

  /** The proxy fields sent when no proxy is given. */
  const NoProxy: Proxy := Proxy("noproxy", "", "", "", "")

  /** The reference's fields that are copied. */
  function Copied(cfg: map<string, Value>): (r: map<string, Value>)
    ensures forall k :: Lookup(r, k) == if Excluded(k) then None else Lookup(cfg, k)
  {
    map k | k in cfg && !Excluded(k) :: cfg[k]
  }

  /** The loop copying the reference's items that are not excluded, in any order. */
  method CopyFields(cfg: map<string, Value>) returns (d: map<string, Value>)
    ensures d == Copied(cfg)
  {
    d := map[];
    var rest := cfg.Keys;
    while rest != {}
      invariant rest <= cfg.Keys
      invariant d == map k | k in cfg && k !in rest && !Excluded(k) :: cfg[k]
      decreases rest
    {
      var key :| key in rest;
      if !Excluded(key) {
        d := d[key := cfg[key]];
      }
      rest := rest - {key};
    }
  }

  /** The stripped 2FA secret, when the account has a non-blank one. */
  function Secret(a: Account): (r: Option<string>)
    ensures r == if Strip(a.secret) != "" then Some(Strip(a.secret)) else None
  {
    assert a.secret == "" ==> Strip(a.secret) == "";
    if a.secret != "" && Strip(a.secret) != "" then Some(Strip(a.secret)) else None
  }

  /** `if cond: d[k] = v`. */
  function PutIf(d: map<string, Value>, cond: bool, k: string, v: Value): (r: map<string, Value>)
    ensures Lookup(r, k) == if cond then Some(v) else Lookup(d, k)
    ensures forall j :: j != k ==> Lookup(r, j) == Lookup(d, j)
  {
    if cond then d[k := v] else d
  }

  /** The window's name and the account's line as remark, and the platform and URL when given. */
  function NameFields(d: map<string, Value>, name: string, a: Account,
                      platform: Option<string>, extraUrl: Option<string>): (r: map<string, Value>)
    ensures Lookup(r, "name") == Some(Str(name)) && Lookup(r, "remark") == Some(Str(a.fullLine))
    ensures Lookup(r, "platform") == (if Given(platform) then Some(Str(platform.value)) else Lookup(d, "platform"))
    ensures Lookup(r, "url") == (if Given(extraUrl) then Some(Str(extraUrl.value)) else Lookup(d, "url"))
    ensures forall k :: (k != "name" && k != "remark" && k != "platform" && k != "url") ==> Lookup(r, k) == Lookup(d, k)
  {
    var d1 := d["name" := Str(name)]["remark" := Str(a.fullLine)];
    var d2 := PutIf(d1, Given(platform), "platform", Str(platform.GetOr("")));
    PutIf(d2, Given(extraUrl), "url", Str(extraUrl.GetOr("")))
  }

  /** The account's email, password and stripped secret, each only when non-empty. */
  function Credentials(d: map<string, Value>, a: Account, secret: Option<string>): (r: map<string, Value>)
    ensures Lookup(r, "userName") == (if a.email != "" then Some(Str(a.email)) else Lookup(d, "userName"))
    ensures Lookup(r, "password") == (if a.password != "" then Some(Str(a.password)) else Lookup(d, "password"))
    ensures Lookup(r, "faSecretKey") == (if secret.Some? then Some(Str(secret.value)) else Lookup(d, "faSecretKey"))
    ensures forall k :: (k != "userName" && k != "password" && k != "faSecretKey") ==> Lookup(r, k) == Lookup(d, k)
  {
    var d1 := PutIf(d, a.email != "", "userName", Str(a.email));
    var d2 := PutIf(d1, a.password != "", "password", Str(a.password));
    PutIf(d2, secret.Some?, "faSecretKey", Str(secret.GetOr("")))
  }

  /** A fingerprint object `fp` when the copy has none. */
  function WithFingerprint(d: map<string, Value>, fp: Value): (r: map<string, Value>)
    ensures Lookup(r, FingerprintKey) == Some(if FingerprintKey in d then d[FingerprintKey] else fp)
    ensures forall k :: k != FingerprintKey ==> Lookup(r, k) == Lookup(d, k)
  {
    if FingerprintKey in d then d else d[FingerprintKey := fp]
  }

  /** The proxy settings, with the `noproxy` ones when no proxy is given. */
  function ProxyFields(d: map<string, Value>, proxy: Option<Proxy>): (r: map<string, Value>)
    ensures var p := proxy.GetOr(NoProxy);
      && Lookup(r, "proxyType") == Some(Str(p.kind)) && Lookup(r, "proxyMethod") == Some(Int(2))
      && Lookup(r, "host") == Some(Str(p.host)) && Lookup(r, "port") == Some(Str(p.port))
      && Lookup(r, "proxyUserName") == Some(Str(p.username))
      && Lookup(r, "proxyPassword") == Some(Str(p.password))
    ensures forall k :: (k != "proxyType" && k != "proxyMethod" && k != "host" && k != "port"
      && k != "proxyUserName" && k != "proxyPassword") ==> Lookup(r, k) == Lookup(d, k)
  {
    var p := proxy.GetOr(NoProxy);
    d["proxyType" := Str(p.kind)]["proxyMethod" := Int(2)]["host" := Str(p.host)]["port" := Str(p.port)]
     ["proxyUserName" := Str(p.username)]["proxyPassword" := Str(p.password)]
  }

  /**
   * The `json_data` posted to `/browser/update`, built in the order `create_browser_window`
   * builds it; `secret` is the account's stripped 2FA secret when non-blank, and `fp` is the
   * fresh fingerprint used when the reference has none.
   */
  function Payload(cfg: map<string, Value>, name: string, a: Account,
                      secret: Option<string>, platform: Option<string>,
                   extraUrl: Option<string>, proxy: Option<Proxy>, fp: Value): map<string, Value>
  {
    ProxyFields(WithFingerprint(Credentials(NameFields(Copied(cfg), name, a, platform, extraUrl), a, secret), fp), proxy)
  }

  // Each layer leaves the fields it does not set as they were; one key at a time.

  lemma CopiedKeep(cfg: map<string, Value>, k: string)
    requires !Excluded(k)
    ensures Lookup(Copied(cfg), k) == Lookup(cfg, k)
  {
  }

  lemma NameFieldsKeep(d: map<string, Value>, name: string, a: Account, platform: Option<string>,
                       extraUrl: Option<string>, k: string)
    requires k != "name" && k != "remark" && k != "platform" && k != "url"
    ensures Lookup(NameFields(d, name, a, platform, extraUrl), k) == Lookup(d, k)
  {
  }

  lemma CredentialsKeep(d: map<string, Value>, a: Account, secret: Option<string>, k: string)
    requires k != "userName" && k != "password" && k != "faSecretKey"
    ensures Lookup(Credentials(d, a, secret), k) == Lookup(d, k)
  {
  }

  lemma WithFingerprintKeep(d: map<string, Value>, fp: Value, k: string)
    requires k != FingerprintKey
    ensures Lookup(WithFingerprint(d, fp), k) == Lookup(d, k)
  {
  }

  lemma ProxyFieldsKeep(d: map<string, Value>, proxy: Option<Proxy>, k: string)
    requires k != "proxyType" && k != "proxyMethod" && k != "host" && k != "port"
    requires k != "proxyUserName" && k != "proxyPassword"
    ensures Lookup(ProxyFields(d, proxy), k) == Lookup(d, k)
  {
  }

  /** A field that neither the fingerprint nor the proxy step sets is as the account step left it. */
  lemma {:induction false} PayloadThrough(cfg: map<string, Value>, name: string, a: Account,
                      secret: Option<string>, platform: Option<string>,
                      extraUrl: Option<string>, proxy: Option<Proxy>, fp: Value, k: string)
    requires k != FingerprintKey && !ProxyKey(k)
    ensures Lookup(Payload(cfg, name, a, secret, platform, extraUrl, proxy, fp), k)
         == Lookup(Credentials(NameFields(Copied(cfg), name, a, platform, extraUrl), a, secret), k)
  {
    var d2 := Credentials(NameFields(Copied(cfg), name, a, platform, extraUrl), a, secret);
    WithFingerprintKeep(d2, fp, k);
    ProxyFieldsKeep(WithFingerprint(d2, fp), proxy, k);
  }

  // The helpers below take the field name as a parameter `k`, so that each is proved about one
  // field at a time.

  lemma {:induction false} SentUserName(cfg: map<string, Value>, name: string, a: Account,
                      secret: Option<string>, platform: Option<string>,
                      extraUrl: Option<string>, proxy: Option<Proxy>, fp: Value, k: string)
    requires k == "userName"
    ensures Lookup(Payload(cfg, name, a, secret, platform, extraUrl, proxy, fp), k)
         == (if a.email != "" then Some(Str(a.email)) else None)
  {
    NameFieldsKeep(Copied(cfg), name, a, platform, extraUrl, k);
    PayloadThrough(cfg, name, a, secret, platform, extraUrl, proxy, fp, k);
  }

  lemma {:induction false} SentPassword(cfg: map<string, Value>, name: string, a: Account,
                      secret: Option<string>, platform: Option<string>,
                      extraUrl: Option<string>, proxy: Option<Proxy>, fp: Value, k: string)
    requires k == "password"
    ensures Lookup(Payload(cfg, name, a, secret, platform, extraUrl, proxy, fp), k)
         == (if a.password != "" then Some(Str(a.password)) else None)
  {
    NameFieldsKeep(Copied(cfg), name, a, platform, extraUrl, k);
    PayloadThrough(cfg, name, a, secret, platform, extraUrl, proxy, fp, k);
  }

  lemma {:induction false} SentSecret(cfg: map<string, Value>, name: string, a: Account,
                      secret: Option<string>, platform: Option<string>,
                      extraUrl: Option<string>, proxy: Option<Proxy>, fp: Value, k: string)
    requires k == "faSecretKey"
    ensures Lookup(Payload(cfg, name, a, secret, platform, extraUrl, proxy, fp), k)
         == (if secret.Some? then Some(Str(secret.value)) else None)
  {
    NameFieldsKeep(Copied(cfg), name, a, platform, extraUrl, k);
    PayloadThrough(cfg, name, a, secret, platform, extraUrl, proxy, fp, k);
  }

  lemma {:induction false} SentName(cfg: map<string, Value>, name: string, a: Account,
                      secret: Option<string>, platform: Option<string>,
                      extraUrl: Option<string>, proxy: Option<Proxy>, fp: Value, k: string)
    requires k == "name"
    ensures Lookup(Payload(cfg, name, a, secret, platform, extraUrl, proxy, fp), k) == Some(Str(name))
  {
    CredentialsKeep(NameFields(Copied(cfg), name, a, platform, extraUrl), a, secret, k);
    PayloadThrough(cfg, name, a, secret, platform, extraUrl, proxy, fp, k);
  }

  lemma {:induction false} SentRemark(cfg: map<string, Value>, name: string, a: Account,
                      secret: Option<string>, platform: Option<string>,
                      extraUrl: Option<string>, proxy: Option<Proxy>, fp: Value, k: string)
    requires k == "remark"
    ensures Lookup(Payload(cfg, name, a, secret, platform, extraUrl, proxy, fp), k) == Some(Str(a.fullLine))
  {
    CredentialsKeep(NameFields(Copied(cfg), name, a, platform, extraUrl), a, secret, k);
    PayloadThrough(cfg, name, a, secret, platform, extraUrl, proxy, fp, k);
  }

  lemma {:induction false} SentPlatform(cfg: map<string, Value>, name: string, a: Account,
                      secret: Option<string>, platform: Option<string>,
                      extraUrl: Option<string>, proxy: Option<Proxy>, fp: Value, k: string)
    requires k == "platform"
    ensures Lookup(Payload(cfg, name, a, secret, platform, extraUrl, proxy, fp), k)
         == (if Given(platform) then Some(Str(platform.value)) else Lookup(cfg, k))
  {
    CopiedKeep(cfg, k);
    CredentialsKeep(NameFields(Copied(cfg), name, a, platform, extraUrl), a, secret, k);
    PayloadThrough(cfg, name, a, secret, platform, extraUrl, proxy, fp, k);
  }

  lemma {:induction false} SentUrl(cfg: map<string, Value>, name: string, a: Account,
                      secret: Option<string>, platform: Option<string>,
                      extraUrl: Option<string>, proxy: Option<Proxy>, fp: Value, k: string)
    requires k == "url"
    ensures Lookup(Payload(cfg, name, a, secret, platform, extraUrl, proxy, fp), k)
         == (if Given(extraUrl) then Some(Str(extraUrl.value)) else Lookup(cfg, k))
  {
    CopiedKeep(cfg, k);
    CredentialsKeep(NameFields(Copied(cfg), name, a, platform, extraUrl), a, secret, k);
    PayloadThrough(cfg, name, a, secret, platform, extraUrl, proxy, fp, k);
  }

  lemma {:induction false} SentFingerprint(cfg: map<string, Value>, name: string, a: Account,
                      secret: Option<string>, platform: Option<string>,
                      extraUrl: Option<string>, proxy: Option<Proxy>, fp: Value, k: string)
    requires k == FingerprintKey
    ensures Lookup(Payload(cfg, name, a, secret, platform, extraUrl, proxy, fp), k) == Some(if k in cfg then cfg[k] else fp)
  {
    var d1 := NameFields(Copied(cfg), name, a, platform, extraUrl);
    var d2 := Credentials(d1, a, secret);
    NameFieldsKeep(Copied(cfg), name, a, platform, extraUrl, k);
    CredentialsKeep(d1, a, secret, k);
    ProxyFieldsKeep(WithFingerprint(d2, fp), proxy, k);
  }

  lemma {:induction false} Omitted(cfg: map<string, Value>, name: string, a: Account,
                      secret: Option<string>, platform: Option<string>,
                      extraUrl: Option<string>, proxy: Option<Proxy>, fp: Value, k: string)
    requires k == "id" || k == "createTime" || k == "updateTime"
    ensures k !in Payload(cfg, name, a, secret, platform, extraUrl, proxy, fp)
  {
    var d0 := Copied(cfg);
    PayloadThrough(cfg, name, a, secret, platform, extraUrl, proxy, fp, k);
    NameFieldsKeep(d0, name, a, platform, extraUrl, k);
    CredentialsKeep(NameFields(d0, name, a, platform, extraUrl), a, secret, k);
  }

  /** The reference's id and timestamps are never sent. */
  lemma {:induction false} PayloadDrops(cfg: map<string, Value>, name: string, a: Account,
                      secret: Option<string>, platform: Option<string>,
                      extraUrl: Option<string>, proxy: Option<Proxy>, fp: Value)
    ensures var r := Payload(cfg, name, a, secret, platform, extraUrl, proxy, fp);
      "id" !in r && "createTime" !in r && "updateTime" !in r
  {
    Omitted(cfg, name, a, secret, platform, extraUrl, proxy, fp, "id");
    Omitted(cfg, name, a, secret, platform, extraUrl, proxy, fp, "createTime");
    Omitted(cfg, name, a, secret, platform, extraUrl, proxy, fp, "updateTime");
  }

  /**
   * The credentials are the account's when non-empty and absent otherwise: the reference's are
   * never inherited.
   */
  lemma {:induction false} PayloadCredentials(cfg: map<string, Value>, name: string, a: Account,
                      secret: Option<string>, platform: Option<string>,
                      extraUrl: Option<string>, proxy: Option<Proxy>, fp: Value)
    ensures var r := Payload(cfg, name, a, secret, platform, extraUrl, proxy, fp);
      && Lookup(r, "userName") == (if a.email != "" then Some(Str(a.email)) else None)
      && Lookup(r, "password") == (if a.password != "" then Some(Str(a.password)) else None)
      && Lookup(r, "faSecretKey") == (if secret.Some? then Some(Str(secret.value)) else None)
  {
    SentUserName(cfg, name, a, secret, platform, extraUrl, proxy, fp, "userName");
    SentPassword(cfg, name, a, secret, platform, extraUrl, proxy, fp, "password");
    SentSecret(cfg, name, a, secret, platform, extraUrl, proxy, fp, "faSecretKey");
  }

  /** The name and remark are set; platform and URL are the given ones, else the reference's. */
  lemma {:induction false} PayloadNaming(cfg: map<string, Value>, name: string, a: Account,
                      secret: Option<string>, platform: Option<string>,
                      extraUrl: Option<string>, proxy: Option<Proxy>, fp: Value)
    ensures var r := Payload(cfg, name, a, secret, platform, extraUrl, proxy, fp);
      && Lookup(r, "name") == Some(Str(name)) && Lookup(r, "remark") == Some(Str(a.fullLine))
      && Lookup(r, "platform")
           == (if Given(platform) then Some(Str(platform.value)) else Lookup(cfg, "platform"))
      && Lookup(r, "url") == (if Given(extraUrl) then Some(Str(extraUrl.value)) else Lookup(cfg, "url"))
  {
    SentName(cfg, name, a, secret, platform, extraUrl, proxy, fp, "name");
    SentRemark(cfg, name, a, secret, platform, extraUrl, proxy, fp, "remark");
    SentPlatform(cfg, name, a, secret, platform, extraUrl, proxy, fp, "platform");
    SentUrl(cfg, name, a, secret, platform, extraUrl, proxy, fp, "url");
  }

  /** The fingerprint entry is the reference's own value, or `fp` when it has none. */
  lemma {:induction false} PayloadFingerprint(cfg: map<string, Value>, name: string, a: Account,
                      secret: Option<string>, platform: Option<string>,
                      extraUrl: Option<string>, proxy: Option<Proxy>, fp: Value)
    ensures Lookup(Payload(cfg, name, a, secret, platform, extraUrl, proxy, fp), FingerprintKey)
         == Some(if FingerprintKey in cfg then cfg[FingerprintKey] else fp)
  {
    SentFingerprint(cfg, name, a, secret, platform, extraUrl, proxy, fp, FingerprintKey);
  }

  /** The proxy's settings, or the `noproxy` ones, always with method 2. */
  lemma PayloadProxy(cfg: map<string, Value>, name: string, a: Account,
                      secret: Option<string>, platform: Option<string>,
                      extraUrl: Option<string>, proxy: Option<Proxy>, fp: Value)
    ensures var r := Payload(cfg, name, a, secret, platform, extraUrl, proxy, fp);
      var p := proxy.GetOr(NoProxy);
      && Lookup(r, "proxyType") == Some(Str(p.kind)) && Lookup(r, "proxyMethod") == Some(Int(2))
      && Lookup(r, "host") == Some(Str(p.host)) && Lookup(r, "port") == Some(Str(p.port))
      && Lookup(r, "proxyUserName") == Some(Str(p.username))
      && Lookup(r, "proxyPassword") == Some(Str(p.password))
  {
  }

  /** Every field the payload does not set, and the reference does not withhold, is the reference's. */
  lemma {:induction false} PayloadCopies(cfg: map<string, Value>, name: string, a: Account,
                      secret: Option<string>, platform: Option<string>,
                      extraUrl: Option<string>, proxy: Option<Proxy>, fp: Value, k: string)
    requires !Excluded(k) && !Assigned(k)
    ensures Lookup(Payload(cfg, name, a, secret, platform, extraUrl, proxy, fp), k) == Lookup(cfg, k)
  {
    var d0 := Copied(cfg);
    PayloadThrough(cfg, name, a, secret, platform, extraUrl, proxy, fp, k);
    NameFieldsKeep(d0, name, a, platform, extraUrl, k);
    CredentialsKeep(NameFields(d0, name, a, platform, extraUrl), a, secret, k);
  }

  // ===========================================================================
  // The fingerprint

  /** The reference's fingerprint fields other than `id`, copied over the fields of `d`. */
  function Merge(d: map<string, Value>, src: map<string, Value>): (r: map<string, Value>)
    ensures r.Keys == d.Keys + (src.Keys - {"id"})
    ensures forall k :: k in src && k != "id" ==> r[k] == src[k]
    ensures forall k :: k in d && (k !in src || k == "id") ==> r[k] == d[k]
  {
    map k | k in d.Keys + (src.Keys - {"id"}) :: if k in src && k != "id" then src[k] else d[k]
  }

  /** Copying a fingerprint's fields onto the same fingerprint changes nothing. */
  lemma MergeSelf(d: map<string, Value>)
    ensures Merge(d, d) == d
  {
  }

  /** The version pinning: `coreVersion` and `version` both set to "140", nothing else touched. */
  function Pin(d: map<string, Value>): (r: map<string, Value>)
    ensures Lookup(r, "coreVersion") == Some(Str(CoreVersion)) && Lookup(r, "version") == Some(Str(CoreVersion))
    ensures forall k :: k != "coreVersion" && k != "version" ==> Lookup(r, k) == Lookup(d, k)
  {
    d["coreVersion" := Str(CoreVersion)]["version" := Str(CoreVersion)]
  }

  /** Pinning twice is pinning once, so a reference pinned by an earlier call yields the same payload. */
  lemma PinIdempotent(d: map<string, Value>)
    ensures Pin(Pin(d)) == Pin(d)
  {
  }

  /** The copy loop over the reference's fingerprint items, writing into `target`, in any order. */
  method CopyFingerprint(src: map<string, Value>, target: JsonObject)
    modifies target
    ensures target.entries == Merge(old(target.entries), src)
  {
    ghost var start := target.entries;
    var rest := src.Keys;
    while rest != {}
      invariant rest <= src.Keys
      invariant target.entries.Keys == start.Keys + (src.Keys - rest - {"id"})
      invariant forall k :: k in src && k !in rest && k != "id" ==> target.entries[k] == src[k]
      invariant forall k :: k in start && (k !in src || k in rest || k == "id") ==> target.entries[k] == start[k]
      decreases rest
    {
      var key :| key in rest;
      if key != "id" {
        target.entries := target.entries[key := src[key]];
      }
      rest := rest - {key};
    }
    assert target.entries == Merge(start, src);
  }

  // ===========================================================================
  // The create request

  /** The reply to `POST /browser/update`: an exception, or the decoded JSON body. */
  datatype CreateReply = Raised(exception: string) | Answered(body: Value)

  /** The objects the reply handling looks into. */
  function ReplyFrame(reply: CreateReply): set<object>
    reads if reply.Answered? && reply.body.Obj? then {reply.body.o} else {}
  {
    if reply.Answered? && reply.body.Obj? then
      var data := Lookup(reply.body.o.entries, "data");
      {reply.body.o} + (if data.Some? && data.value.Obj? then {data.value.o} else {})
    else {}
  }

  /** `not browser_id`, for an id that is not an object (an object id counts as given). */
  predicate Missing(id: Option<Value>) {
    match id
    case None => true
    case Some(Str(s)) => s == ""
    case Some(Int(i)) => i == 0
    case Some(Bool(b)) => !b
    case Some(Null) => true
    case Some(Obj(_)) => false
    case Some(Other(_, t)) => !t
  }

  /**
   * What the reply comes to. Every failure at this stage is caught and returned: a raised
   * request, a body or `data` that is not an object, a rejection with its `msg`, an id that is
   * missing or falsy. An accepted reply with a given id creates the window.
   */
  function ReplyOutcome(reply: CreateReply): (r: Outcome)
    reads ReplyFrame(reply)
    ensures !r.Crashed?
    ensures reply.Raised? ==> r == Failed(RequestFailed(reply.exception))
    ensures r.Created? <==>
      && reply.Answered? && reply.body.Obj? && Accepted(reply.body.o.entries)
      && var data := Lookup(reply.body.o.entries, "data");
         data.Some? && data.value.Obj? && !Missing(Lookup(data.value.o.entries, "id"))
    ensures r.Created? ==> Some(r.id) == Lookup(Lookup(reply.body.o.entries, "data").value.o.entries, "id")
    ensures r.Failed? && r.error.Rejected? ==> reply.Answered? && reply.body.Obj? && !Accepted(reply.body.o.entries)
  {
    match reply
    case Raised(e) => Failed(RequestFailed(e))
    case Answered(body) =>
      if !body.Obj? then Failed(RequestFailed(NoGet(body)))
      else
        var res := body.o.entries;
        if !Accepted(res) then Failed(Rejected(Lookup(res, "msg").GetOr(Str("未知API错误"))))
        else
          match Lookup(res, "data")
          case None => Failed(NoId)
          case Some(data) =>
            if !data.Obj? then Failed(RequestFailed(NoGet(data)))
            else
              var id := Lookup(data.o.entries, "id");
              if Missing(id) then Failed(NoId) else Created(id.value)
  }

  /** A reply whose `code` is the float `0.0` is accepted, since `0.0 == 0` in Python. */
  lemma FloatZeroAccepted(body: JsonObject, data: JsonObject, id: string)
    requires id != ""
    requires body.entries == map["code" := Other("float", false), "data" := Obj(data)]
    requires data.entries == map["id" := Str(id)]
    ensures ReplyOutcome(Answered(Obj(body))) == Created(Str(id))
  {
    assert Lookup(body.entries, "code") == Some(Other("float", false));
    assert Lookup(data.entries, "id") == Some(Str(id));
  }

  // ===========================================================================
  // create_browser_window

  /** The fingerprint object of a configuration, when its `browserFingerPrint` is a `dict`. */
  function FingerprintOf(d: map<string, Value>): Option<JsonObject> {
    if FingerprintKey in d && d[FingerprintKey].Obj? then Some(d[FingerprintKey].o) else None
  }

  /** The fingerprint object of `entries`, as a frame: the one object a call may change. */
  function FingerprintFrame(d: map<string, Value>): set<JsonObject> {
    if FingerprintOf(d).Some? then {FingerprintOf(d).value} else {}
  }

  /** How far the call gets before the request: stopped with an outcome, or ready with the window's name. */
  datatype Prepared = Stopped(outcome: Outcome) | Ready(name: string)

  /**
   * The steps before the duplicate check, over the chosen reference's fields `entries` and the
   * listed names: a refused reference ends the call; without a given prefix, a reference name
   * that is not a string makes the `'_' in` test raise; a listed name that is not a string makes
   * `startswith` raise; a fingerprint entry that is not a `dict` makes the version pinning raise.
   * Otherwise the window is named after the prefix with the next free number.
   */
  function Prepare(choice: Choice, entries: map<string, Value>, namePrefix: Option<string>,
                   names: Option<seq<string>>): (r: Prepared)
    ensures choice.Refused? ==> r == Stopped(Failed(choice.error))
    ensures r.Ready? ==> choice.Chosen? && names.Some? && r.name !in names.value
    ensures r.Ready? && Given(namePrefix) ==> Suffix(r.name, namePrefix.value).Some?
    ensures r.Stopped? ==> r.outcome.Failed? || r.outcome.Crashed?
  {
    var refName := Lookup(entries, "name").GetOr(Str(""));
    if choice.Refused? then Stopped(Failed(choice.error))
    else if !Given(namePrefix) && !refName.Str? then Stopped(Crashed("TypeError"))
    else if names.None? then Stopped(Crashed("AttributeError"))
    else if FingerprintKey in entries && !entries[FingerprintKey].Obj? then Stopped(Crashed("TypeError"))
    else
      var prefix := InferPrefix(namePrefix, if refName.Str? then refName.s else "");
      NextNameFresh(prefix, names.value);
      Ready(NextName(prefix, names.value))
  }

  /** Chosen reference's fields, or none when the reference was refused. */
  function ChosenEntries(choice: Choice): map<string, Value>
    reads if choice.Chosen? then {choice.cfg} else {}
  {
    if choice.Chosen? then choice.cfg.entries else map[]
  }

  /**
   * The steps of `create_browser_window` before the payload: choosing the reference and naming
   * the window after the listed names.
   */
  method PrepareWindow(template: Option<JsonObject>, referenceId: Option<string>, namePrefix: Option<string>,
                       browsers: seq<JsonObject>) returns (choice: Choice, prep: Prepared)
    ensures choice == Reference(template, referenceId, browsers)
    ensures prep == Prepare(choice, ChosenEntries(choice), namePrefix, NamesOf(browsers))
  {
    choice := ChooseReference(template, referenceId, browsers);
    var names := NamesOf(browsers);
    if choice.Refused? {
      return choice, Stopped(Failed(choice.error));
    }
    var entries := choice.cfg.entries;
    var refName := Lookup(entries, "name").GetOr(Str(""));
    if !Given(namePrefix) && !refName.Str? {
      return choice, Stopped(Crashed("TypeError"));
    }
    if names.None? {
      return choice, Stopped(Crashed("AttributeError"));
    }
    if FingerprintKey in entries && !entries[FingerprintKey].Obj? {
      return choice, Stopped(Crashed("TypeError"));
    }
    var prefix := InferPrefix(namePrefix, if refName.Str? then refName.s else "");
    var name := NextWindowName(prefix, names.value);
    prep := Ready(name);
  }

  /** The copy keeps the reference's fingerprint entry through the naming and the credentials. */
  lemma {:induction false} FieldsKeepFingerprint(cfg: map<string, Value>, name: string, a: Account, secret: Option<string>,
                                                 platform: Option<string>, extraUrl: Option<string>, k: string)
    requires k == FingerprintKey
    ensures Lookup(Credentials(NameFields(Copied(cfg), name, a, platform, extraUrl), a, secret), k) == Lookup(cfg, k)
  {
    CopiedKeep(cfg, k);
    NameFieldsKeep(Copied(cfg), name, a, platform, extraUrl, k);
    CredentialsKeep(NameFields(Copied(cfg), name, a, platform, extraUrl), a, secret, k);
  }

  /** The copy of the reference's fields with the window's name and the account's credentials. */
  method AccountFields(entries: map<string, Value>, name: string, account: Account, platform: Option<string>,
                       extraUrl: Option<string>) returns (fields: map<string, Value>)
    ensures fields == Credentials(NameFields(Copied(entries), name, account, platform, extraUrl), account, Secret(account))
    ensures Lookup(fields, FingerprintKey) == Lookup(entries, FingerprintKey)
  {
    fields := CopyFields(entries);
    fields := NameFields(fields, name, account, platform, extraUrl);
    fields := Credentials(fields, account, Secret(account));
    FieldsKeepFingerprint(entries, name, account, Secret(account), platform, extraUrl, FingerprintKey);
  }

  /**
   * The fingerprint step: a fresh `dict` when `d` has no fingerprint, else the existing one
   * (`current`) with its own items copied onto it; either way, its versions are then pinned.
   */
  method AttachFingerprint(d: map<string, Value>, current: Option<Value>) returns (json: map<string, Value>, fp: JsonObject)
    requires Lookup(d, FingerprintKey) == current
    requires current.Some? ==> current.value.Obj?
    modifies if current.Some? then {current.value.o} else {}
    ensures json == WithFingerprint(d, Obj(fp))
    ensures current.Some? ==> fp == current.value.o && fp.entries == Pin(old(fp.entries))
    ensures current.None? ==> fresh(fp) && fp.entries == Pin(map[])
  {
    if FingerprintKey in d {
      fp := d[FingerprintKey].o;
      json := d;
      MergeSelf(fp.entries);
      CopyFingerprint(fp.entries, fp);
    } else {
      fp := new JsonObject(map[]);
      json := d[FingerprintKey := Obj(fp)];
    }
    fp.entries := Pin(fp.entries);
  }

  /**
   * Building `json_data` from the reference's fields: the copy, the naming and the credentials,
   * then the fingerprint `dict` (the reference's own one, which the copy shares, or a fresh one),
   * then the proxy.
   */
  method BuildPayload(entries: map<string, Value>, name: string, account: Account, platform: Option<string>,
                      extraUrl: Option<string>, proxy: Option<Proxy>) returns (json: map<string, Value>, fp: JsonObject)
    requires FingerprintKey in entries ==> entries[FingerprintKey].Obj?
    modifies FingerprintFrame(entries)
    ensures json == Payload(entries, name, account, Secret(account), platform, extraUrl, proxy, Obj(fp))
    ensures FingerprintKey in json && json[FingerprintKey] == Obj(fp)
    ensures FingerprintOf(entries).Some? ==> fp == FingerprintOf(entries).value && fp.entries == Pin(old(fp.entries))
    ensures FingerprintOf(entries).None? ==> fresh(fp) && fp.entries == Pin(map[])
  {
    var fields := AccountFields(entries, name, account, platform, extraUrl);
    var withFp;
    withFp, fp := AttachFingerprint(fields, Lookup(entries, FingerprintKey));
    json := ProxyFields(withFp, proxy);
    ProxyFieldsKeep(withFp, proxy, FingerprintKey);
    var named := NameFields(Copied(entries), name, account, platform, extraUrl);
    assert json == ProxyFields(WithFingerprint(Credentials(named, account, Secret(account)), Obj(fp)), proxy);
  }

  /** The fingerprint object a call may change: the chosen reference's one. */
  function ReferenceFrame(template: Option<JsonObject>, referenceId: Option<string>, ws: seq<JsonObject>): set<JsonObject>
    reads ws, TemplateFrame(template)
  {
    var choice := Reference(template, referenceId, ws);
    if choice.Chosen? then FingerprintFrame(choice.cfg.entries) else {}
  }

  /**
   * `create_browser_window` up to and including the create request: `browsers` is the window
   * list every lookup sees, `reply` the answer to the request, `sent` the payload posted, if any.
   * The only object changed is the fingerprint `dict` of the new window: the reference's own one,
   * so the reference's versions are pinned too, or a fresh one when the reference has none.
   */
  method CreateBrowserWindow(account: Account, referenceId: Option<string>, proxy: Option<Proxy>,
                             platform: Option<string>, extraUrl: Option<string>, namePrefix: Option<string>,
                             template: Option<JsonObject>, browsers: seq<JsonObject>, reply: CreateReply)
    returns (outcome: Outcome, sent: Option<map<string, Value>>)
    modifies ReferenceFrame(template, referenceId, browsers)
    ensures var choice := old(Reference(template, referenceId, browsers));
      var entries := old(ChosenEntries(choice));
      var prep := Prepare(choice, entries, namePrefix, old(NamesOf(browsers)));
      && (prep.Stopped? ==> outcome == prep.outcome && sent.None?)
      && (prep.Ready? ==>
            var dup := FirstWith(browsers, "userName", Str(account.email));
            && (dup.Some? ==>
                  && sent.None?
                  && outcome == Failed(Duplicate(Lookup(browsers[dup.value].entries, "name"),
                                                 Lookup(browsers[dup.value].entries, "id"))))
            && (dup.None? ==>
                  && outcome == ReplyOutcome(reply)
                  && sent.Some? && FingerprintKey in sent.value
                  && sent.value == Payload(entries, prep.name, account, Secret(account), platform, extraUrl, proxy,
                                           sent.value[FingerprintKey])))
    ensures var choice := old(Reference(template, referenceId, browsers));
      var entries := old(ChosenEntries(choice));
      var prep := Prepare(choice, entries, namePrefix, old(NamesOf(browsers)));
      && (prep.Ready? && FingerprintOf(entries).Some? ==>
            FingerprintOf(entries).value.entries == Pin(old(FingerprintOf(entries).value.entries)))
      && (sent.Some? && FingerprintKey !in entries ==>
            sent.value[FingerprintKey].Obj? && fresh(sent.value[FingerprintKey].o)
            && sent.value[FingerprintKey].o.entries == Pin(map[]))
  {
    var choice, prep := PrepareWindow(template, referenceId, namePrefix, browsers);
    if prep.Stopped? {
      return prep.outcome, None;
    }
    var entries := choice.cfg.entries;
    var json, fp := BuildPayload(entries, prep.name, account, platform, extraUrl, proxy);
    var dup := FindWindow(browsers, "userName", Str(account.email));
    if dup.Some? {
      var w := browsers[dup.value];
      return Failed(Duplicate(Lookup(w.entries, "name"), Lookup(w.entries, "id"))), None;
    }
    sent := Some(json);
    outcome := ReplyOutcome(reply);
  }
}
