/**
 * The monitoring-client adapter: where the access token and the session-replay
 * preference come from, the configuration the lazily built singleton client
 * is given, the session-replay start and stop switches, and the flattening of
 * the SDK's `(err, data)` callback into a `{uuid, status}` result.
 *
 * The SDK itself is foreign: the model records which SDK operations were called
 * (`sdkCalls`) and takes the SDK's callback arguments as input (`SdkResult`).
 */
module RollbarClient {
  import opened Wrappers
  import opened JsBuiltins
  import opened Browser

  /** The `localStorage` key holding the client access token. */
  const TokenKey := "rollbar_client_token"
  /** The `localStorage` key holding the session-replay preference. */
  const ReplayKey := "rollbar_session_replay_enabled"

  /** The build-time values `NEXT_PUBLIC_ROLLBAR_CLIENT_TOKEN` and `NEXT_PUBLIC_ROLLBAR_ENV`. */
  datatype BuildEnv = BuildEnv(clientToken: Option<string>, rollbarEnv: Option<string>)

  /** The log levels the SDK has a method for (`rollbar[level]`). */
  const SdkLevels: set<string> := {"debug", "info", "warning", "error", "critical"}

  // ---------------------------------------------------------------------
  // Credential and preference resolution

  /**
   * `getAccessToken()`: a stored token that is not empty wins; otherwise the
   * build-time token, which may itself be absent or empty.
   */
  function GetAccessToken(hasWindow: bool, storage: map<string, string>, env: BuildEnv): (r: Option<string>)
    ensures hasWindow && TokenKey in storage && storage[TokenKey] != "" ==> r == Some(storage[TokenKey])
    ensures !(hasWindow && TokenKey in storage && storage[TokenKey] != "") ==> r == env.clientToken
  {
    if hasWindow && TokenKey in storage && Truthy(Some(storage[TokenKey])) then Some(storage[TokenKey])
    else env.clientToken
  }

  /** `shouldEnableReplay()`: the stored preference is exactly the string "true". */
  function ShouldEnableReplay(hasWindow: bool, storage: map<string, string>): (r: bool)
    ensures !hasWindow ==> !r
    ensures hasWindow ==> (r <==> ReplayKey in storage && storage[ReplayKey] == "true")
  {
    if !hasWindow then false
    else ReplayKey in storage && storage[ReplayKey] == "true"
  }

  // ---------------------------------------------------------------------
  // The client configuration, frozen at construction

  datatype ReplayConfig = ReplayConfig(enabled: bool, autoStart: bool)

  datatype Config = Config(
    accessToken: Option<string>,
    environment: string,
    captureUncaught: bool,
    captureUnhandledRejections: bool,
    enabled: bool,
    replay: ReplayConfig,
    codeVersion: string,
    sourceMapEnabled: bool)

  /** The configuration `getRollbar()` builds from the current storage and build values. */
  function ConfigFor(hasWindow: bool, storage: map<string, string>, env: BuildEnv): (c: Config)
    ensures c.accessToken == GetAccessToken(hasWindow, storage, env)
    ensures c.enabled <==> (hasWindow && TokenKey in storage && storage[TokenKey] != "")
                           || (env.clientToken.Some? && env.clientToken.value != "")
    ensures !c.captureUncaught && !c.captureUnhandledRejections
    ensures c.replay.enabled
    ensures c.replay.autoStart <==> hasWindow && ReplayKey in storage && storage[ReplayKey] == "true"
    ensures Truthy(env.rollbarEnv) ==> c.environment == env.rollbarEnv.value
    ensures !Truthy(env.rollbarEnv) ==> c.environment == "development"
    ensures c.codeVersion == "1.0.0" && !c.sourceMapEnabled
  {
    var token := GetAccessToken(hasWindow, storage, env);
    Config(
      accessToken := token,
      environment := Or(env.rollbarEnv, Some("development")).value,
      captureUncaught := false,
      captureUnhandledRejections := false,
      enabled := Truthy(token),
      replay := ReplayConfig(enabled := true, autoStart := ShouldEnableReplay(hasWindow, storage)),
      codeVersion := "1.0.0",
      sourceMapEnabled := false)
  }

  /** A constructed client: its frozen configuration and which construction produced it. */
  datatype Handle = Handle(config: Config, serial: nat)

  // ---------------------------------------------------------------------
  // The SDK boundary

  /** What is handed to the SDK: a message string or an `Error` object. */
  datatype Payload = Message(text: string) | ErrorObject(message: string)

  /** One call into the SDK. */
  datatype SdkCall =
    | Send(operation: string, payload: Payload)  // rollbar[operation](payload, callback)
    | TriggerDirectReplay(tags: seq<string>)     // rollbar.triggerDirectReplay({tags})

  /** The truthy `err` argument of the SDK callback. */
  datatype SdkError = SdkError(status: Option<int>, statusCode: Option<int>)

  /** `data.result` of the SDK callback. */
  datatype ItemResult = ItemResult(uuid: Option<string>)

  /** The `data` argument of the SDK callback; every field may be missing. */
  datatype ResponseData = ResponseData(
    err: Option<int>,
    status: Option<int>,
    statusCode: Option<int>,
    result: Option<ItemResult>,
    uuid: Option<string>)

  /** The SDK callback's arguments: a truthy `err`, or a falsy one with `data` (possibly missing). */
  datatype SdkResult = Failed(error: SdkError) | Completed(data: Option<ResponseData>)

  /** What `sendLog` and `sendException` resolve with. */
  datatype SendResult = SendResult(uuid: Option<string>, status: int)

  /** `data?.result?.uuid` */
  function NestedUuid(d: Option<ResponseData>): Option<string> {
    if d.Some? && d.value.result.Some? then d.value.result.value.uuid else None
  }

  /** `data?.uuid` */
  function TopUuid(d: Option<ResponseData>): Option<string> {
    if d.Some? then d.value.uuid else None
  }

  /**
   * The callback shared by `sendLog` and `sendException`. An SDK error gives
   * no uuid and the first truthy one of the error's two status fields, else
   * 500. A completed call takes the first non-empty uuid of the nested result
   * and of the data itself, and its status is 200 when the data reports zero
   * errors; otherwise the first truthy status field, else 202. The lemmas
   * below state each chain.
   */
  function Normalise(outcome: SdkResult): (r: SendResult)
    ensures r.status != 0
    ensures r.uuid.Some? ==> r.uuid.value != ""
    ensures outcome.Failed? ==> r.uuid.None?
    ensures r.uuid.Some? ==> r.uuid == NestedUuid(outcome.data) || r.uuid == TopUuid(outcome.data)
  {
    match outcome
    case Failed(e) =>
      SendResult(None, OrNum(e.status, OrNum(e.statusCode, 500)))
    case Completed(d) =>
      var id := Or(NestedUuid(d), TopUuid(d));
      var status :=
        if d.Some? && d.value.err == Some(0) then 200
        else OrNum(if d.Some? then d.value.status else None,
                   OrNum(if d.Some? then d.value.statusCode else None, 202));
      SendResult(if Truthy(id) then id else None, status)
  }

  /** On success the nested `result.uuid` wins; the top-level `uuid` is the fallback; else null. */
  lemma UuidChain(d: Option<ResponseData>)
    ensures Truthy(NestedUuid(d)) ==> Normalise(Completed(d)).uuid == NestedUuid(d)
    ensures !Truthy(NestedUuid(d)) && Truthy(TopUuid(d)) ==> Normalise(Completed(d)).uuid == TopUuid(d)
    ensures !Truthy(NestedUuid(d)) && !Truthy(TopUuid(d)) ==> Normalise(Completed(d)).uuid == None
  {
  }

  /** On success: 200 when `err === 0`, else a truthy `status`, else a truthy `statusCode`, else 202. */
  lemma SuccessStatusChain(d: ResponseData)
    ensures d.err == Some(0) ==> Normalise(Completed(Some(d))).status == 200
    ensures d.err != Some(0) && TruthyNum(d.status) ==> Normalise(Completed(Some(d))).status == d.status.value
    ensures d.err != Some(0) && !TruthyNum(d.status) && TruthyNum(d.statusCode) ==>
              Normalise(Completed(Some(d))).status == d.statusCode.value
    ensures d.err != Some(0) && !TruthyNum(d.status) && !TruthyNum(d.statusCode) ==>
              Normalise(Completed(Some(d))).status == 202
  {
  }

  /** On error: no uuid, and `err.status || err.statusCode || 500`. */
  lemma ErrorStatusChain(e: SdkError)
    ensures Normalise(Failed(e)).uuid == None
    ensures TruthyNum(e.status) ==> Normalise(Failed(e)).status == e.status.value
    ensures !TruthyNum(e.status) && TruthyNum(e.statusCode) ==> Normalise(Failed(e)).status == e.statusCode.value
    ensures !TruthyNum(e.status) && !TruthyNum(e.statusCode) ==> Normalise(Failed(e)).status == 500
  {
  }

  /** A response with no `data` at all still resolves: no uuid, status 202. */
  lemma MissingDataResolves()
    ensures Normalise(Completed(None)) == SendResult(None, 202)
  {
  }

  // ---------------------------------------------------------------------
  // The module-level singleton

  /**
   * The state `lib/rollbarClient.js` keeps at module level: `rollbarInstance`,
   * plus a count of constructions and a log of the SDK calls made. Whether the
   * loaded SDK exposes `triggerDirectReplay` is fixed per build.
   */
  class Adapter {
    const env: BuildEnv
    const sdkHasDirectReplay: bool
    var instance: Option<Handle>
    var constructions: nat
    var sdkCalls: seq<SdkCall>

    /** Every live handle came from an earlier construction. */
    ghost predicate Valid()
      reads this
    {
      instance.Some? ==> instance.value.serial < constructions
    }

    constructor (env: BuildEnv, sdkHasDirectReplay: bool)
      ensures Valid()
      ensures this.env == env && this.sdkHasDirectReplay == sdkHasDirectReplay
      ensures instance == None && constructions == 0 && sdkCalls == []
    {
      this.env := env;
      this.sdkHasDirectReplay := sdkHasDirectReplay;
      instance := None;
      constructions := 0;
      sdkCalls := [];
    }

    /**
     * `getRollbar()`: an existing instance is returned as it is, whatever the
     * storage now says; otherwise one is built from the current token and
     * preference and kept.
     */
    method GetRollbar(page: Page) returns (h: Handle)
      requires Valid()
      modifies this
      ensures Valid()
      ensures instance == Some(h) && sdkCalls == old(sdkCalls)
      ensures old(instance).Some? ==> h == old(instance).value && constructions == old(constructions)
      ensures old(instance).None? ==>
                && h == Handle(ConfigFor(page.hasWindow, page.storage, env), old(constructions))
                && constructions == old(constructions) + 1
    {
      if instance.Some? {
        return instance.value;
      }
      h := Handle(ConfigFor(page.hasWindow, page.storage, env), constructions);
      constructions := constructions + 1;
      instance := Some(h);
    }

    /**
     * `startSessionReplay()`: outside a browser nothing happens. Otherwise the
     * preference "true" is stored first, the client is obtained, and then
     * either a direct replay is triggered or, without that capability, a
     * reload is requested.
     */
    method StartSessionReplay(page: Page) returns (h: Option<Handle>)
      requires Valid()
      modifies this, page
      ensures Valid()
      ensures !page.hasWindow ==> h == None && unchanged(this) && unchanged(page)
      ensures page.hasWindow ==>
                && page.storage == old(page.storage)[ReplayKey := "true"]
                && page.timers == old(page.timers)
                && h.Some? && instance == h
                && (old(instance).Some? ==> h == old(instance) && constructions == old(constructions))
                && (old(instance).None? ==>
                      && h == Some(Handle(ConfigFor(true, old(page.storage)[ReplayKey := "true"], env), old(constructions)))
                      && h.value.config.replay.autoStart
                      && constructions == old(constructions) + 1)
      ensures page.hasWindow && sdkHasDirectReplay ==>
                sdkCalls == old(sdkCalls) + [TriggerDirectReplay(["manual-start"])]
                && page.reloadRequested == old(page.reloadRequested)
      ensures page.hasWindow && !sdkHasDirectReplay ==>
                sdkCalls == old(sdkCalls) && page.reloadRequested
    {
      if !page.hasWindow {
        return None;
      }
      page.SetItem(ReplayKey, "true");
      var rollbar := GetRollbar(page);
      if sdkHasDirectReplay {
        sdkCalls := sdkCalls + [TriggerDirectReplay(["manual-start"])];
      } else {
        page.Reload();
      }
      h := Some(rollbar);
    }

    /**
     * `stopSessionReplay()`: outside a browser nothing happens. Otherwise the
     * preference "false" is stored and a reload is always requested; the client
     * is not touched, and a client need not exist.
     */
    method StopSessionReplay(page: Page)
      modifies page
      ensures !page.hasWindow ==> unchanged(page)
      ensures page.hasWindow ==>
                page.storage == old(page.storage)[ReplayKey := "false"]
                && page.reloadRequested && page.timers == old(page.timers)
    {
      if !page.hasWindow {
        return;
      }
      page.SetItem(ReplayKey, "false");
      page.Reload();
    }

    /**
     * The dispatching half of `sendLog(level, message)`: the client is obtained
     * and `rollbar[level](message, callback)` is called. The callback half is `Normalise`.
     */
    method SendLog(page: Page, level: string, message: string)
      requires Valid()
      requires level in SdkLevels
      modifies this
      ensures Valid()
      ensures sdkCalls == old(sdkCalls) + [Send(level, Message(message))]
      ensures instance.Some?
      ensures old(instance).Some? ==> instance == old(instance) && constructions == old(constructions)
      ensures old(instance).None? ==>
                && instance == Some(Handle(ConfigFor(page.hasWindow, page.storage, env), old(constructions)))
                && constructions == old(constructions) + 1
    {
      var rollbar := GetRollbar(page);
      sdkCalls := sdkCalls + [Send(level, Message(message))];
    }

    /**
     * The dispatching half of `sendException(error)`: the client is obtained
     * and `rollbar.error(error, callback)` is called. The callback half is `Normalise`.
     */
    method SendException(page: Page, errorMessage: string)
      requires Valid()
      modifies this
      ensures Valid()
      ensures sdkCalls == old(sdkCalls) + [Send("error", ErrorObject(errorMessage))]
      ensures instance.Some?
      ensures old(instance).Some? ==> instance == old(instance) && constructions == old(constructions)
      ensures old(instance).None? ==>
                && instance == Some(Handle(ConfigFor(page.hasWindow, page.storage, env), old(constructions)))
                && constructions == old(constructions) + 1
    {
      var rollbar := GetRollbar(page);
      sdkCalls := sdkCalls + [Send("error", ErrorObject(errorMessage))];
    }

    /**
     * What a page reload does to this module: `rollbarInstance` starts out
     * null again, so the next `getRollbar()` reads the storage afresh.
     */
    method Reset()
      modifies this
      ensures Valid()
      ensures instance == None
      ensures constructions == old(constructions) && sdkCalls == old(sdkCalls)
    {
      instance := None;
    }
  }

  /**
   * The reload cycle: after start or stop, a reset followed by `getRollbar()`
   * builds a client whose `autoStart` is the preference just stored.
   */
  method ReplayTakesEffectAfterReload(client: Adapter, page: Page, turnOn: bool) returns (h: Handle)
    requires client.Valid() && page.hasWindow
    modifies client, page
    ensures h.config.replay.autoStart == turnOn
    ensures h.serial == client.constructions - 1
  {
    if turnOn {
      var _ := client.StartSessionReplay(page);
    } else {
      client.StopSessionReplay(page);
    }
    client.Reset();
    h := client.GetRollbar(page);
  }
}
