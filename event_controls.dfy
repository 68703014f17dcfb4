/**
 * The main control panel: the send buttons, the busy flag and token guard in
 * front of them, the history that completed sends are prepended to, and the
 * session-replay toggle. The asynchronous handlers are split at their `await`:
 * `HandleSendLog`/`HandleSendException` run up to the SDK call, and
 * `CompleteSend` runs what follows once the promise settles.
 */
module EventControls {
  import opened Wrappers
  import opened JsBuiltins
  import opened Browser
  import opened RollbarClient
  import opened EventSlideout
  import opened Time

  /** The notice shown when a send or toggle finds no token. */
  const TokenWarning := "Please configure your Rollbar token in Settings first"
  /** How long the notice stays, in milliseconds. */
  const WarningMs := 3000
  /** The message of the `Error` that "Send exception" reports. */
  const ExceptionMessage := "Test exception from demo app"

  /** `hasToken()`: `!!(localToken || envToken)`, read straight from storage and the build. */
  function HasToken(storage: map<string, string>, env: BuildEnv): (b: bool)
    ensures b <==> (TokenKey in storage && storage[TokenKey] != "")
                   || (env.clientToken.Some? && env.clientToken.value != "")
  {
    Truthy(Or(if TokenKey in storage then Some(storage[TokenKey]) else None, env.clientToken))
  }

  /** In the browser, `hasToken()` agrees with `!!getAccessToken()`. */
  lemma HasTokenMatchesResolution(storage: map<string, string>, env: BuildEnv)
    ensures HasToken(storage, env) <==> Truthy(GetAccessToken(true, storage, env))
  {
  }

  /** The message of a log send: the level capitalised, then " message from demo app". */
  function LogMessage(level: string): (m: string)
    ensures |m| == |level| + |" message from demo app"|
    ensures m[|level|..] == " message from demo app"
    ensures level != "" ==> m[0] == ToUpperAscii(level[0]) && m[1..|level|] == level[1..]
  {
    Capitalize(level) + " message from demo app"
  }

  /** The message of the "Send info" button. */
  lemma InfoButtonMessage()
    ensures LogMessage("info") == "Info message from demo app"
  {
  }

  /** Which handler started the send in flight. */
  datatype SendKind = LogSend(level: string) | ExceptionSend

  /** How the awaited promise settled: with the SDK callback's arguments, or by throwing. */
  datatype Completion = Resolved(outcome: SdkResult) | Threw

  /** The level recorded for a send. */
  function KindLevel(kind: SendKind): string {
    match kind
    case LogSend(level) => level
    case ExceptionSend => "exception"
  }

  class Controls {
    const page: Page
    const client: Adapter
    var events: seq<Event>
    var isSlideoutOpen: bool
    var isSending: bool
    var error: Option<string>
    var isSessionReplayActive: bool
    /** The send awaited between a handler and its completion. */
    var inFlight: Option<SendKind>

    /** The busy flag is up exactly while a send is awaited. */
    ghost predicate Valid()
      reads this, client
    {
      (isSending <==> inFlight.Some?) && client.Valid()
    }

    /** The initial state: no events, not sending, no notice, replay as last stored. */
    constructor (page: Page, client: Adapter)
      requires client.Valid()
      ensures Valid()
      ensures this.page == page && this.client == client
      ensures events == [] && !isSlideoutOpen && !isSending && error == None && inFlight == None
      ensures isSessionReplayActive <==>
                page.hasWindow && ReplayKey in page.storage && page.storage[ReplayKey] == "true"
    {
      this.page := page;
      this.client := client;
      events := [];
      isSlideoutOpen := false;
      isSending := false;
      error := None;
      isSessionReplayActive := page.hasWindow && page.GetItem(ReplayKey) == Some("true");
      inFlight := None;
    }

    /** The guard's failure: the notice is shown and its removal scheduled. */
    method Warn()
      modifies this, page
      ensures error == Some(TokenWarning)
      ensures page.timers == old(page.timers) + [Timer(WarningMs, ClearError)]
      ensures page.storage == old(page.storage) && page.reloadRequested == old(page.reloadRequested)
      ensures events == old(events) && isSending == old(isSending) && inFlight == old(inFlight)
      ensures isSessionReplayActive == old(isSessionReplayActive) && isSlideoutOpen == old(isSlideoutOpen)
    {
      error := Some(TokenWarning);
      page.SetTimeout(WarningMs, ClearError);
    }

    /** The scheduled `setError(null)`. */
    method ExpireWarning()
      modifies this
      ensures error == None
      ensures events == old(events) && isSending == old(isSending) && inFlight == old(inFlight)
      ensures isSessionReplayActive == old(isSessionReplayActive) && isSlideoutOpen == old(isSlideoutOpen)
    {
      error := None;
    }

    /**
     * `handleSendLog(level)` up to its `await`: ignored while busy; without a
     * token, the notice and nothing else; otherwise busy, and the SDK is called
     * with the capitalised message.
     */
    method HandleSendLog(level: string) returns (sent: bool)
      requires Valid()
      requires level in SdkLevels
      modifies this, page, client
      ensures Valid()
      ensures sent <==> !old(isSending) && HasToken(old(page.storage), client.env)
      ensures old(isSending) ==> unchanged(this) && unchanged(page) && unchanged(client)
      ensures !old(isSending) && !sent ==>
                && error == Some(TokenWarning)
                && page.timers == old(page.timers) + [Timer(WarningMs, ClearError)]
                && page.storage == old(page.storage) && page.reloadRequested == old(page.reloadRequested)
                && events == old(events) && !isSending && inFlight == None
                && isSessionReplayActive == old(isSessionReplayActive)
                && isSlideoutOpen == old(isSlideoutOpen)
                && unchanged(client)
      ensures sent ==>
                && isSending && inFlight == Some(LogSend(level))
                && events == old(events) && error == old(error)
                && isSessionReplayActive == old(isSessionReplayActive)
                && isSlideoutOpen == old(isSlideoutOpen)
                && unchanged(page)
                && client.sdkCalls == old(client.sdkCalls) + [Send(level, Message(LogMessage(level)))]
                && (old(client.instance).Some? ==>
                      client.instance == old(client.instance) && client.constructions == old(client.constructions))
                && (old(client.instance).None? ==>
                      && client.instance == Some(Handle(ConfigFor(page.hasWindow, page.storage, client.env),
                                                        old(client.constructions)))
                      && client.constructions == old(client.constructions) + 1)
    {
      if isSending {
        return false;
      }
      if !HasToken(page.storage, client.env) {
        Warn();
        return false;
      }
      isSending := true;
      inFlight := Some(LogSend(level));
      client.SendLog(page, level, LogMessage(level));
      sent := true;
    }

    /** `handleSendException()` up to its `await`, guarded like `HandleSendLog`. */
    method HandleSendException() returns (sent: bool)
      requires Valid()
      modifies this, page, client
      ensures Valid()
      ensures sent <==> !old(isSending) && HasToken(old(page.storage), client.env)
      ensures old(isSending) ==> unchanged(this) && unchanged(page) && unchanged(client)
      ensures !old(isSending) && !sent ==>
                && error == Some(TokenWarning)
                && page.timers == old(page.timers) + [Timer(WarningMs, ClearError)]
                && page.storage == old(page.storage) && page.reloadRequested == old(page.reloadRequested)
                && events == old(events) && !isSending && inFlight == None
                && isSessionReplayActive == old(isSessionReplayActive)
                && isSlideoutOpen == old(isSlideoutOpen)
                && unchanged(client)
      ensures sent ==>
                && isSending && inFlight == Some(ExceptionSend)
                && events == old(events) && error == old(error)
                && isSessionReplayActive == old(isSessionReplayActive)
                && isSlideoutOpen == old(isSlideoutOpen)
                && unchanged(page)
                && client.sdkCalls == old(client.sdkCalls) + [Send("error", ErrorObject(ExceptionMessage))]
                && (old(client.instance).Some? ==>
                      client.instance == old(client.instance) && client.constructions == old(client.constructions))
                && (old(client.instance).None? ==>
                      && client.instance == Some(Handle(ConfigFor(page.hasWindow, page.storage, client.env),
                                                        old(client.constructions)))
                      && client.constructions == old(client.constructions) + 1)
    {
      if isSending {
        return false;
      }
      if !HasToken(page.storage, client.env) {
        Warn();
        return false;
      }
      isSending := true;
      inFlight := Some(ExceptionSend);
      client.SendException(page, ExceptionMessage);
      sent := true;
    }

    /**
     * What follows the `await`: a resolved send prepends exactly one event (a
     * fresh id, the level, and the normalised uuid and status); a throw adds
     * nothing. Either way the busy flag is cleared (`finally`).
     */
    method CompleteSend(completion: Completion, idNibbles: seq<Nibble>, timestamp: string)
      requires Valid() && isSending
      requires |idNibbles| == 31
      modifies this
      ensures Valid() && !isSending && inFlight == None
      ensures completion.Threw? ==> events == old(events)
      ensures completion.Resolved? ==>
                && |events| == |old(events)| + 1
                && events[1..] == old(events)
                && events[0].id == GenerateUuid(idNibbles)
                && events[0].level == KindLevel(old(inFlight).value)
                && events[0].rollbarItemUuid == Normalise(completion.outcome).uuid
                && events[0].status == Num(Normalise(completion.outcome).status)
                && events[0].timestamp == timestamp
      ensures error == old(error) && isSessionReplayActive == old(isSessionReplayActive)
      ensures isSlideoutOpen == old(isSlideoutOpen)
    {
      if completion.Resolved? {
        var result := Normalise(completion.outcome);
        var newEvent := Event(
          id := GenerateUuid(idNibbles),
          level := KindLevel(inFlight.value),
          rollbarItemUuid := result.uuid,
          status := Num(result.status),
          timestamp := timestamp);
        events := [newEvent] + events;
      }
      isSending := false;
      inFlight := None;
    }

    /**
     * `handleToggleSessionReplay()`: without a token, the notice; otherwise
     * replay is stopped when it was on and started when it was off, and the
     * flag flips. The busy flag plays no part.
     */
    method HandleToggleSessionReplay()
      requires Valid()
      modifies this, page, client
      ensures Valid()
      ensures events == old(events) && isSending == old(isSending) && inFlight == old(inFlight)
      ensures isSlideoutOpen == old(isSlideoutOpen)
      ensures !HasToken(old(page.storage), client.env) ==>
                && error == Some(TokenWarning)
                && page.timers == old(page.timers) + [Timer(WarningMs, ClearError)]
                && page.storage == old(page.storage) && page.reloadRequested == old(page.reloadRequested)
                && isSessionReplayActive == old(isSessionReplayActive)
                && unchanged(client)
      ensures HasToken(old(page.storage), client.env) ==>
                isSessionReplayActive == !old(isSessionReplayActive) && error == old(error)
                && page.timers == old(page.timers)
      ensures HasToken(old(page.storage), client.env) && !page.hasWindow ==>
                unchanged(client) && page.storage == old(page.storage)
                && page.reloadRequested == old(page.reloadRequested)
      ensures HasToken(old(page.storage), client.env) && old(isSessionReplayActive) ==>
                && unchanged(client)
                && (page.hasWindow ==> page.storage == old(page.storage)[ReplayKey := "false"] && page.reloadRequested)
      ensures HasToken(old(page.storage), client.env) && !old(isSessionReplayActive) && page.hasWindow ==>
                && page.storage == old(page.storage)[ReplayKey := "true"]
                && (client.sdkHasDirectReplay ==>
                      && client.sdkCalls == old(client.sdkCalls) + [TriggerDirectReplay(["manual-start"])]
                      && page.reloadRequested == old(page.reloadRequested))
                && (!client.sdkHasDirectReplay ==>
                      client.sdkCalls == old(client.sdkCalls) && page.reloadRequested)
                && (old(client.instance).Some? ==>
                      client.instance == old(client.instance) && client.constructions == old(client.constructions))
                && (old(client.instance).None? ==>
                      && client.instance == Some(Handle(ConfigFor(true, page.storage, client.env),
                                                        old(client.constructions)))
                      && client.instance.value.config.replay.autoStart
                      && client.constructions == old(client.constructions) + 1)
    {
      if !HasToken(page.storage, client.env) {
        Warn();
        return;
      }
      if isSessionReplayActive {
        client.StopSessionReplay(page);
        isSessionReplayActive := false;
      } else {
        var _ := client.StartSessionReplay(page);
        isSessionReplayActive := true;
      }
    }

    /** Clicking the counter opens the history panel. */
    method OpenSlideout()
      modifies this
      ensures isSlideoutOpen
      ensures events == old(events) && isSending == old(isSending) && inFlight == old(inFlight)
      ensures error == old(error) && isSessionReplayActive == old(isSessionReplayActive)
    {
      isSlideoutOpen := true;
    }

    /** The panel's close callback. */
    method CloseSlideout()
      modifies this
      ensures !isSlideoutOpen
      ensures events == old(events) && isSending == old(isSending) && inFlight == old(inFlight)
      ensures error == old(error) && isSessionReplayActive == old(isSessionReplayActive)
    {
      isSlideoutOpen := false;
    }

    /**
     * The history panel as currently shown: nothing while closed, the empty
     * notice while open with no history, otherwise one row per event, in order.
     */
    function Slideout(): (p: Panel)
      reads this
      ensures !isSlideoutOpen <==> p == Closed
      ensures p == NoEventsYet <==> isSlideoutOpen && events == []
      ensures isSlideoutOpen && events != [] ==> p.Table?
      ensures p.Table? ==> |p.rows| == |events| && forall i :: 0 <= i < |p.rows| ==> p.rows[i] == RowOf(events, i)
    {
      View(isSlideoutOpen, events)
    }
  }

  /**
   * Two clicks before the first send settles: the second is dropped, so the
   * SDK is called once and, once settled, exactly one event is recorded.
   */
  method DoubleClickSendsOnce(c: Controls, level: string, outcome: SdkResult, idNibbles: seq<Nibble>, timestamp: string)
    requires c.Valid() && !c.isSending && level in SdkLevels
    requires HasToken(c.page.storage, c.client.env)
    requires |idNibbles| == 31
    modifies c, c.page, c.client
    ensures |c.client.sdkCalls| == |old(c.client.sdkCalls)| + 1
    ensures |c.events| == |old(c.events)| + 1 && c.events[1..] == old(c.events) && c.events[0].level == level
    ensures !c.isSending
  {
    var first := c.HandleSendLog(level);
    var second := c.HandleSendLog(level);
    assert first && !second;
    c.CompleteSend(Resolved(outcome), idNibbles, timestamp);
  }
}
