/** The HTTP switch accessory: its construction from the configuration
    object, the `get` and `set` handlers of its `On` characteristic, the
    set-batch callback with its momentary reset, push notifications, the
    pull timer's update, and the services it reports to the host. */
module Accessory {
  import opened Options
  import opened JsValue
  import opened Http
  import opened StatusCache
  import opened SwitchTypes
  import opened Behaviour
  import opened Normaliser

  const MANUFACTURER := "Andreas Bauer"
  const MODEL := "HTTP Switch"
  const DEFAULT_SERIAL_NUMBER := "SW01"
  const DEFAULT_TIMEOUT := 1000

  /** The request timeout: the configured one when it is a number, else
      the default. */
  function ConfiguredTimeout(config: Props): (r: int)
    ensures IsNumber(Get(config, "timeout")) ==> Get(config, "timeout") == Some(Number(r))
    ensures !IsNumber(Get(config, "timeout")) ==> r == DEFAULT_TIMEOUT
  {
    var raw := Get(config, "timeout");
    if IsNumber(raw) then raw.value.n else DEFAULT_TIMEOUT
  }

  /** The configured serial number, kept only when it is a string. */
  function ConfiguredSerial(config: Props): (r: Option<string>)
    ensures r.Some? <==> IsString(Get(config, "serialNumber"))
    ensures r.Some? ==> Get(config, "serialNumber") == Some(Str(r.value))
  {
    var raw := Get(config, "serialNumber");
    if IsString(raw) then Some(raw.value.s) else None
  }

  /** The pull timer of a stateful switch: its configured interval and how
      many times it has been restarted. */
  datatype PullTimer = PullTimer(interval: Value, resets: nat)

  /** `if (this.pullTimer) this.pullTimer.resetTimer()`. */
  function ResetTimer(p: Option<PullTimer>): (r: Option<PullTimer>)
    ensures r.Some? <==> p.Some?
    ensures r.Some? ==> r.value.interval == p.value.interval && r.value.resets == p.value.resets + 1
  {
    match p
    case None => None
    case Some(timer) => Some(timer.(resets := timer.resets + 1))
  }

  /** The services handed to the host. */
  datatype Service =
    | AccessoryInformation(manufacturer: string, model: string, serialNumber: string, firmwareRevision: string)
    | Switch(name: Option<Value>)

  /** A pushed update: the characteristic's name and its new value. */
  datatype Notification = Notification(characteristic: string, value: bool)

  /** The cache of a stateful switch asks for a query at `now`. */
  predicate CacheSaysQuery(c: Option<Cache>, now: int) {
    c.Some? && c.value.ShouldQuery(now)
  }

  class HttpSwitch {
    const library: Library
    const firmwareRevision: string
    var name: Option<Value>
    var switchType: Option<SwitchType>
    var timeout: int
    var serialNumber: Option<string>
    var statusPattern: Option<Pattern>
    var statusCache: Option<Cache>
    var on: Option<seq<UrlObject>>
    var off: Option<seq<UrlObject>>
    var status: Option<UrlObject>
    /** The switch service exists (construction was not aborted). */
    var hasService: bool
    /** The value of the `On` characteristic. */
    var onValue: bool
    var pullTimer: Option<PullTimer>
    var notificationsRegistered: bool
    /** The options of the MQTT client, when one was created. */
    var mqttOptions: Option<Value>
    /** Reset writes scheduled and not yet fired, oldest first. */
    var pendingResets: seq<PendingReset>

    /** What a configured switch keeps true: it holds exactly the URLs its
        type requires (one each for the stateful type), the pattern, cache
        and pull timer only when stateful, push channels only for the types
        that allow them, and only idle-value resets after `timeout`. */
    ghost predicate Valid()
      reads this
    {
      hasService ==>
        && switchType.Some?
        && (on.Some? <==> RequiresOnUrl(switchType.value))
        && (off.Some? <==> RequiresOffUrl(switchType.value))
        && (status.Some? <==> RequiresStatusUrl(switchType.value))
        && (switchType.value == Stateful ==> |on.value| == 1 && |off.value| == 1)
        && (statusPattern.Some? <==> switchType.value == Stateful)
        && (statusCache.Some? <==> switchType.value == Stateful)
        && (pullTimer.Some? ==> switchType.value == Stateful)
        && (notificationsRegistered ==> SupportsPush(switchType.value))
        && (mqttOptions.Some? ==> SupportsPush(switchType.value))
        && (forall k :: 0 <= k < |pendingResets| ==>
              Some(pendingResets[k].value) == IdleValue(switchType.value) && pendingResets[k].delay == timeout)
    }

    /** `HTTP_SWITCH(log, config)`. An invalid switch type aborts at once;
        otherwise timeout, serial number and (stateful) pattern and cache are
        set, and a failing `parseUrls` aborts next. A switch that gets past
        both has its URL objects normalised, its service, the reverse types'
        initial `true`, and the pull timer and push channels its type
        allows. */
    constructor (config: Props, library: Library, firmwareRevision: string)
      ensures Valid()
      ensures this.library == library && this.firmwareRevision == firmwareRevision
      ensures name == Get(config, "name")
      ensures switchType == EnumValueOf(Get(config, "switchType"), Stateful)
      ensures hasService <==> switchType.Some? && UrlsUsable(switchType.value, config, library)
      ensures switchType.Some? ==> timeout == ConfiguredTimeout(config) && serialNumber == ConfiguredSerial(config)
      ensures switchType == Some(Stateful) ==>
                && statusPattern == Some(
                     if Truthy(Get(config, "statusPattern")) && IsString(Get(config, "statusPattern"))
                     then Regex(Get(config, "statusPattern").value.s) else DigitOne)
                && statusCache == Some(NewCache(Get(config, "statusCache"), 0))
      ensures hasService && on.Some? ==>
                on.value == CommandUrls(ParseCommandUrls(switchType.value, Get(config, "onUrl").value, library).value, config)
      ensures hasService && off.Some? ==>
                off.value == CommandUrls(ParseCommandUrls(switchType.value, Get(config, "offUrl").value, library).value, config)
      ensures hasService && status.Some? ==>
                status.value == StatusUrl(library.parseUrlProperty(Get(config, "statusUrl").value).value, config)
      ensures hasService ==> onValue == (switchType.value == ToggleReverse || switchType.value == StatelessReverse)
      ensures hasService ==> (pullTimer.Some? <==> switchType.value == Stateful && Truthy(Get(config, "pullInterval")))
      ensures pullTimer.Some? ==> Truthy(Get(config, "pullInterval")) && pullTimer.value == PullTimer(Get(config, "pullInterval").value, 0)
      ensures hasService ==>
                (notificationsRegistered <==> SupportsPush(switchType.value) && Truthy(Get(config, "notificationID")))
      ensures hasService ==>
                mqttOptions == if SupportsPush(switchType.value) && Truthy(Get(config, "mqtt"))
                               then library.parseMqttOptions(Get(config, "mqtt").value) else None
      ensures !hasService ==> pullTimer.None? && !notificationsRegistered && mqttOptions.None?
      ensures pendingResets == []
    {
      var t := EnumValueOf(Get(config, "switchType"), Stateful);
      var configuredTimeout, configuredSerial := DEFAULT_TIMEOUT, None;
      var pattern, cache := None, None;
      var onUrls, offUrls, statusUrl := None, None, None;
      var configured, initialValue := false, false;
      var timer, notifications, mqttClient := None, false, None;

      if t.Some? {
        configuredTimeout := ConfiguredTimeout(config);
        configuredSerial := ConfiguredSerial(config);

        if t.value == Stateful {
          var rawPattern := Get(config, "statusPattern");
          pattern := Some(if Truthy(rawPattern) && IsString(rawPattern) then Regex(rawPattern.value.s) else DigitOne);
          cache := Some(NewCache(Get(config, "statusCache"), 0));
        }

        var success;
        success, onUrls, offUrls, statusUrl := ParseUrls(t.value, config, library);
        if success {
          onUrls, offUrls, statusUrl := NormaliseUrls(config, onUrls, offUrls, statusUrl);
          configured := true;
          initialValue := t.value == ToggleReverse || t.value == StatelessReverse;

          var pullInterval := Get(config, "pullInterval");
          timer := if Truthy(pullInterval) && t.value == Stateful then Some(PullTimer(pullInterval.value, 0)) else None;
          notifications := Truthy(Get(config, "notificationID")) && SupportsPush(t.value);
          var mqtt := Get(config, "mqtt");
          mqttClient := if Truthy(mqtt) && SupportsPush(t.value) then library.parseMqttOptions(mqtt.value) else None;
        }
      }

      this.library := library;
      this.firmwareRevision := firmwareRevision;
      name := Get(config, "name");
      switchType := t;
      timeout := configuredTimeout;
      serialNumber := configuredSerial;
      statusPattern := pattern;
      statusCache := cache;
      on, off, status := onUrls, offUrls, statusUrl;
      hasService := configured;
      onValue := initialValue;
      pullTimer := timer;
      notificationsRegistered := notifications;
      mqttOptions := mqttClient;
      pendingResets := [];
    }

    /** `getServices()`: nothing for an aborted switch; otherwise the
        accessory information, whose serial number is the configured one
        unless that is missing or empty, and the switch service. */
    method GetServices() returns (services: seq<Service>)
      ensures !hasService ==> services == []
      ensures hasService ==> |services| == 2 && services[1] == Switch(name)
      ensures hasService ==>
                && services[0].AccessoryInformation?
                && services[0].manufacturer == MANUFACTURER && services[0].model == MODEL
                && services[0].firmwareRevision == firmwareRevision
                && (serialNumber.Some? && serialNumber.value != "" ==> services[0].serialNumber == serialNumber.value)
                && (serialNumber.None? || serialNumber.value == "" ==> services[0].serialNumber == DEFAULT_SERIAL_NUMBER)
    {
      if !hasService {
        return [];
      }
      var serial := DEFAULT_SERIAL_NUMBER;
      if serialNumber.Some? && serialNumber.value != "" {
        serial := serialNumber.value;
      }
      services := [AccessoryInformation(MANUFACTURER, MODEL, serial, firmwareRevision), Switch(name)];
    }

    /** `handleNotification(body)`: a notification for any characteristic
        other than "On" changes nothing; one for "On" restarts the pull timer
        and writes the pushed value. No request is ever issued. */
    method HandleNotification(body: Notification)
      requires Valid() && hasService
      modifies this`pullTimer, this`onValue
      ensures Valid()
      ensures body.characteristic != "On" ==> pullTimer == old(pullTimer) && onValue == old(onValue)
      ensures body.characteristic == "On" ==> pullTimer == ResetTimer(old(pullTimer)) && onValue == body.value
    {
      if body.characteristic != "On" {
        return;
      }
      pullTimer := ResetTimer(pullTimer);
      onValue := body.value;
    }

    /** `getStatus(callback)` at time `now`; `response` is what the status
        URL answers if it is asked. The pull timer restarts; the answer is
        the one `GetDecision` picks, and a status request is issued (exactly
        once, to the status URL) only when it says so. Only an accepted
        response marks the cache. */
    method GetStatus(now: int, response: HttpResult) returns (request: Option<UrlObject>, reply: GetReply)
      requires Valid() && hasService
      modifies this`pullTimer, this`statusCache
      ensures Valid()
      ensures pullTimer == ResetTimer(old(pullTimer))
      ensures var action := GetDecision(switchType.value, CacheSaysQuery(old(statusCache), now), onValue);
              && (action.Answer? ==>
                    request.None? && reply == StatusIs(action.value) && statusCache == old(statusCache))
              && (action.QueryStatus? ==>
                    && request == status
                    && reply == StatusReply(response, statusPattern.value, library.compileRegex)
                    && statusCache == if reply.StatusIs? then Some(old(statusCache).value.Queried(now)) else old(statusCache))
    {
      pullTimer := ResetTimer(pullTimer);
      match switchType.value
      case Stateful =>
        if !statusCache.value.ShouldQuery(now) {
          request, reply := None, StatusIs(onValue);
          return;
        }
        request := status;
        if response.TransportError? {
          reply := GetFailed(TransportFailure(response.message));
        } else if !(IsHttpSuccessCode(response.statusCode) || IsHttpRedirectCode(response.statusCode)) {
          reply := GetFailed(HttpErrorCode(response.statusCode));
        } else {
          var switchedOn := Matches(statusPattern.value, library.compileRegex, response.body);
          statusCache := Some(statusCache.value.Queried(now));
          reply := StatusIs(switchedOn);
        }
      case Stateless =>
        request, reply := None, StatusIs(false);
      case StatelessReverse =>
        request, reply := None, StatusIs(true);
      case Toggle | ToggleReverse =>
        request, reply := None, StatusIs(onValue);
    }

    /** The transport reports one result per URL of the list a set sends;
        an acknowledged write sends nothing. */
    ghost predicate BatchShaped(action: SetAction, results: seq<HttpResult>)
      reads this
      requires Valid() && hasService
      requires action.Send? ==> (if action.toOn then on.Some? else off.Some?)
    {
      action.Send? ==> |results| == |(if action.toOn then on else off).value|
    }

    /** `setStatus(on, callback)`; `results` is what the transport reports
        for the batch, if one is sent. The pull timer restarts; the switch
        acknowledges or sends the list `SetDecision` picks, and a sent batch
        ends as `MakeSetRequest` describes. */
    method SetStatus(value: bool, results: seq<HttpResult>) returns (sent: Option<seq<UrlObject>>, reply: Outcome)
      requires Valid() && hasService
      requires BatchShaped(SetDecision(switchType.value, value), results)
      modifies this`pullTimer, this`pendingResets
      ensures Valid()
      ensures pullTimer == ResetTimer(old(pullTimer))
      ensures var action := SetDecision(switchType.value, value);
              && (action.Acknowledge? ==>
                    sent.None? && reply == Pass && pendingResets == old(pendingResets))
              && (action.Send? ==>
                    && sent == (if action.toOn then on else off)
                    && reply == (if AnyFailed(results) then Fail(SetRequestsFailed) else Pass)
                    && pendingResets == old(pendingResets) + ResetsAfterBatch(switchType.value, timeout))
    {
      pullTimer := ResetTimer(pullTimer);
      match switchType.value
      case Stateful =>
        sent, reply := MakeSetRequest(value, results);
      case Stateless =>
        if !value {
          sent, reply := None, Pass;
          return;
        }
        sent, reply := MakeSetRequest(true, results);
      case StatelessReverse =>
        if value {
          sent, reply := None, Pass;
          return;
        }
        sent, reply := MakeSetRequest(false, results);
      case Toggle | ToggleReverse =>
        sent, reply := MakeSetRequest(value, results);
    }

    /** `_makeSetRequest(on, callback)`: sends the `on` or `off` list and,
        when the transport reports `results`, fails if any of them is
        rejected (partial success is failure) and succeeds otherwise; then,
        whatever the outcome, schedules the momentary reset. */
    method MakeSetRequest(toOn: bool, results: seq<HttpResult>) returns (sent: Option<seq<UrlObject>>, reply: Outcome)
      requires Valid() && hasService
      requires toOn ==> on.Some?
      requires !toOn ==> off.Some?
      requires |results| == |(if toOn then on else off).value|
      modifies this`pendingResets
      ensures Valid()
      ensures sent == if toOn then on else off
      ensures reply.Fail? <==> AnyFailed(results)
      ensures reply.Fail? ==> reply.error == SetRequestsFailed
      ensures pendingResets == old(pendingResets) + ResetsAfterBatch(switchType.value, timeout)
    {
      sent := if toOn then on else off;
      reply := AggregateSetResults(results);
      ResetSwitchWithTimeoutIfStateless();
    }

    /** `resetSwitchWithTimeoutIfStateless()`: a stateless switch schedules a
        write of false, a stateless-reverse one a write of true, each after
        `timeout`; the other types schedule nothing. */
    method ResetSwitchWithTimeoutIfStateless()
      requires Valid() && hasService
      modifies this`pendingResets
      ensures Valid()
      ensures pendingResets == old(pendingResets) + ResetsAfterBatch(switchType.value, timeout)
    {
      match switchType.value
      case Stateless =>
        pendingResets := pendingResets + [PendingReset(false, timeout)];
      case StatelessReverse =>
        pendingResets := pendingResets + [PendingReset(true, timeout)];
      case _ =>
    }

    /** The host writing `value` to the `On` characteristic: the `set`
        handler runs, and the characteristic takes the value only when the
        handler reports success. */
    method HostSet(value: bool, results: seq<HttpResult>) returns (sent: Option<seq<UrlObject>>, reply: Outcome)
      requires Valid() && hasService
      requires BatchShaped(SetDecision(switchType.value, value), results)
      modifies this`pullTimer, this`pendingResets, this`onValue
      ensures Valid()
      ensures pullTimer == ResetTimer(old(pullTimer))
      ensures sent.Some? <==> SetDecision(switchType.value, value).Send?
      ensures reply.Pass? <==> SetDecision(switchType.value, value).Acknowledge? || !AnyFailed(results)
      ensures onValue == if reply.Pass? then value else old(onValue)
      ensures pendingResets == old(pendingResets) +
                (if sent.Some? then ResetsAfterBatch(switchType.value, timeout) else [])
    {
      sent, reply := SetStatus(value, results);
      if reply.Pass? {
        onValue := value;
      }
    }

    /** A scheduled reset firing: `setCharacteristic(On, idle)` goes through
        the `set` handler, which acknowledges the idle value without a
        request, so the characteristic returns to its idle value. */
    method FireReset() returns (sent: Option<seq<UrlObject>>)
      requires Valid() && hasService && pendingResets != []
      modifies this`pullTimer, this`pendingResets, this`onValue
      ensures Valid()
      ensures sent.None?
      ensures pendingResets == old(pendingResets)[1..]
      ensures onValue == old(pendingResets)[0].value && Some(onValue) == IdleValue(switchType.value)
      ensures pullTimer == old(pullTimer)
    {
      var write := pendingResets[0];
      pendingResets := pendingResets[1..];
      var reply;
      sent, reply := HostSet(write.value, []);
    }

    /** The host reading `On`: the `get` handler runs, and a value it
        answers becomes the characteristic's value; an error leaves the
        characteristic as it was. */
    method HostGet(now: int, response: HttpResult) returns (request: Option<UrlObject>, reply: GetReply)
      requires Valid() && hasService
      modifies this`pullTimer, this`statusCache, this`onValue
      ensures Valid()
      ensures pullTimer == ResetTimer(old(pullTimer))
      ensures request.Some? <==> switchType.value == Stateful && CacheSaysQuery(old(statusCache), now)
      ensures request.Some? ==> request == status && reply == StatusReply(response, statusPattern.value, library.compileRegex)
      ensures request.None? ==> reply == StatusIs(GetDecision(switchType.value, false, old(onValue)).value)
      ensures statusCache == if request.Some? && reply.StatusIs? then Some(old(statusCache).value.Queried(now)) else old(statusCache)
      ensures onValue == if reply.StatusIs? then reply.on else old(onValue)
    {
      request, reply := GetStatus(now, response);
      if reply.StatusIs? {
        onValue := reply.on;
      }
    }

    /** Two host reads of a stateful switch with a positive cache window,
        the second within the window of the first: when the first one
        queried the device and got a value, the second sends no request and
        answers that same value. */
    method HostGetTwice(first: int, firstResponse: HttpResult, second: int, secondResponse: HttpResult)
      returns (firstRequest: Option<UrlObject>, firstReply: GetReply, secondRequest: Option<UrlObject>, secondReply: GetReply)
      requires Valid() && hasService && switchType == Some(Stateful)
      requires statusCache.value.window > 0 && first <= second <= first + statusCache.value.window
      modifies this`pullTimer, this`statusCache, this`onValue
      ensures Valid()
      ensures firstRequest.Some? && firstReply.StatusIs? ==> secondRequest.None? && secondReply == firstReply
    {
      firstRequest, firstReply := HostGet(first, firstResponse);
      secondRequest, secondReply := HostGet(second, secondResponse);
    }

    /** One tick of the pull timer of a stateful switch: `getStatus` runs and
        a value it answers is written into the characteristic; an error
        leaves the characteristic as it was. */
    method PullTick(now: int, response: HttpResult) returns (request: Option<UrlObject>, reply: GetReply)
      requires Valid() && hasService && pullTimer.Some?
      modifies this`pullTimer, this`statusCache, this`onValue
      ensures Valid()
      ensures pullTimer == ResetTimer(old(pullTimer))
      ensures request.Some? <==> CacheSaysQuery(old(statusCache), now)
      ensures request.Some? ==> request == status && reply == StatusReply(response, statusPattern.value, library.compileRegex)
      ensures request.None? ==> reply == StatusIs(old(onValue))
      ensures statusCache == if request.Some? && reply.StatusIs? then Some(old(statusCache).value.Queried(now)) else old(statusCache)
      ensures onValue == if reply.StatusIs? then reply.on else old(onValue)
    {
      request, reply := GetStatus(now, response);
      if reply.StatusIs? {
        onValue := reply.on;
      }
    }
  }
}
