/** The configuration normaliser's rules: which URL properties each switch
    type needs and how they are parsed, the global `httpMethod` override and
    the shared `auth` credentials, applied URL object by URL object. */
module Normaliser {
  import opened Options
  import opened JsValue
  import opened Http
  import opened SwitchTypes

  /** The helpers of the shared HTTP library the accessory calls while it is
      configured. Each parser returns None where the library throws.
      `compileRegex` is `new RegExp(source)` followed by `.test`. */
  datatype Library = Library(
    parseUrlProperty: Value -> Option<UrlObject>,
    parseMultipleUrlProperty: Value -> Option<seq<UrlObject>>,
    parseMqttOptions: Value -> Option<Value>,
    compileRegex: string -> (string -> bool))

  /** The URL list an `onUrl` or `offUrl` value parses to: the stateful type
      wraps its single URL object in a one-element list, the other types
      accept a list of any length. */
  function ParseCommandUrls(t: SwitchType, raw: Value, lib: Library): (r: Option<seq<UrlObject>>)
    ensures t == Stateful ==> (r.Some? <==> lib.parseUrlProperty(raw).Some?)
    ensures t == Stateful && r.Some? ==> r.value == [lib.parseUrlProperty(raw).value]
    ensures t != Stateful ==> r == lib.parseMultipleUrlProperty(raw)
  {
    if t == Stateful then
      match lib.parseUrlProperty(raw)
      case Some(u) => Some([u])
      case None => None
    else
      lib.parseMultipleUrlProperty(raw)
  }

  /** An `onUrl`/`offUrl` property that is given (truthy) and parses. */
  predicate CommandUrlUsable(t: SwitchType, raw: Option<Value>, lib: Library) {
    Truthy(raw) && ParseCommandUrls(t, raw.value, lib).Some?
  }

  /** A `statusUrl` property that is given (truthy) and parses. */
  predicate StatusUrlUsable(raw: Option<Value>, lib: Library) {
    Truthy(raw) && lib.parseUrlProperty(raw.value).Some?
  }

  /** `parseUrls` succeeds: every URL the type requires is given and parses.
      URLs the type does not use play no part. */
  predicate UrlsUsable(t: SwitchType, config: Props, lib: Library) {
    && (RequiresOnUrl(t) ==> CommandUrlUsable(t, Get(config, "onUrl"), lib))
    && (RequiresOffUrl(t) ==> CommandUrlUsable(t, Get(config, "offUrl"), lib))
    && (RequiresStatusUrl(t) ==> StatusUrlUsable(Get(config, "statusUrl"), lib))
  }

  /** The global method override: `config.httpMethod` when it is truthy. */
  function MethodOverride(config: Props): Option<Value> {
    if Truthy(Get(config, "httpMethod")) then Get(config, "httpMethod") else None
  }

  /** The shared credentials `config.auth` supplies. */
  datatype Credentials = Credentials(username: Value, password: Value, sendImmediately: Option<bool>)

  /** The credentials applied to the URL objects: only when `auth` is given
      and both its username and password are truthy; `sendImmediately` is
      carried only when it is a boolean. */
  function ConfiguredCredentials(config: Props): (r: Option<Credentials>)
    ensures r.Some? <==>
              && Truthy(Get(config, "auth"))
              && Truthy(Member(Get(config, "auth").value, "username"))
              && Truthy(Member(Get(config, "auth").value, "password"))
    ensures r.Some? ==>
              var auth := Get(config, "auth").value;
              && Some(r.value.username) == Member(auth, "username")
              && Some(r.value.password) == Member(auth, "password")
              && (r.value.sendImmediately.Some? <==> IsBoolean(Member(auth, "sendImmediately")))
              && (r.value.sendImmediately.Some? ==> Member(auth, "sendImmediately") == Some(Bool(r.value.sendImmediately.value)))
  {
    var auth := Get(config, "auth");
    if !Truthy(auth) then None
    else
      var username := Member(auth.value, "username");
      var password := Member(auth.value, "password");
      if !(Truthy(username) && Truthy(password)) then None
      else
        var flag := Member(auth.value, "sendImmediately");
        Some(Credentials(username.value, password.value, if IsBoolean(flag) then Some(flag.value.b) else None))
  }

  /** One URL object with the method replaced. */
  function WithMethod(u: UrlObject, m: Value): UrlObject {
    u.(httpMethod := m)
  }

  /** One URL object with the credentials written into its `auth`. */
  function WithCredentials(u: UrlObject, c: Credentials): UrlObject {
    u.(auth := u.auth.(
      username := Some(c.username),
      password := Some(c.password),
      sendImmediately := if c.sendImmediately.Some? then Some(Bool(c.sendImmediately.value)) else u.auth.sendImmediately))
  }

  /** One URL object after the global method override, if there is one. */
  function MethodApplied(u: UrlObject, config: Props): UrlObject {
    if MethodOverride(config).Some? then WithMethod(u, MethodOverride(config).value) else u
  }

  /** One URL object after the shared credentials, if there are any. */
  function CredentialsApplied(u: UrlObject, config: Props): UrlObject {
    if ConfiguredCredentials(config).Some? then WithCredentials(u, ConfiguredCredentials(config).value) else u
  }

  /** An `on`/`off` URL object after normalisation: method override, then
      credentials. */
  function CommandUrl(u: UrlObject, config: Props): UrlObject {
    CredentialsApplied(MethodApplied(u, config), config)
  }

  /** The `status` URL object after normalisation: credentials only. */
  function StatusUrl(u: UrlObject, config: Props): UrlObject {
    CredentialsApplied(u, config)
  }

  /** An `on`/`off` list after normalisation, object by object. */
  function CommandUrls(urls: seq<UrlObject>, config: Props): seq<UrlObject> {
    seq(|urls|, i requires 0 <= i < |urls| => CommandUrl(urls[i], config))
  }

  /** The `forEach` that sets the method of every URL object of a list:
      every object gets `m` and keeps its address and credentials. */
  method OverrideMethod(urls: seq<UrlObject>, m: Value) returns (r: seq<UrlObject>)
    ensures |r| == |urls|
    ensures forall i :: 0 <= i < |urls| ==>
              r[i].httpMethod == m && r[i].url == urls[i].url && r[i].auth == urls[i].auth
  {
    r := urls;
    var i := 0;
    while i < |r|
      invariant 0 <= i <= |r| == |urls|
      invariant forall j :: 0 <= j < i ==> r[j] == WithMethod(urls[j], m)
      invariant forall j :: i <= j < |r| ==> r[j] == urls[j]
    {
      r := r[i := WithMethod(r[i], m)];
      i := i + 1;
    }
  }

  /** The `forEach` that writes the credentials into every URL object of a
      list: username and password are set, `sendImmediately` only when
      configured as a boolean; address and method are untouched. */
  method ApplyCredentials(urls: seq<UrlObject>, c: Credentials) returns (r: seq<UrlObject>)
    ensures |r| == |urls|
    ensures forall i :: 0 <= i < |urls| ==>
              && r[i].url == urls[i].url
              && r[i].httpMethod == urls[i].httpMethod
              && r[i].auth.username == Some(c.username)
              && r[i].auth.password == Some(c.password)
              && r[i].auth.sendImmediately ==
                   (if c.sendImmediately.Some? then Some(Bool(c.sendImmediately.value)) else urls[i].auth.sendImmediately)
  {
    r := urls;
    var i := 0;
    while i < |r|
      invariant 0 <= i <= |r| == |urls|
      invariant forall j :: 0 <= j < i ==> r[j] == WithCredentials(urls[j], c)
      invariant forall j :: i <= j < |r| ==> r[j] == urls[j]
    {
      r := r[i := WithCredentials(r[i], c)];
      i := i + 1;
    }
  }

  /** `parseUrls(config)`: reads `onUrl`, `offUrl` and `statusUrl` in that
      order, each only when the type requires it, and stops with false at the
      first one that is missing (not truthy) or fails to parse. It yields the
      `on`, `off` and `status` the constructor keeps; a URL the type does not
      use is never stored. */
  method ParseUrls(t: SwitchType, config: Props, lib: Library)
    returns (success: bool, on: Option<seq<UrlObject>>, off: Option<seq<UrlObject>>, status: Option<UrlObject>)
    ensures success <==> UrlsUsable(t, config, lib)
    ensures success ==>
              && (on.Some? <==> RequiresOnUrl(t))
              && (off.Some? <==> RequiresOffUrl(t))
              && (status.Some? <==> RequiresStatusUrl(t))
    ensures success && on.Some? ==> on == ParseCommandUrls(t, Get(config, "onUrl").value, lib)
    ensures success && off.Some? ==> off == ParseCommandUrls(t, Get(config, "offUrl").value, lib)
    ensures success && status.Some? ==> status == lib.parseUrlProperty(Get(config, "statusUrl").value)
  {
    on, off, status := None, None, None;
    if RequiresOnUrl(t) {
      var raw := Get(config, "onUrl");
      if !Truthy(raw) {
        return false, on, off, status;
      }
      on := ParseCommandUrls(t, raw.value, lib);
      if on.None? {
        return false, on, off, status;
      }
    }
    if RequiresOffUrl(t) {
      var raw := Get(config, "offUrl");
      if !Truthy(raw) {
        return false, on, off, status;
      }
      off := ParseCommandUrls(t, raw.value, lib);
      if off.None? {
        return false, on, off, status;
      }
    }
    if RequiresStatusUrl(t) {
      var raw := Get(config, "statusUrl");
      if !Truthy(raw) {
        return false, on, off, status;
      }
      status := lib.parseUrlProperty(raw.value);
      if status.None? {
        return false, on, off, status;
      }
    }
    success := true;
  }

  /** The first step of the URL normalisation: a truthy `httpMethod` is
      written into every `on` and `off` object; `status` keeps its own. */
  method OverrideMethods(config: Props, on: Option<seq<UrlObject>>, off: Option<seq<UrlObject>>)
    returns (on': Option<seq<UrlObject>>, off': Option<seq<UrlObject>>)
    ensures on'.Some? <==> on.Some?
    ensures off'.Some? <==> off.Some?
    ensures on'.Some? ==>
              && |on'.value| == |on.value|
              && forall i :: 0 <= i < |on.value| ==> on'.value[i] == MethodApplied(on.value[i], config)
    ensures off'.Some? ==>
              && |off'.value| == |off.value|
              && forall i :: 0 <= i < |off.value| ==> off'.value[i] == MethodApplied(off.value[i], config)
  {
    on', off' := on, off;
    var methodOverride := Get(config, "httpMethod");
    if Truthy(methodOverride) {
      if on'.Some? {
        var urls := OverrideMethod(on'.value, methodOverride.value);
        on' := Some(urls);
      }
      if off'.Some? {
        var urls := OverrideMethod(off'.value, methodOverride.value);
        off' := Some(urls);
      }
    }
  }

  /** The second step: when `auth` carries a truthy username and password,
      the credentials are written into every `on`, `off` and status object. */
  method ApplyAuth(config: Props, on: Option<seq<UrlObject>>, off: Option<seq<UrlObject>>, status: Option<UrlObject>)
    returns (on': Option<seq<UrlObject>>, off': Option<seq<UrlObject>>, status': Option<UrlObject>)
    ensures on'.Some? <==> on.Some?
    ensures off'.Some? <==> off.Some?
    ensures on'.Some? ==>
              && |on'.value| == |on.value|
              && forall i :: 0 <= i < |on.value| ==> on'.value[i] == CredentialsApplied(on.value[i], config)
    ensures off'.Some? ==>
              && |off'.value| == |off.value|
              && forall i :: 0 <= i < |off.value| ==> off'.value[i] == CredentialsApplied(off.value[i], config)
    ensures status' == if status.Some? then Some(CredentialsApplied(status.value, config)) else None
  {
    on', off', status' := on, off, status;
    var auth := Get(config, "auth");
    if Truthy(auth) {
      var username := Member(auth.value, "username");
      var password := Member(auth.value, "password");
      if Truthy(username) && Truthy(password) {
        var flag := Member(auth.value, "sendImmediately");
        var credentials := Credentials(username.value, password.value, if IsBoolean(flag) then Some(flag.value.b) else None);
        assert ConfiguredCredentials(config) == Some(credentials);
        if on'.Some? {
          var urls := ApplyCredentials(on'.value, credentials);
          on' := Some(urls);
        }
        if off'.Some? {
          var urls := ApplyCredentials(off'.value, credentials);
          off' := Some(urls);
        }
        if status'.Some? {
          status' := Some(WithCredentials(status'.value, credentials));
        }
      }
    }
  }

  /** The URL part of the constructor after a successful `parseUrls`: the
      method override, then the credentials. The lists keep their shape. */
  method NormaliseUrls(config: Props, on: Option<seq<UrlObject>>, off: Option<seq<UrlObject>>, status: Option<UrlObject>)
    returns (on': Option<seq<UrlObject>>, off': Option<seq<UrlObject>>, status': Option<UrlObject>)
    ensures on'.Some? <==> on.Some?
    ensures off'.Some? <==> off.Some?
    ensures on'.Some? ==> on'.value == CommandUrls(on.value, config)
    ensures off'.Some? ==> off'.value == CommandUrls(off.value, config)
    ensures status' == if status.Some? then Some(StatusUrl(status.value, config)) else None
  {
    var overriddenOn, overriddenOff := OverrideMethods(config, on, off);
    on', off', status' := ApplyAuth(config, overriddenOn, overriddenOff, status);
    if on'.Some? {
      assert forall i :: 0 <= i < |on.value| ==> on'.value[i] == CommandUrls(on.value, config)[i];
    }
    if off'.Some? {
      assert forall i :: 0 <= i < |off.value| ==> off'.value[i] == CommandUrls(off.value, config)[i];
    }
  }

  /** The method override reaches `on` and `off` only: the status URL keeps
      its own method, while credentials reach all three alike. */
  lemma OverrideScope(u: UrlObject, config: Props)
    ensures StatusUrl(u, config).httpMethod == u.httpMethod
    ensures CommandUrl(u, config).httpMethod ==
              if Truthy(Get(config, "httpMethod")) then Get(config, "httpMethod").value else u.httpMethod
    ensures CommandUrl(u, config).auth == StatusUrl(u, config).auth
    ensures CommandUrl(u, config).url == u.url && StatusUrl(u, config).url == u.url
  {
  }

  /** A URL property the type does not use neither stores anything nor can
      make `parseUrls` fail, whatever its value. */
  lemma UnusedUrlIgnored(t: SwitchType, config: Props, lib: Library, key: string, v: Value)
    requires (key == "onUrl" && !RequiresOnUrl(t)) || (key == "offUrl" && !RequiresOffUrl(t))
             || (key == "statusUrl" && !RequiresStatusUrl(t))
    ensures UrlsUsable(t, config[key := v], lib) == UrlsUsable(t, config, lib)
  {
  }
}
