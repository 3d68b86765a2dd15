/**
 * `getApiBaseUrl` of frontend/utils/api.ts as a pure function of the values
 * it reads from `process.env`, `expo-constants` and `Platform.OS`.
 */
module Api {
  import opened Wrappers

  /** `Platform.OS`. */
  datatype Platform = Android | IOS | Web | Windows | MacOS

  /** Everything the function reads. `None` stands for `undefined` or `null`. */
  datatype Environment = Environment(
    apiUrl: Option<string>,         // EXPO_PUBLIC_API_URL
    apiPort: Option<string>,        // EXPO_PUBLIC_API_PORT
    expoHostUri: Option<string>,    // Constants.expoConfig?.hostUri
    debuggerHost: Option<string>,   // Constants.expoGoConfig?.debuggerHost
    expoGoHostUri: Option<string>,  // Constants.expoGoConfig?.hostUri
    platform: Platform)

  /** A string is truthy when it is present and non-empty. */
  predicate Truthy(s: Option<string>)
    ensures Truthy(s) <==> s != None && s != Some("")
  {
    s.Some? && s.value != ""
  }

  /** DEFAULT_API_PORT: the env port when defined (even if empty), else "3000". */
  function DefaultApiPort(env: Environment): (port: string)
    ensures env.apiPort.None? ==> port == "3000"
    ensures env.apiPort.Some? ==> port == env.apiPort.value
  {
    env.apiPort.GetOr("3000")
  }

  /** The `??` chain: the first candidate that is not null or undefined. */
  function HostUri(env: Environment): (h: Option<string>)
    ensures h.None? <==> env.expoHostUri.None? && env.debuggerHost.None? && env.expoGoHostUri.None?
    ensures env.expoHostUri.Some? ==> h == env.expoHostUri
    ensures env.expoHostUri.None? && env.debuggerHost.Some? ==> h == env.debuggerHost
    ensures env.expoHostUri.None? && env.debuggerHost.None? ==> h == env.expoGoHostUri
  {
    if env.expoHostUri.Some? then env.expoHostUri
    else if env.debuggerHost.Some? then env.debuggerHost
    else env.expoGoHostUri
  }

  /** The alternatives of `/^(https?:\/\/|exp:\/\/)/`. */
  const Protocols: seq<string> := ["http://", "https://", "exp://"]

  /** `replace(/^(https?:\/\/|exp:\/\/)/, "")`: drops one leading protocol, if any. */
  function StripProtocol(s: string): (r: string)
    ensures (forall i :: 0 <= i < |Protocols| ==> !(Protocols[i] <= s)) ==> r == s
    ensures (exists i :: 0 <= i < |Protocols| && Protocols[i] <= s) ==>
      exists i :: 0 <= i < |Protocols| && Protocols[i] <= s && r == s[|Protocols[i]|..]
  {
    assert Protocols[0] == "http://" && Protocols[1] == "https://" && Protocols[2] == "exp://";
    if "http://" <= s then s[7..]
    else if "https://" <= s then s[8..]
    else if "exp://" <= s then s[6..]
    else s
  }

  /** `split(":")[0]`: the longest prefix without a colon. */
  function BeforeColon(s: string): (r: string)
    ensures r <= s
    ensures ':' !in r
    ensures |r| < |s| ==> s[|r|] == ':'
  {
    if s == [] || s[0] == ':' then [] else [s[0]] + BeforeColon(s[1..])
  }

  /** `getApiBaseUrl`. */
  function GetApiBaseUrl(env: Environment): (url: string)
    ensures Truthy(env.apiUrl) ==> url == env.apiUrl.value
    ensures !Truthy(env.apiUrl) ==>
      && "http://" <= url
      && |url| >= 8 + |DefaultApiPort(env)|
      && url[|url| - |DefaultApiPort(env)| - 1..] == ":" + DefaultApiPort(env)
  {
    var port := DefaultApiPort(env);
    if Truthy(env.apiUrl) then env.apiUrl.value
    else
      var hostUri := HostUri(env);
      if Truthy(hostUri) then "http://" + BeforeColon(StripProtocol(hostUri.value)) + ":" + port
      else if env.platform == Android then "http://10.0.2.2:" + port
      else "http://localhost:" + port
  }

  /**
   * `??` keeps a defined but empty port: it is not replaced by "3000", so
   * every URL built without an explicit one ends in a bare colon.
   */
  lemma PortChoice(env: Environment)
    requires env.apiPort == Some("") && !Truthy(env.apiUrl)
    ensures DefaultApiPort(env) == ""
    ensures var url := GetApiBaseUrl(env); |url| > 0 && url[|url| - 1] == ':'
  {
  }

  /** An explicit URL overrides every other input. */
  lemma ExplicitUrlOverrides(env: Environment, other: Environment)
    requires Truthy(env.apiUrl) && other.apiUrl == env.apiUrl
    ensures GetApiBaseUrl(env) == GetApiBaseUrl(other) == env.apiUrl.value
  {
  }

  /** Without an explicit URL or a usable host, Android reaches the emulator host and everything else localhost. */
  lemma PlatformFallback(env: Environment)
    requires !Truthy(env.apiUrl) && !Truthy(HostUri(env))
    ensures GetApiBaseUrl(env) ==
      (if env.platform == Android then "http://10.0.2.2:" else "http://localhost:") + DefaultApiPort(env)
  {
  }

  /**
   * Because `??` only skips null and undefined, an empty first candidate is
   * chosen and then fails the truthiness test: the later candidates are
   * never consulted and the platform fallback is used.
   */
  lemma EmptyFirstCandidateFallsThrough(env: Environment)
    requires !Truthy(env.apiUrl) && env.expoHostUri == Some("")
    ensures HostUri(env) == Some("")
    ensures GetApiBaseUrl(env) ==
      (if env.platform == Android then "http://10.0.2.2:" else "http://localhost:") + DefaultApiPort(env)
  {
  }

  /**
   * With a usable host string the URL is "http://", the host name, ":" and
   * the port, where the host name is the part of the host string, after at
   * most one leading protocol, that precedes the first colon.
   */
  lemma LanHostUrl(env: Environment)
    requires !Truthy(env.apiUrl) && Truthy(HostUri(env))
    ensures var url := GetApiBaseUrl(env);
      var port := DefaultApiPort(env);
      var rest := StripProtocol(HostUri(env).value);
      && |url| >= 8 + |port|
      && var host := url[7..|url| - |port| - 1];
      && url == "http://" + host + ":" + port
      && ':' !in host
      && host <= rest
      && (host == rest || rest[|host|] == ':')
  {
    var url := GetApiBaseUrl(env);
    var port := DefaultApiPort(env);
    var host := BeforeColon(StripProtocol(HostUri(env).value));
    assert url == "http://" + host + ":" + port;
    assert url[7..|url| - |port| - 1] == host;
  }

  /** `split(":")[0]` of a string is the part before its first colon. */
  lemma {:induction false} BeforeFirstColon(h: string, t: string)
    requires ':' !in h
    ensures BeforeColon(h + ":" + t) == h
    ensures BeforeColon(h) == h
  {
    var s := h + ":" + t;
    if h == [] {
      assert s[0] == ':';
    } else {
      assert h[0] != ':' by { assert h[0] in h; }
      assert s[0] == h[0] && s[1..] == h[1..] + ":" + t;
      BeforeFirstColon(h[1..], t);
      assert h == [h[0]] + h[1..];
    }
  }

  /** Exactly one leading protocol is removed, whichever of the three it is. */
  lemma StripOneProtocol(i: nat, rest: string)
    requires i < |Protocols|
    ensures StripProtocol(Protocols[i] + rest) == rest
  {
    var s := Protocols[i] + rest;
    if i == 1 {
      assert s[4] == 's';
    } else if i == 2 {
      assert s[0] == 'e';
    }
  }

  /** Expo Go on a phone: the LAN address from `exp://…:8081` with the backend's default port. */
  lemma ExpoGoExample(env: Environment)
    requires env == Environment(None, None, Some("exp://192.168.1.20:8081"), None, None, IOS)
    ensures GetApiBaseUrl(env) == "http://" + "192.168.1.20" + ":" + "3000"
  {
    assert "exp://192.168.1.20:8081" == Protocols[2] + ("192.168.1.20" + ":" + "8081");
    StripOneProtocol(2, "192.168.1.20" + ":" + "8081");
    BeforeFirstColon("192.168.1.20", "8081");
  }
}
