/** The proxy service: its settings dictionary (defaults overridden by the
    settings file), the proxy URLs handed to requests and to boto3, the
    cached session, and the checks test_connection and change_ip_if_needed
    make before they touch the network. */
module ProxyService {
  import opened Strings
  import opened Values

  type Settings = map<string, Value>

  const DefaultHost: string := "74.81.81.81"
  const DefaultPort: string := "10000"
  const DefaultUser: string := "26a928403f27ed635073__cr.ar,au,at,bd,ba,bg;sessttl.5"
  const DefaultPassword: string := "860de985d1795b42"

  const DefaultSettings: Settings := map[
    "enabled" := Bool(false),
    "host" := Str(DefaultHost),
    "port" := Str(DefaultPort),
    "username" := Str(DefaultUser),
    "password" := Str(DefaultPassword),
    "change_ip_url" := Str(""),
    "proxy_type" := Str("socks5")
  ]

  /** The keys the service subscripts without a default. */
  const RequiredKeys: set<string> := {"enabled", "host", "port", "username", "password"}

  /** load_settings: the defaults, updated with what the settings file held
      (None when the file is missing or reading it failed). */
  function LoadSettings(loaded: Option<Settings>): (s: Settings)
    ensures RequiredKeys <= s.Keys
    ensures loaded.Some? ==> forall k :: k in loaded.value ==> k in s && s[k] == loaded.value[k]
    ensures forall k :: k in DefaultSettings && (loaded.None? || k !in loaded.value) ==>
      k in s && s[k] == DefaultSettings[k]
    ensures forall k :: k in s ==> k in DefaultSettings || (loaded.Some? && k in loaded.value)
  {
    if loaded.Some? then DefaultSettings + loaded.value else DefaultSettings
  }

  /** is_enabled: enabled, and a host is set. */
  predicate IsEnabled(s: Settings)
    requires RequiredKeys <= s.Keys
    ensures IsEnabled(s) ==> s["enabled"] !in {Null, Bool(false), Int(0), Str("")}
    ensures IsEnabled(s) ==> s["host"] !in {Null, Bool(false), Int(0), Str("")}
  {
    Truthy(s["enabled"]) && Truthy(s["host"])
  }

  /** The URL for a proxy type: credentials only when both the user name
      and the password are set. */
  function ProxyUrl(proxyType: string, s: Settings): (url: string)
    requires RequiredKeys <= s.Keys
    ensures StartsWith(url, proxyType + "://")
    ensures var tail := ":" + Show(s["port"]); |tail| <= |url| && url[|url| - |tail|..] == tail
    ensures Truthy(s["username"]) && Truthy(s["password"]) ==>
      url == proxyType + "://" + (Show(s["username"]) + ":" + Show(s["password"]) + "@"
        + Show(s["host"]) + (":" + Show(s["port"])))
    ensures !(Truthy(s["username"]) && Truthy(s["password"])) ==>
      url == proxyType + "://" + (Show(s["host"]) + (":" + Show(s["port"])))
  {
    var address :=
      if Truthy(s["username"]) && Truthy(s["password"]) then
        Show(s["username"]) + ":" + Show(s["password"]) + "@" + Show(s["host"])
      else Show(s["host"]);
    Framed(proxyType + "://", address, ":" + Show(s["port"]));
    proxyType + "://" + (address + (":" + Show(s["port"])))
  }

  /** A URL built as scheme, address and port starts with the scheme and
      ends with the port. */
  lemma Framed(head: string, address: string, tail: string)
    ensures StartsWith(head + (address + tail), head)
    ensures var url := head + (address + tail); |tail| <= |url| && url[|url| - |tail|..] == tail
  {
    var url := head + (address + tail);
    assert url[..|head|] == head;
    assert url[|head|..] == address + tail;
    assert url[|url| - |tail|..] == (address + tail)[|address|..];
  }

  const DefaultProxyType: string := "socks5"

  /** get_proxy_dict: no proxy when disabled; the same URL for http and
      https otherwise; .lower() raises on a proxy type that is not a
      string. */
  datatype ProxyDict = NoProxy | Proxies(urls: map<string, string>) | Raises

  function GetProxyDict(s: Settings): (r: ProxyDict)
    requires RequiredKeys <= s.Keys
    ensures r.NoProxy? <==> !IsEnabled(s)
    ensures r.Raises? <==> IsEnabled(s) && !Get(s, "proxy_type", Str(DefaultProxyType)).Str?
    ensures r.Proxies? ==> r.urls.Keys == {"http", "https"} && r.urls["http"] == r.urls["https"]
    ensures r.Proxies? ==> StartsWith(r.urls["http"], Lower(Get(s, "proxy_type", Str(DefaultProxyType)).s) + "://")
  {
    if !IsEnabled(s) then NoProxy
    else match Get(s, "proxy_type", Str(DefaultProxyType))
      case Str(t) =>
        var url := ProxyUrl(Lower(t), s);
        Proxies(map["http" := url, "https" := url])
      case _ => Raises
  }

  /** get_proxy_for_boto3: the proxy type as stored, rendered by str(). */
  function GetProxyForBoto3(s: Settings): (r: Option<string>)
    requires RequiredKeys <= s.Keys
    ensures r.None? <==> !IsEnabled(s)
    ensures r.Some? ==> StartsWith(r.value, Show(Get(s, "proxy_type", Str(DefaultProxyType))) + "://")
  {
    if !IsEnabled(s) then None
    else Some(ProxyUrl(Show(Get(s, "proxy_type", Str(DefaultProxyType))), s))
  }

  /** The two URL builders agree whenever the stored type is already lower
      case (or absent, when both use "socks5"). */
  lemma DictAgreesWithBoto3(s: Settings)
    requires RequiredKeys <= s.Keys && IsEnabled(s)
    requires Get(s, "proxy_type", Str(DefaultProxyType)).Str?
    requires var t := Get(s, "proxy_type", Str(DefaultProxyType)).s; Lower(t) == t
    ensures GetProxyDict(s).Proxies?
    ensures GetProxyDict(s).urls["http"] == GetProxyForBoto3(s).value
  {
  }

  /** Without the settings file the proxy is off. */
  lemma DefaultsAreDisabled()
    ensures !IsEnabled(LoadSettings(None))
    ensures GetProxyDict(LoadSettings(None)).NoProxy? && GetProxyForBoto3(LoadSettings(None)).None?
  {
    assert LoadSettings(None)["enabled"] == Bool(false);
  }

  /** Enabling the defaults gives the socks5 URL with the default
      credentials. */
  lemma EnabledDefaultsUrl()
    ensures var s := DefaultSettings + map["enabled" := Bool(true)];
      GetProxyForBoto3(s) == Some("socks5://" + DefaultUser + ":" + DefaultPassword + "@" + DefaultHost + ":" + DefaultPort)
  {
    var s := DefaultSettings + map["enabled" := Bool(true)];
    assert s["enabled"] == Bool(true);
    assert s["host"] == Str(DefaultHost) && s["port"] == Str(DefaultPort);
    assert s["username"] == Str(DefaultUser) && s["password"] == Str(DefaultPassword);
    assert s["proxy_type"] == Str(DefaultProxyType);
    var head := DefaultProxyType + "://";
    assert head == "socks5://";
    Reassociate(head, DefaultUser, DefaultPassword, DefaultHost, DefaultPort);
  }

  /** The URL with credentials, written left to right. */
  lemma Reassociate(head: string, user: string, password: string, host: string, port: string)
    ensures head + (user + ":" + password + "@" + host + (":" + port))
      == head + user + ":" + password + "@" + host + ":" + port
  {
    var address := user + ":" + password + "@" + host;
    assert head + (address + (":" + port)) == head + address + (":" + port);
    assert head + address == head + user + ":" + password + "@" + host;
  }

  /** The proxies a new session is given: the proxy dictionary when the
      proxy is enabled, none otherwise. */
  function SessionProxies(s: Settings): (p: map<string, string>)
    requires RequiredKeys <= s.Keys && !GetProxyDict(s).Raises?
    ensures p == map[] <==> !IsEnabled(s)
  {
    match GetProxyDict(s)
    case Proxies(urls) => urls
    case _ => map[]
  }

  /** What a method returns before any network use, or that it goes on to
      use the network. */
  datatype Outcome = Done(ok: bool, message: string) | UsesNetwork

  /** The checks at the head of test_connection. */
  function TestConnectionPrecheck(s: Settings): (r: Outcome)
    requires RequiredKeys <= s.Keys
    ensures r == Done(false, "Proxy is not enabled") <==> !Truthy(s["enabled"])
    ensures r == Done(false, "Proxy host or port not configured") <==>
      Truthy(s["enabled"]) && (!Truthy(s["host"]) || !Truthy(s["port"]))
    ensures r.UsesNetwork? <==> IsEnabled(s) && Truthy(s["port"])
  {
    if !Truthy(s["enabled"]) then Done(false, "Proxy is not enabled")
    else if !Truthy(s["host"]) || !Truthy(s["port"]) then Done(false, "Proxy host or port not configured")
    else UsesNetwork
  }

  /** The checks at the head of change_ip_if_needed. */
  function ChangeIpPrecheck(s: Settings): (r: Outcome)
    requires RequiredKeys <= s.Keys
    ensures r == Done(true, "Proxy not enabled") <==> !Truthy(s["enabled"])
    ensures r == Done(true, "No IP change URL configured") <==>
      Truthy(s["enabled"]) && !Truthy(Get(s, "change_ip_url", Null))
    ensures r.UsesNetwork? <==> Truthy(s["enabled"]) && Truthy(Get(s, "change_ip_url", Null))
  {
    if !Truthy(s["enabled"]) then Done(true, "Proxy not enabled")
    else if !Truthy(Get(s, "change_ip_url", Null)) then Done(true, "No IP change URL configured")
    else UsesNetwork
  }

  /** change_ip_if_needed checks enabled but not the host: with an IP
      change URL and no host it goes to the network through a session that
      has no proxy. */
  lemma ChangeIpWithoutHost(s: Settings)
    requires RequiredKeys <= s.Keys
    requires Truthy(s["enabled"]) && !Truthy(s["host"]) && Truthy(Get(s, "change_ip_url", Null))
    ensures ChangeIpPrecheck(s).UsesNetwork?
    ensures TestConnectionPrecheck(s) == Done(false, "Proxy host or port not configured")
    ensures !GetProxyDict(s).Raises? && SessionProxies(s) == map[]
  {
  }

  /** A requests session and the proxies it was given. */
  class Session {
    const proxies: map<string, string>

    constructor (proxies: map<string, string>)
      ensures this.proxies == proxies
    {
      this.proxies := proxies;
    }
  }

  class ProxyService {
    var settings: Settings
    /** The cached session; null until get_session creates one. */
    var session: Session?

    /** Every key subscripted without a default is present. */
    ghost predicate Valid()
      reads this
    {
      RequiredKeys <= settings.Keys
    }

    constructor (loaded: Option<Settings>)
      ensures Valid() && settings == LoadSettings(loaded) && session == null
    {
      settings := LoadSettings(loaded);
      session := null;
    }

    /** set_proxy: the new values over the old ones, other keys kept, and
        the cached session dropped. */
    method SetProxy(update: Settings)
      requires Valid()
      modifies this`settings, this`session
      ensures Valid() && session == null
      ensures settings.Keys == old(settings).Keys + update.Keys
      ensures forall k :: k in update ==> settings[k] == update[k]
      ensures forall k :: k in old(settings) && k !in update ==> settings[k] == old(settings)[k]
    {
      settings := settings + update;
      session := null;
    }

    /** get_session: the cached session when there is one; otherwise a new
        one with the proxies of the current settings (create_session
        raises, through get_proxy_dict, on a proxy type that is not a
        string; then no session is cached). */
    method GetSession() returns (s: Session?)
      requires Valid()
      modifies this`session
      ensures old(session) != null ==> s == old(session) && session == old(session)
      ensures old(session) == null && !GetProxyDict(settings).Raises? ==>
        s != null && fresh(s) && session == s && s.proxies == SessionProxies(settings)
      ensures old(session) == null && GetProxyDict(settings).Raises? ==> s == null && session == null
    {
      if session == null {
        if IsEnabled(settings) {
          var proxies := GetProxyDict(settings);
          if proxies.Raises? {
            return null;
          }
          session := new Session(proxies.urls);
        } else {
          session := new Session(map[]);
        }
      }
      s := session;
    }

    /** get_current_settings: a copy of the settings. */
    method GetCurrentSettings() returns (copy: Settings)
      ensures copy == settings
    {
      copy := settings;
    }
  }
}
