/** The client instance (instance.go, jsonbank.go) and the part of it that changes:
    its host and its session memory (instance.auth.go). */
module Jsonbank {
  import opened Wrappers
  import opened JsonValue
  import opened Errors
  import opened Types
  import opened Dispatch
  import opened Session

  const DefaultHost := "https://api.jsonbank.io"

  /** The config Init keeps: the host defaults when empty, the keys are kept as given. */
  function Configured(config: Config): (c: Config)
    ensures config.host == "" ==> c.host == DefaultHost
    ensures config.host != "" ==> c.host == config.host
    ensures c.keys == config.keys
  {
    if |config.host| <= 0 then config.(host := DefaultHost) else config
  }

  /** The settings after SetHost(host): both urls derive from the host, which the config records. */
  function WithHost(s: Settings, host: string): (t: Settings)
    ensures t.config.keys == s.config.keys
    ensures |t.urls.v1| == |host| + 3 && t.urls.v1[..|host|] == host && t.urls.v1[|host|..] == "/v1"
    ensures t.urls.public == t.config.host == host
  {
    Settings(s.config.(host := host), Urls(host + "/v1", host))
  }

  /** Setting a host twice is setting it once, and only the last host counts. */
  lemma WithHostLastWins(s: Settings, h1: string, h2: string)
    ensures WithHost(WithHost(s, h1), h2) == WithHost(s, h2)
    ensures WithHost(WithHost(s, h1), h1) == WithHost(s, h1)
  {
  }

  function AuthenticateRequest(c: Settings): Result<Request, RequestError>
  {
    MakeRequest(c.config.keys, "POST", c.urls.v1 + "/authenticate", None)
  }

  /** What Authenticate returns: the service's error, or the identity it sent. */
  function AuthenticateResult(c: Settings, svc: Service): (r: Result<AuthenticatedData, RequestError>)
    requires AuthenticateRequest(c).Success?
    requires Conforms(svc, AuthenticateRequest(c).value, AuthShape)
    ensures r.Failure? <==> SendRequest(svc, AuthenticateRequest(c).value).Failure?
    ensures r.Failure? ==> r.error == SendRequest(svc, AuthenticateRequest(c).value).error
    ensures r.Success? ==> r.value == ToAuthenticatedData(SendRequest(svc, AuthenticateRequest(c).value).value)
  {
    match SendRequest(svc, AuthenticateRequest(c).value)
    case Failure(e) => Failure(e)
    case Success(data) => Success(ToAuthenticatedData(data))
  }

  /** The append loop of Authenticate: the key's projects as strings, in order. */
  method CopyProjects(items: seq<Json>) returns (projects: seq<string>)
    requires AllStrings(items)
    ensures projects == ProjectNames(items)
  {
    projects := [];
    for i := 0 to |items|
      invariant projects == ProjectNames(items[..i])
    {
      assert items[..i + 1][..i] == items[..i];
      projects := projects + [items[i].s];
    }
    assert items[..|items|] == items;
  }

  class Instance {
    var config: Config
    var memory: Memory
    var urls: Urls

    /** The memory never holds the flag without an identity. */
    ghost predicate Valid()
      reads this
    {
      Consistent(memory)
    }

    /** What the request builders read. */
    function View(): Settings
      reads this
    {
      Settings(config, urls)
    }

    /** `Init`: default the host, keep the keys, derive the urls, start with empty memory. */
    constructor Init(config: Config)
      ensures Valid()
      ensures this.config == Configured(config)
      ensures View() == WithHost(Settings(Configured(config), Urls("", "")), Configured(config).host)
      ensures memory == map[]
      ensures !Authenticated() && GetUsername() == ""
    {
      var cfg := config;
      if |cfg.host| <= 0 {
        cfg := cfg.(host := DefaultHost);
      }
      this.config := cfg;
      new;
      SetHost(cfg.host);
      memory := map[];
    }

    /** `SetHost`: both urls and the config's host follow the new host; keys and memory stay. */
    method SetHost(host: string)
      modifies this
      ensures View() == WithHost(old(View()), host)
      ensures memory == old(memory)
    {
      urls := urls.(v1 := host + "/v1");
      urls := urls.(public := host);
      config := config.(host := host);
    }

    /** `Authenticated`: whether a successful Authenticate has run on this instance. */
    function Authenticated(): (authenticated: bool)
      reads this
      ensures authenticated <==> FlagSlot in memory && memory[FlagSlot] == Flag(true)
    {
      IsAuthenticated(memory)
    }

    /** `GetUsername`: the stored username, or "" before any successful Authenticate. */
    function GetUsername(): (name: string)
      reads this
      requires Valid()
      ensures !Authenticated() ==> name == ""
      ensures Authenticated() ==> IdentitySlot in memory && name == memory[IdentitySlot].data.username
    {
      Username(memory)
    }

    /** `Authenticate`: a public-tier POST to `v1/authenticate`; only a success writes the
        memory (the flag and the identity), replacing any earlier identity. */
    method Authenticate(svc: Service) returns (r: Result<AuthenticatedData, RequestError>)
      requires Valid()
      requires config.keys.public != ""
      requires Conforms(svc, AuthenticateRequest(View()).value, AuthShape)
      modifies this`memory
      ensures Valid()
      ensures r == AuthenticateResult(View(), svc)
      ensures r.Success? ==> memory == Remember(old(memory), r.value)
      ensures r.Failure? ==> memory == old(memory)
      ensures r.Success? ==> Authenticated() && GetUsername() == r.value.username
    {
      var req := AuthenticateRequest(View()).value;
      var d := SendRequest(svc, req);
      if d.Failure? {
        return Failure(d.error);
      }
      memory := memory[FlagSlot := Flag(true)];
      var data := d.value;
      var key := Field(data, "apiKey").fields;
      var projects := CopyProjects(Field(key, "projects").items);
      var apiKey := AuthenticatedKey(Field(key, "title").s, projects);
      var identity := AuthenticatedData(Field(data, "authenticated").b, Field(data, "username").s, apiKey);
      memory := memory[IdentitySlot := Identity(identity)];
      r := Success(identity);
    }
  }

  /** `InitWithoutKeys`: the default host and no key of either tier. */
  method InitWithoutKeys() returns (jsb: Instance)
    ensures fresh(jsb) && jsb.Valid()
    ensures jsb.config == Config(DefaultHost, Keys("", ""))
    ensures !HasKey(jsb.config.keys, PublicTier) && !HasKey(jsb.config.keys, PrivateTier)
    ensures jsb.urls == Urls(DefaultHost + "/v1", DefaultHost)
    ensures jsb.memory == map[] && !jsb.Authenticated() && jsb.GetUsername() == ""
  {
    jsb := new Instance.Init(Config("", Keys("", "")));
  }
}
