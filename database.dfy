/** The lazily created Supabase client: the URL and key checks, the one-time creation, and the
    proxy that forwards attribute access to it. `create_client` is represented by its arguments. */
module SupabaseClient {
  import opened Common
  import opened Text

  /** The environment settings the client is created from. */
  datatype Settings = Settings(supabaseUrl: string, supabaseKey: string)

  /** A created client, identified by the URL and key it was created with. */
  datatype Client = Client(url: string, key: string)

  /** An attribute read through the proxy: the client it was read from and the attribute name. */
  datatype Attribute = Attribute(client: Client, name: string)

  const UrlPlaceholder := "your_supabase_url_here"

  const KeyPlaceholder := "your_supabase_key_here"

  predicate UrlAccepted(url: string)
  {
    url != "" && url != UrlPlaceholder && StartsWith(url, "https://")
  }

  predicate KeyAccepted(key: string)
  {
    key != "" && key != KeyPlaceholder
  }

  const InvalidUrlTail := "'. Please set a valid Supabase URL in your .env file. "
    + "Get it from: https://supabase.com/dashboard \U{2192} Settings \U{2192} API"

  function InvalidUrlMessage(url: string): string
  {
    "Invalid SUPABASE_URL: '" + url + InvalidUrlTail
  }

  const InvalidKeyMessage := "Invalid SUPABASE_KEY. "
    + "Please set your Supabase anon key in your .env file. "
    + "Get it from: https://supabase.com/dashboard \U{2192} Settings \U{2192} API"

  /** The two `ValueError` checks, URL first. */
  function CheckSettings(s: Settings): (r: Result<(), string>)
    ensures r.Ok? <==> UrlAccepted(s.supabaseUrl) && KeyAccepted(s.supabaseKey)
    ensures !UrlAccepted(s.supabaseUrl) ==> r == Err(InvalidUrlMessage(s.supabaseUrl))
    ensures UrlAccepted(s.supabaseUrl) && !KeyAccepted(s.supabaseKey) ==> r == Err(InvalidKeyMessage)
  {
    if !UrlAccepted(s.supabaseUrl) then Err(InvalidUrlMessage(s.supabaseUrl))
    else if !KeyAccepted(s.supabaseKey) then Err(InvalidKeyMessage)
    else Ok(())
  }

  /** A bad URL is reported whatever the key, and the report names the URL. */
  lemma BadUrlMasksKey(url: string, key1: string, key2: string)
    requires !UrlAccepted(url)
    ensures CheckSettings(Settings(url, key1)) == CheckSettings(Settings(url, key2))
    ensures CheckSettings(Settings(url, key1)).Err?
    ensures var m := CheckSettings(Settings(url, key1)).error;
      |m| >= 23 + |url| && m[23..23 + |url|] == url
  {
    var head := "Invalid SUPABASE_URL: '";
    assert |head| == 23;
    assert (head + url + InvalidUrlTail)[23..23 + |url|] == url;
  }

  /** The placeholder values from the example environment file are refused. */
  lemma PlaceholdersRefused(key: string)
    ensures CheckSettings(Settings(UrlPlaceholder, key)) == Err(InvalidUrlMessage(UrlPlaceholder))
    ensures CheckSettings(Settings("https://x.supabase.co", KeyPlaceholder)) == Err(InvalidKeyMessage)
  {
    assert "https://x.supabase.co"[..8] == "https://";
  }

  /** The `utils.database` module: the cached `_supabase_client` and how often `create_client`
      has run. */
  class SupabaseModule {
    const settings: Settings
    var client: Option<Client>
    var creations: nat

    ghost predicate Valid()
      reads this
    {
      creations <= 1 && (client.None? <==> creations == 0)
      && (client.Some? ==> client.value == Client(settings.supabaseUrl, settings.supabaseKey))
    }

    /** The module as imported: no client yet. */
    constructor (settings: Settings)
      ensures this.settings == settings && client == None && creations == 0
      ensures Valid()
    {
      this.settings := settings;
      client := None;
      creations := 0;
    }

    /** `get_supabase`: the cached client if there is one; otherwise the checks, and on success
        a client is created and cached. A failed check leaves the cache empty. */
    method GetSupabase() returns (r: Result<Client, string>)
      requires Valid()
      modifies this`client, this`creations
      ensures Valid()
      ensures old(client).Some? ==> r == Ok(old(client).value) && client == old(client) && creations == old(creations)
      ensures old(client).None? && CheckSettings(settings).Err? ==>
        r == Err(CheckSettings(settings).error) && client == None && creations == old(creations)
      ensures old(client).None? && CheckSettings(settings).Ok? ==>
        r == Ok(Client(settings.supabaseUrl, settings.supabaseKey)) && client == Some(r.value) && creations == 1
    {
      if client.Some? {
        return Ok(client.value);
      }
      var check := CheckSettings(settings);
      if check.Err? {
        return Err(check.error);
      }
      client := Some(Client(settings.supabaseUrl, settings.supabaseKey));
      creations := creations + 1;
      r := Ok(client.value);
    }
  }

  /** `SupabaseProxy.__getattr__`: every attribute goes through `get_supabase`. */
  method ProxyGetAttr(m: SupabaseModule, name: string) returns (r: Result<Attribute, string>)
    requires m.Valid()
    modifies m`client, m`creations
    ensures m.Valid()
    ensures old(m.client).Some? ==> r == Ok(Attribute(old(m.client).value, name)) && m.client == old(m.client)
    ensures old(m.client).None? ==> (r.Ok? <==> CheckSettings(m.settings).Ok?)
    ensures r.Ok? ==> m.client == Some(r.value.client) && r.value.name == name
    ensures r.Err? ==> r.error == CheckSettings(m.settings).error && m.client == None
  {
    var c := m.GetSupabase();
    match c {
      case Ok(client) => r := Ok(Attribute(client, name));
      case Err(e) => r := Err(e);
    }
  }

  /** Two attribute reads create the client at most once and read from the same client. */
  method ProxyTwice(m: SupabaseModule, a: string, b: string) returns (r1: Result<Attribute, string>, r2: Result<Attribute, string>)
    requires m.Valid()
    modifies m`client, m`creations
    ensures m.Valid() && m.creations <= 1
    ensures r1.Ok? ==> r2.Ok? && r1.value.client == r2.value.client
    ensures r1.Err? ==> r2 == r1
  {
    r1 := ProxyGetAttr(m, a);
    r2 := ProxyGetAttr(m, b);
    if r1.Err? {
      assert r2.Err? && r2.error == r1.error;
    }
  }
}
