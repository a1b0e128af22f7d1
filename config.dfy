/** The service configuration of netprox/classes/Config.py: twelve settings
    read from the environment, extra keyword settings, and the dictionary
    that merges the two, in insertion order. */
module Configuration {
  import opened Values
  import opened Dicts

  /** `os.getenv(name)`: the variable's value, or None when it is unset. */
  function EnvValue(env: map<string, string>, name: string): (v: Json)
    ensures v == Null <==> name !in env
    ensures name in env ==> v == Str(env[name])
  {
    if name in env then Str(env[name]) else Null
  }

  /** The keys of the standard mapping, in the order the source lists them. */
  const StandardKeys: seq<string> := [
    "NETBOX_URL", "NETBOX_TOKEN", "NETBOX_WEBHOOK_SECRET", "NETBOX_SSL_VERIFY",
    "PROXMOX_HOST", "PROXMOX_USER", "PROXMOX_TOKEN_NAME", "PROXMOX_TOKEN",
    "PROXMOX_SSL_VERIFY", "FLASK_SECRETKEY", "FLASK_HOST", "FLASK_DEBUG"]

  /** What `all_config` leaves in a dictionary that held `start`: the
      standard mapping, then the keyword settings if there are any, then the
      standard mapping once more. Its keys are the ones it started with, the
      standard keys and the keyword keys, nothing else. */
  function Merged(start: Dict, standard: Dict, kwargs: Dict): (r: Dict)
    ensures KeySet(r) == KeySet(start) + KeySet(standard) + KeySet(kwargs)
  {
    UpdateKeys(start, standard);
    if |kwargs| != 0 then
      UpdateKeys(Update(start, standard), kwargs);
      UpdateKeys(Update(Update(start, standard), kwargs), standard);
      Update(Update(Update(start, standard), kwargs), standard)
    else
      assert forall p :: p !in kwargs;
      Update(start, standard)
  }

  /** A standard key maps to its environment value even when a keyword
      setting has the same name, since the standard mapping goes in last. */
  lemma {:induction false} StandardWins(standard: Dict, kwargs: Dict, k: string)
    requires UniqueKeys(standard)
    requires k in KeySet(standard)
    ensures Lookup(Merged([], standard, kwargs), k) == Lookup(standard, k)
  {
    if |kwargs| != 0 {
      UpdateLookup(Update(Update([], standard), kwargs), standard, k);
    } else {
      UpdateLookup([], standard, k);
    }
  }

  /** A keyword setting whose name is not a standard key keeps its value. */
  lemma {:induction false} KeywordKept(standard: Dict, kwargs: Dict, k: string)
    requires UniqueKeys(standard) && UniqueKeys(kwargs)
    requires k in KeySet(kwargs) && k !in KeySet(standard)
    ensures Lookup(Merged([], standard, kwargs), k) == Lookup(kwargs, k)
  {
    var entry :| entry in kwargs && entry.0 == k;
    assert |kwargs| != 0;
    UpdateLookup(Update(Update([], standard), kwargs), standard, k);
    UpdateLookup(Update([], standard), kwargs, k);
  }

  /** Without keyword settings the dictionary is exactly the standard mapping. */
  lemma {:induction false} NoKeywordsIsStandard(standard: Dict)
    requires UniqueKeys(standard)
    ensures Merged([], standard, []) == standard
  {
    var empty: Dict := [];
    assert KeySet(empty) == {};
    UpdateDisjoint(empty, standard);
  }

  /** The standard keys open the dictionary, in their own order; keyword
      settings with other names follow them. */
  lemma {:induction false} StandardKeysFirst(standard: Dict, kwargs: Dict)
    requires UniqueKeys(standard)
    ensures |Merged([], standard, kwargs)| >= |standard|
    ensures forall i :: 0 <= i < |standard| ==> Merged([], standard, kwargs)[i].0 == standard[i].0
  {
    NoKeywordsIsStandard(standard);
    if |kwargs| != 0 {
      UpdateKeepsPositions(standard, kwargs);
      UpdateKeepsPositions(Update(standard, kwargs), standard);
    }
  }

  /** The keys whose values are falsy, in dictionary order. */
  function FalsyKeys(d: Dict): (ks: seq<string>)
    ensures |ks| <= |d|
  {
    if d == [] then []
    else FalsyKeys(d[..|d| - 1]) + (if Truthy(d[|d| - 1].1) then [] else [d[|d| - 1].0])
  }

  predicate AllTruthy(d: Dict) {
    forall i :: 0 <= i < |d| ==> Truthy(d[i].1)
  }

  /** A key is reported exactly when some entry under it is falsy; nothing is
      reported exactly when every value is truthy. */
  lemma {:induction false} FalsyKeysExact(d: Dict)
    ensures forall k :: k in FalsyKeys(d) <==> exists i :: 0 <= i < |d| && d[i].0 == k && !Truthy(d[i].1)
    ensures FalsyKeys(d) == [] <==> AllTruthy(d)
  {
    if d != [] {
      var init := d[..|d| - 1];
      FalsyKeysExact(init);
      forall k ensures k in FalsyKeys(d) <==> exists i :: 0 <= i < |d| && d[i].0 == k && !Truthy(d[i].1) {
        if k in FalsyKeys(init) {
          var i :| 0 <= i < |init| && init[i].0 == k && !Truthy(init[i].1);
          assert d[i] == init[i];
        }
        if exists i :: 0 <= i < |d| && d[i].0 == k && !Truthy(d[i].1) {
          var i :| 0 <= i < |d| && d[i].0 == k && !Truthy(d[i].1);
          if i < |d| - 1 {
            assert init[i] == d[i];
          }
        }
      }
      if FalsyKeys(d) == [] {
        forall i | 0 <= i < |d| ensures Truthy(d[i].1) {
          assert d[i].0 !in FalsyKeys(d);
        }
      }
      if AllTruthy(d) {
        assert AllTruthy(init) by {
          forall i | 0 <= i < |init| ensures Truthy(init[i].1) {
            assert init[i] == d[i];
          }
        }
      }
    }
  }

  class Config {
    /** The keyword settings the object was built with. */
    const kwargs: Dict
    var netboxUrl: Json
    var netboxToken: Json
    var netboxWebhookSecret: Json
    var netboxSslVerify: Json
    var proxmoxHost: Json
    var proxmoxUser: Json
    var proxmoxTokenName: Json
    var proxmoxToken: Json
    var proxmoxSslVerify: Json
    var flaskSecretKey: Json
    var flaskHost: Json
    var flaskDebug: Json
    var allConfigDict: Dict

    /** The standard mapping from the current field values. */
    function Standard(): (d: Dict)
      reads this
      ensures |d| == |StandardKeys|
      ensures forall i :: 0 <= i < |d| ==> d[i].0 == StandardKeys[i]
    {
      [("NETBOX_URL", netboxUrl), ("NETBOX_TOKEN", netboxToken),
       ("NETBOX_WEBHOOK_SECRET", netboxWebhookSecret), ("NETBOX_SSL_VERIFY", netboxSslVerify),
       ("PROXMOX_HOST", proxmoxHost), ("PROXMOX_USER", proxmoxUser),
       ("PROXMOX_TOKEN_NAME", proxmoxTokenName), ("PROXMOX_TOKEN", proxmoxToken),
       ("PROXMOX_SSL_VERIFY", proxmoxSslVerify), ("FLASK_SECRETKEY", flaskSecretKey),
       ("FLASK_HOST", flaskHost), ("FLASK_DEBUG", flaskDebug)]
    }

    /** Captures the twelve environment variables, then builds the dictionary. */
    constructor (env: map<string, string>, kwargs: Dict)
      ensures this.kwargs == kwargs
      ensures netboxUrl == EnvValue(env, "NETBOX_URL") && netboxToken == EnvValue(env, "NETBOX_TOKEN")
      ensures netboxWebhookSecret == EnvValue(env, "NETBOX_WEBHOOK_SECRET")
      ensures netboxSslVerify == EnvValue(env, "NETBOX_SSL_VERIFY")
      ensures proxmoxHost == EnvValue(env, "PROXMOX_HOST") && proxmoxUser == EnvValue(env, "PROXMOX_USER")
      ensures proxmoxTokenName == EnvValue(env, "PROXMOX_TOKEN_NAME")
      ensures proxmoxToken == EnvValue(env, "PROXMOX_TOKEN")
      ensures proxmoxSslVerify == EnvValue(env, "PROXMOX_SSL_VERIFY")
      ensures flaskSecretKey == EnvValue(env, "FLASK_SECRETKEY")
      ensures flaskHost == EnvValue(env, "FLASK_HOST") && flaskDebug == EnvValue(env, "FLASK_DEBUG")
      ensures allConfigDict == Merged([], Standard(), kwargs)
    {
      this.kwargs := kwargs;
      netboxUrl := EnvValue(env, "NETBOX_URL");
      netboxToken := EnvValue(env, "NETBOX_TOKEN");
      netboxWebhookSecret := EnvValue(env, "NETBOX_WEBHOOK_SECRET");
      netboxSslVerify := EnvValue(env, "NETBOX_SSL_VERIFY");
      proxmoxHost := EnvValue(env, "PROXMOX_HOST");
      proxmoxUser := EnvValue(env, "PROXMOX_USER");
      proxmoxTokenName := EnvValue(env, "PROXMOX_TOKEN_NAME");
      proxmoxToken := EnvValue(env, "PROXMOX_TOKEN");
      proxmoxSslVerify := EnvValue(env, "PROXMOX_SSL_VERIFY");
      flaskSecretKey := EnvValue(env, "FLASK_SECRETKEY");
      flaskHost := EnvValue(env, "FLASK_HOST");
      flaskDebug := EnvValue(env, "FLASK_DEBUG");
      allConfigDict := [];
      new;
      AllConfig();
    }

    /** `all_config`: successive updates of the dictionary in place. */
    method AllConfig()
      modifies this`allConfigDict
      ensures allConfigDict == Merged(old(allConfigDict), Standard(), kwargs)
    {
      var standard := Standard();
      if |kwargs| != 0 {
        allConfigDict := Update(allConfigDict, standard);
        allConfigDict := Update(allConfigDict, kwargs);
      }
      allConfigDict := Update(allConfigDict, standard);
    }

    /** `get_config`: the dictionary itself; nothing changes. */
    method GetConfig() returns (d: Dict)
      ensures d == allConfigDict
    {
      d := allConfigDict;
    }

    /** `check_config`: whether every value is truthy, and the keys the
        source reports as missing when one is not. */
    method CheckConfig() returns (ok: bool, missing: seq<string>)
      ensures ok <==> AllTruthy(allConfigDict)
      ensures forall k :: k in missing <==>
                exists i :: 0 <= i < |allConfigDict| && allConfigDict[i].0 == k && !Truthy(allConfigDict[i].1)
      ensures missing == FalsyKeys(allConfigDict)
    {
      FalsyKeysExact(allConfigDict);
      var d := allConfigDict;
      if AllTruthy(d) {
        return true, [];
      }
      missing := [];
      for i := 0 to |d|
        invariant missing == FalsyKeys(d[..i])
      {
        assert d[..i + 1][..i] == d[..i];
        if !Truthy(d[i].1) {
          missing := missing + [d[i].0];
        }
      }
      assert d[..|d|] == d;
      return false, missing;
    }
  }

  /** The standard mapping built from the environment has twelve distinct keys. */
  lemma StandardUnique(c: Config)
    ensures UniqueKeys(c.Standard())
  {
    var d := c.Standard();
    forall i, j | 0 <= i < j < |d| ensures d[i].0 != d[j].0 {
      assert d[i].0 == StandardKeys[i] && d[j].0 == StandardKeys[j];
    }
  }

  /** A freshly built configuration: every standard key holds its
      environment value, whatever the keyword settings say. */
  lemma FreshStandardWins(c: Config, k: string)
    requires c.allConfigDict == Merged([], c.Standard(), c.kwargs)
    requires k in KeySet(c.Standard())
    ensures Lookup(c.allConfigDict, k) == Lookup(c.Standard(), k)
  {
    StandardUnique(c);
    StandardWins(c.Standard(), c.kwargs, k);
  }
}
