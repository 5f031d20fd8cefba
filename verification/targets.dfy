/** The two setting appliers of the `APIBox.Init` action: routed settings are
    copied, by fixed field name, onto the signing validator and onto the proxy
    clients of the backends they name. The targets belong to other
    middlewares; here they are plain records and the appliers return their
    new values. */
module Targets {
  import opened Wrappers
  import opened Text

  /** The part of the signing validator the gate configures. */
  datatype SignTarget = SignTarget(signKey: string, enabled: bool)

  /** The part of a backend's proxy client the gate configures. */
  datatype Client = Client(
    gwUrl: string,
    gwAddr: string,
    appId: string,
    signKey: string,
    nonceEnabled: bool,
    nonceLength: int,
    defaultParams: map<string, string>,
    overrideParams: map<string, string>)

  const DefaultParamsGroup := "default_params"
  const OverrideParamsGroup := "override_params"

  /** One step of the signing applier's switch: `sign_key` is copied verbatim,
      `disabled` leaves the validator enabled only for the exact value "N",
      and any other name is ignored. */
  function ApplySignSetting(sign: SignTarget, name: string, value: string): (r: SignTarget)
    ensures r == SignConfigured(sign, map[name := value])
  {
    if name == "sign_key" then sign.(signKey := value)
    else if name == "disabled" then sign.(enabled := value == "N")
    else sign
  }

  /** The signing validator after all of `settings`, independent of the
      order they are visited in. */
  function SignConfigured(sign: SignTarget, settings: map<string, string>): (r: SignTarget)
    ensures "sign_key" !in settings && "disabled" !in settings ==> r == sign
  {
    SignTarget(
      if "sign_key" in settings then settings["sign_key"] else sign.signKey,
      if "disabled" in settings then settings["disabled"] == "N" else sign.enabled)
  }

  /** Two distinct signing settings can be applied in either order. */
  lemma SignSettingsCommute(sign: SignTarget, name: string, value: string, name': string, value': string)
    requires name != name'
    ensures ApplySignSetting(ApplySignSetting(sign, name, value), name', value')
         == ApplySignSetting(ApplySignSetting(sign, name', value'), name, value)
  {
  }

  /** The `disabled` setting leaves the validator enabled exactly when its
      value is "N"; any other value, the empty one included, disables it. */
  lemma SignDisabledSetting(sign: SignTarget, settings: map<string, string>)
    requires "disabled" in settings
    ensures SignConfigured(sign, settings).enabled <==> settings["disabled"] == "N"
    ensures SignConfigured(sign, settings).signKey == SignConfigured(sign, settings - {"disabled"}).signKey
  {
  }

  /** A setting other than `sign_key` and `disabled` changes nothing. */
  lemma SignOtherNameIgnored(sign: SignTarget, settings: map<string, string>, name: string, value: string)
    requires name != "sign_key" && name != "disabled"
    ensures SignConfigured(sign, settings[name := value]) == SignConfigured(sign, settings)
  {
  }

  /** The signing applier's loop over the settings map, in whatever order
      the map yields its keys. */
  method ApplySignSettings(sign: SignTarget, settings: map<string, string>) returns (r: SignTarget)
    ensures r == SignConfigured(sign, settings)
  {
    r := sign;
    var rest := settings.Keys;
    ghost var seen: map<string, string> := map[];
    while rest != {}
      invariant rest !! seen.Keys && rest + seen.Keys == settings.Keys
      invariant forall k :: k in seen ==> seen[k] == settings[k]
      invariant r == SignConfigured(sign, seen)
      decreases rest
    {
      var k :| k in rest;
      var v := settings[k];
      r := ApplySignSetting(r, k, v);
      rest, seen := rest - {k}, seen[k := v];
    }
    assert seen == settings;
  }

  /** One step of the proxy applier's switch (the client's own field names
      first, then the dotted `default_params.K` / `override_params.K`).
      Applied alone, it gives the configured client for that one setting. */
  function ApplyClientSetting(client: Client, name: string, value: string): (r: Client)
    ensures IsClientConfigured(client, map[name := value], r)
  {
    ParamsConfiguredSingle(client, name, value);
    if name == "gwurl" then client.(gwUrl := value)
    else if name == "gwaddr" then client.(gwAddr := value)
    else if name == "appid" then client.(appId := value)
    else if name == "sign_key" then client.(signKey := value)
    else if name == "nonce_enabled" then client.(nonceEnabled := value == "Y")
    else if name == "nonce_length" then client.(nonceLength := Atoi(value))
    else match SplitOnce(name)
      case None => client
      case Some((group, param)) =>
        if group == DefaultParamsGroup then client.(defaultParams := client.defaultParams[param := value])
        else if group == OverrideParamsGroup then client.(overrideParams := client.overrideParams[param := value])
        else client
  }

  /** A single setting's effect on the two parameter groups. */
  lemma ParamsConfiguredSingle(client: Client, name: string, value: string)
    ensures IsParamsConfigured(client.defaultParams, map[name := value], DefaultParamsGroup,
      match SplitOnce(name)
      case Some((group, param)) =>
        if group == DefaultParamsGroup then client.defaultParams[param := value] else client.defaultParams
      case None => client.defaultParams)
    ensures IsParamsConfigured(client.overrideParams, map[name := value], OverrideParamsGroup,
      match SplitOnce(name)
      case Some((group, param)) =>
        if group == OverrideParamsGroup then client.overrideParams[param := value] else client.overrideParams
      case None => client.overrideParams)
  {
    var none: map<string, string> := map[];
    assert none[name := value] == map[name := value];
    assert IsParamsConfigured(client.defaultParams, none, DefaultParamsGroup, client.defaultParams);
    assert IsParamsConfigured(client.overrideParams, none, OverrideParamsGroup, client.overrideParams);
    match SplitOnce(name)
    case None =>
      ParamsConfiguredOther(client.defaultParams, none, DefaultParamsGroup, client.defaultParams, name, value);
      ParamsConfiguredOther(client.overrideParams, none, OverrideParamsGroup, client.overrideParams, name, value);
    case Some((group, param)) =>
      if group == DefaultParamsGroup {
        ParamsConfiguredSet(client.defaultParams, none, DefaultParamsGroup, client.defaultParams, name, param, value);
        ParamsConfiguredOther(client.overrideParams, none, OverrideParamsGroup, client.overrideParams, name, value);
      } else if group == OverrideParamsGroup {
        ParamsConfiguredOther(client.defaultParams, none, DefaultParamsGroup, client.defaultParams, name, value);
        ParamsConfiguredSet(client.overrideParams, none, OverrideParamsGroup, client.overrideParams, name, param, value);
      } else {
        ParamsConfiguredOther(client.defaultParams, none, DefaultParamsGroup, client.defaultParams, name, value);
        ParamsConfiguredOther(client.overrideParams, none, OverrideParamsGroup, client.overrideParams, name, value);
      }
  }

  /** `r` is the parameter map `params` after every `<group>.K` setting: each
      such K is set to the setting's value, every other K keeps its value. */
  ghost predicate IsParamsConfigured(params: map<string, string>, settings: map<string, string>,
                                     group: string, r: map<string, string>)
  {
    && (forall p {:trigger Join(group, p)} :: p in r <==> p in params || Join(group, p) in settings)
    && (forall p {:trigger Join(group, p)} :: p in r ==>
          r[p] == if Join(group, p) in settings then settings[Join(group, p)] else params[p])
  }

  /** `r` is the client `client` after every setting of `settings`: each
      recognised name sets its field, `nonce_enabled` to true only for the
      exact value "Y", `nonce_length` to the value's Atoi, and the dotted
      parameter settings only the parameter they name. */
  ghost predicate IsClientConfigured(client: Client, settings: map<string, string>, r: Client)
  {
    && FieldsConfigured(client, settings, r)
    && IsParamsConfigured(client.defaultParams, settings, DefaultParamsGroup, r.defaultParams)
    && IsParamsConfigured(client.overrideParams, settings, OverrideParamsGroup, r.overrideParams)
  }

  /** The six plain fields of `r` are those of `client` after `settings`. */
  ghost predicate FieldsConfigured(client: Client, settings: map<string, string>, r: Client)
  {
    && r.gwUrl == (if "gwurl" in settings then settings["gwurl"] else client.gwUrl)
    && r.gwAddr == (if "gwaddr" in settings then settings["gwaddr"] else client.gwAddr)
    && r.appId == (if "appid" in settings then settings["appid"] else client.appId)
    && r.signKey == (if "sign_key" in settings then settings["sign_key"] else client.signKey)
    && r.nonceEnabled == (if "nonce_enabled" in settings then settings["nonce_enabled"] == "Y" else client.nonceEnabled)
    && r.nonceLength == (if "nonce_length" in settings then Atoi(settings["nonce_length"]) else client.nonceLength)
  }

  /** One more setting updates the plain fields as the switch does. */
  lemma FieldsConfiguredInsert(client: Client, settings: map<string, string>, r: Client,
                               name: string, value: string)
    requires name !in settings && FieldsConfigured(client, settings, r)
    ensures FieldsConfigured(client, settings[name := value], ApplyClientSetting(r, name, value))
  {
  }

  /** A setting that is not `<group>.K` leaves a parameter group's view as
      it is. */
  lemma ParamsConfiguredOther(params: map<string, string>, settings: map<string, string>, group: string,
                              r: map<string, string>, name: string, value: string)
    requires '.' !in group && name !in settings
    requires SplitOnce(name).None? || SplitOnce(name).value.0 != group
    requires IsParamsConfigured(params, settings, group, r)
    ensures IsParamsConfigured(params, settings[name := value], group, r)
  {
    var settings' := settings[name := value];
    forall p {:trigger Join(group, p)}
      ensures p in r <==> p in params || Join(group, p) in settings'
      ensures p in r ==> r[p] == if Join(group, p) in settings' then settings'[Join(group, p)] else params[p]
    {
      SplitOnceJoin(group, p);
      assert Join(group, p) != name;
    }
    assert IsParamsConfigured(params, settings', group, r);
  }

  /** The setting `<group>.K` sets K in the group's view and nothing else. */
  lemma ParamsConfiguredSet(params: map<string, string>, settings: map<string, string>, group: string,
                            r: map<string, string>, name: string, param: string, value: string)
    requires '.' !in group && name !in settings
    requires SplitOnce(name) == Some((group, param))
    requires IsParamsConfigured(params, settings, group, r)
    ensures IsParamsConfigured(params, settings[name := value], group, r[param := value])
  {
    var settings' := settings[name := value];
    var r' := r[param := value];
    assert name == Join(group, param);
    forall p {:trigger Join(group, p)}
      ensures p in r' <==> p in params || Join(group, p) in settings'
      ensures p in r' ==> r'[p] == if Join(group, p) in settings' then settings'[Join(group, p)] else params[p]
    {
      var key := Join(group, p);
      if p != param {
        SplitOnceJoin(group, p);
        assert key != name;
        assert p in r <==> p in params || key in settings;
      }
    }
    assert IsParamsConfigured(params, settings', group, r');
  }

  /** The switch changes a parameter map only for a dotted name in that
      map's group: a plain field name has no dot. */
  lemma ApplyClientSettingParams(r: Client, name: string, value: string)
    ensures ApplyClientSetting(r, name, value).defaultParams ==
      match SplitOnce(name)
      case Some((group, param)) => if group == DefaultParamsGroup then r.defaultParams[param := value] else r.defaultParams
      case None => r.defaultParams
    ensures ApplyClientSetting(r, name, value).overrideParams ==
      match SplitOnce(name)
      case Some((group, param)) => if group == OverrideParamsGroup then r.overrideParams[param := value] else r.overrideParams
      case None => r.overrideParams
  {
    var r' := ApplyClientSetting(r, name, value);
    ParamsConfiguredSingle(r, name, value);
    ParamsConfiguredUnique(r.defaultParams, map[name := value], DefaultParamsGroup, r'.defaultParams,
      match SplitOnce(name)
      case Some((group, param)) => if group == DefaultParamsGroup then r.defaultParams[param := value] else r.defaultParams
      case None => r.defaultParams);
    ParamsConfiguredUnique(r.overrideParams, map[name := value], OverrideParamsGroup, r'.overrideParams,
      match SplitOnce(name)
      case Some((group, param)) => if group == OverrideParamsGroup then r.overrideParams[param := value] else r.overrideParams
      case None => r.overrideParams);
  }

  /** The client view extended by one setting is the switch applied to it:
      applying the settings one by one, in any order, builds the view. */
  lemma ClientConfiguredInsert(client: Client, settings: map<string, string>, r: Client,
                               name: string, value: string)
    requires name !in settings && IsClientConfigured(client, settings, r)
    ensures IsClientConfigured(client, settings[name := value], ApplyClientSetting(r, name, value))
  {
    FieldsConfiguredInsert(client, settings, r, name, value);
    ApplyClientSettingParams(r, name, value);
    var split := SplitOnce(name);
    if split.None? || split.value.0 !in {DefaultParamsGroup, OverrideParamsGroup} {
      ParamsConfiguredOther(client.defaultParams, settings, DefaultParamsGroup, r.defaultParams, name, value);
      ParamsConfiguredOther(client.overrideParams, settings, OverrideParamsGroup, r.overrideParams, name, value);
    } else {
      var (group, param) := split.value;
      if group == DefaultParamsGroup {
        ParamsConfiguredSet(client.defaultParams, settings, DefaultParamsGroup, r.defaultParams, name, param, value);
        ParamsConfiguredOther(client.overrideParams, settings, OverrideParamsGroup, r.overrideParams, name, value);
      } else {
        ParamsConfiguredOther(client.defaultParams, settings, DefaultParamsGroup, r.defaultParams, name, value);
        ParamsConfiguredSet(client.overrideParams, settings, OverrideParamsGroup, r.overrideParams, name, param, value);
      }
    }
  }

  /** A parameter group's view is unique. */
  lemma ParamsConfiguredUnique(params: map<string, string>, settings: map<string, string>, group: string,
                               r: map<string, string>, r': map<string, string>)
    requires IsParamsConfigured(params, settings, group, r) && IsParamsConfigured(params, settings, group, r')
    ensures r == r'
  {
    forall p ensures p in r <==> p in r' {
      var key := Join(group, p);
      assert p in r <==> p in params || key in settings;
    }
    forall p | p in r ensures r[p] == r'[p] {
      var key := Join(group, p);
      assert p in r';
    }
  }

  /** Every client and settings map have a configured view, built setting by
      setting. */
  lemma {:induction false} ClientConfiguredExists(client: Client, settings: map<string, string>)
    ensures exists r :: IsClientConfigured(client, settings, r)
    decreases |settings|
  {
    if settings == map[] {
      assert IsClientConfigured(client, settings, client);
    } else {
      var name :| name in settings;
      var rest := settings - {name};
      assert |rest| < |settings| by { assert rest.Keys < settings.Keys; }
      ClientConfiguredExists(client, rest);
      var r :| IsClientConfigured(client, rest, r);
      ClientConfiguredInsert(client, rest, r, name, settings[name]);
      assert rest[name := settings[name]] == settings;
    }
  }

  /** The client after all of `settings`, independent of the order they are
      visited in. */
  ghost function ClientConfigured(client: Client, settings: map<string, string>): (r: Client)
    ensures IsClientConfigured(client, settings, r)
  {
    ClientConfiguredExists(client, settings);
    var r :| IsClientConfigured(client, settings, r);
    r
  }

  /** The configured client is unique. */
  lemma ClientConfiguredUnique(client: Client, settings: map<string, string>, r: Client)
    requires IsClientConfigured(client, settings, r)
    ensures r == ClientConfigured(client, settings)
  {
    var r' := ClientConfigured(client, settings);
    ParamsConfiguredUnique(client.defaultParams, settings, DefaultParamsGroup, r.defaultParams, r'.defaultParams);
    ParamsConfiguredUnique(client.overrideParams, settings, OverrideParamsGroup, r.overrideParams, r'.overrideParams);
  }

  /** The proxy applier's inner loop over one backend's settings. */
  method ApplyClientSettings(client: Client, settings: map<string, string>) returns (r: Client)
    ensures r == ClientConfigured(client, settings)
  {
    r := client;
    var rest := settings.Keys;
    ghost var seen: map<string, string> := map[];
    assert IsClientConfigured(client, seen, r);
    while rest != {}
      invariant rest !! seen.Keys && rest + seen.Keys == settings.Keys
      invariant forall k :: k in seen ==> seen[k] == settings[k]
      invariant IsClientConfigured(client, seen, r)
      decreases rest
    {
      var k :| k in rest;
      var v := settings[k];
      ClientConfiguredInsert(client, seen, r, k, v);
      r := ApplyClientSetting(r, k, v);
      rest, seen := rest - {k}, seen[k := v];
    }
    assert seen == settings;
    ClientConfiguredUnique(client, settings, r);
  }

  /** The proxy clients after the routed backend settings: a backend with a
      client gets its settings applied, every other client is untouched,
      and settings for an alias without a client are skipped. */
  ghost function ProxyConfigured(registry: map<string, Client>, proxyParams: map<string, map<string, string>>)
    : (r: map<string, Client>)
    ensures r.Keys == registry.Keys
    ensures forall alias :: alias in registry && alias !in proxyParams ==> r[alias] == registry[alias]
  {
    map alias | alias in registry ::
      if alias in proxyParams then ClientConfigured(registry[alias], proxyParams[alias]) else registry[alias]
  }

  /** The proxy applier's outer loop over the backend aliases. */
  method ApplyProxySettings(registry: map<string, Client>, proxyParams: map<string, map<string, string>>)
    returns (r: map<string, Client>)
    ensures r == ProxyConfigured(registry, proxyParams)
  {
    r := registry;
    var rest := proxyParams.Keys;
    while rest != {}
      invariant rest <= proxyParams.Keys
      invariant r.Keys == registry.Keys
      invariant forall alias :: alias in r ==>
        r[alias] == if alias in proxyParams && alias !in rest
                    then ClientConfigured(registry[alias], proxyParams[alias]) else registry[alias]
      decreases rest
    {
      var alias :| alias in rest;
      rest := rest - {alias};
      if alias !in r {
        continue;
      }
      var client := ApplyClientSettings(r[alias], proxyParams[alias]);
      r := r[alias := client];
    }
  }

  /** Settings for a backend alias that has no client change nothing. */
  lemma UnknownAliasSkipped(registry: map<string, Client>, proxyParams: map<string, map<string, string>>,
                            alias: string)
    requires alias !in registry
    ensures ProxyConfigured(registry, proxyParams) == ProxyConfigured(registry, proxyParams - {alias})
  {
  }

  /** `default_params.K` sets parameter K and nothing else. */
  lemma DefaultParamExample(client: Client, param: string, value: string)
    ensures ClientConfigured(client, map[Join(DefaultParamsGroup, param) := value])
         == client.(defaultParams := client.defaultParams[param := value])
  {
    var name := Join(DefaultParamsGroup, param);
    assert |name| > |"nonce_enabled"|;
    SplitOnceJoin(DefaultParamsGroup, param);
    ClientConfiguredUnique(client, map[name := value], ApplyClientSetting(client, name, value));
  }

  /** `nonce_enabled` turns the nonce on exactly for the value "Y". */
  lemma NonceEnabledSetting(client: Client, settings: map<string, string>)
    requires "nonce_enabled" in settings
    ensures ClientConfigured(client, settings).nonceEnabled <==> settings["nonce_enabled"] == "Y"
  {
  }

  /** A setting that is neither a client field name nor a dotted name in
      one of the two parameter groups changes nothing. */
  lemma ClientOtherNameIgnored(client: Client, settings: map<string, string>, name: string, value: string)
    requires name !in settings
    requires name !in {"gwurl", "gwaddr", "appid", "sign_key", "nonce_enabled", "nonce_length"}
    requires SplitOnce(name).None? || SplitOnce(name).value.0 !in {DefaultParamsGroup, OverrideParamsGroup}
    ensures ClientConfigured(client, settings[name := value]) == ClientConfigured(client, settings)
  {
    var r := ClientConfigured(client, settings);
    ClientConfiguredInsert(client, settings, r, name, value);
    assert ApplyClientSetting(r, name, value) == r;
    ClientConfiguredUnique(client, settings[name := value], r);
  }

  /** A non-numeric `nonce_length` sets the nonce length to 0: Atoi's value on
      a syntax error is assigned and its error dropped. */
  lemma NonNumericNonceLength(client: Client, settings: map<string, string>)
    requires "nonce_length" in settings && !IsDecimal(settings["nonce_length"])
    ensures ClientConfigured(client, settings).nonceLength == 0
  {
  }
}
