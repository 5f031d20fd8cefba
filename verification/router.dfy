/** The parameter router of the `APIBox.Init` action: flat dotted keys are
    split once on their first dot and grouped into the signing settings
    (`apisign.<name>`) and the per-backend proxy settings
    (`apiproxy.<alias>.<name>`). */
module Router {
  import opened Wrappers
  import opened Text

  const SignMiddleware := "apisign"
  const ProxyMiddleware := "apiproxy"
  const SignPrefix := SignMiddleware + "."
  const ProxyPrefix := ProxyMiddleware + "."

  /** Where one parameter key is routed. */
  datatype KeyRoute =
    | Dropped
    | SignSetting(name: string)
    | ProxySetting(alias: string, name: string)

  /** The key a signing setting is read from: `apisign.<name>`. */
  function SignKey(name: string): string
  {
    SignPrefix + name
  }

  /** The prefix shared by every setting of one backend: `apiproxy.<alias>.`. */
  function AliasPrefix(alias: string): string
  {
    ProxyPrefix + alias + "."
  }

  /** The key a backend's setting is read from: `apiproxy.<alias>.<name>`. */
  function ProxyKey(alias: string, name: string): string
  {
    AliasPrefix(alias) + name
  }

  /** The routing decision the grouping loop takes for one key: split once
      on the first dot, then, under `apiproxy`, once more. A key without a
      dot is dropped, and a backend alias never holds a dot. */
  function Classify(key: string): (r: KeyRoute)
    ensures '.' !in key ==> r == Dropped
    ensures r.ProxySetting? ==> '.' !in r.alias
  {
    match SplitOnce(key)
    case None => Dropped
    case Some((target, rest)) =>
      if target == SignMiddleware then SignSetting(rest)
      else if target == ProxyMiddleware then
        match SplitOnce(rest)
        case None => Dropped
        case Some((alias, name)) => ProxySetting(alias, name)
      else Dropped
  }

  /** A routed key is exactly the key its route is read from, so no two keys
      are routed to the same place. */
  lemma ClassifyInverse(key: string)
    ensures Classify(key).SignSetting? ==> key == SignKey(Classify(key).name)
    ensures Classify(key).ProxySetting? ==>
      '.' !in Classify(key).alias && key == ProxyKey(Classify(key).alias, Classify(key).name)
  {
    match SplitOnce(key)
    case None =>
    case Some((target, rest)) =>
      assert key == Join(target, rest);
      if target == SignMiddleware {
        assert Classify(key) == SignSetting(rest);
        assert key == SignKey(rest);
      } else if target == ProxyMiddleware {
        match SplitOnce(rest)
        case None =>
        case Some((alias, name)) =>
          assert Classify(key) == ProxySetting(alias, name);
          assert rest == Join(alias, name);
          calc {
            key;
            ProxyPrefix + (alias + "." + name);
            ProxyPrefix + alias + "." + name;
            ProxyKey(alias, name);
          }
      }
  }

  /** `apisign.X` is routed to the signing setting X, further dots included. */
  lemma ClassifySignKey(name: string)
    ensures Classify(SignKey(name)) == SignSetting(name)
  {
    assert SignKey(name) == Join(SignMiddleware, name);
    SplitOnceJoin(SignMiddleware, name);
  }

  /** `apiproxy.A.S` is routed to setting S of backend A. */
  lemma ClassifyProxyKey(alias: string, name: string)
    requires '.' !in alias
    ensures Classify(ProxyKey(alias, name)) == ProxySetting(alias, name)
  {
    assert ProxyKey(alias, name) == Join(ProxyMiddleware, Join(alias, name));
    SplitOnceJoin(ProxyMiddleware, Join(alias, name));
    SplitOnceJoin(alias, name);
  }

  /** A key is dropped exactly when it has neither routed form: no dot, a
      first segment other than the two middlewares, or `apiproxy.A` without a
      second dot. */
  lemma ClassifyDropped(key: string)
    ensures Classify(key) == Dropped <==>
      (forall name :: key != SignKey(name)) &&
      (forall alias, name :: '.' !in alias ==> key != ProxyKey(alias, name))
  {
    ClassifyInverse(key);
    forall name ensures Classify(SignKey(name)) == SignSetting(name) {
      ClassifySignKey(name);
    }
    forall alias, name | '.' !in alias
      ensures Classify(ProxyKey(alias, name)) == ProxySetting(alias, name)
    {
      ClassifyProxyKey(alias, name);
    }
  }

  /** `signParams` holds exactly the signing settings of `params`: one entry
      per `apisign.<name>` key, under `<name>`, with that key's value. */
  ghost predicate IsSignParams(params: map<string, string>, signParams: map<string, string>)
  {
    && (forall name {:trigger SignKey(name)} :: name in signParams <==> SignKey(name) in params)
    && (forall name {:trigger SignKey(name)} :: name in signParams ==> signParams[name] == params[SignKey(name)])
  }

  /** `proxyParams` holds exactly the backend settings of `params`: one inner
      map per dot-free alias that some `apiproxy.<alias>.<name>` key names,
      with one entry per such key. */
  ghost predicate IsProxyParams(params: map<string, string>, proxyParams: map<string, map<string, string>>)
  {
    && (forall alias, name {:trigger ProxyKey(alias, name)} ::
          alias in proxyParams && name in proxyParams[alias] <==> '.' !in alias && ProxyKey(alias, name) in params)
    && (forall alias, name {:trigger ProxyKey(alias, name)} ::
          alias in proxyParams && name in proxyParams[alias] ==> proxyParams[alias][name] == params[ProxyKey(alias, name)])
    && (forall alias :: alias in proxyParams ==> proxyParams[alias] != map[])
  }

  /** Adding one key to the parameters adds at most one signing setting. */
  lemma SignParamsInsert(params: map<string, string>, signParams: map<string, string>, key: string, value: string)
    requires key !in params && IsSignParams(params, signParams)
    ensures IsSignParams(params[key := value],
      match Classify(key)
      case SignSetting(name) => signParams[name := value]
      case _ => signParams)
  {
    ClassifyInverse(key);
    forall name ensures Classify(SignKey(name)) == SignSetting(name) {
      ClassifySignKey(name);
    }
  }

  /** Distinct backend settings are read from distinct keys. */
  lemma ProxyKeyInjective(alias: string, name: string, alias': string, name': string)
    requires '.' !in alias && '.' !in alias'
    requires ProxyKey(alias, name) == ProxyKey(alias', name')
    ensures alias == alias' && name == name'
  {
    ClassifyProxyKey(alias, name);
    ClassifyProxyKey(alias', name');
  }

  /** Adding one key to the parameters adds at most one backend setting,
      creating the backend's inner map on first use. */
  lemma ProxyParamsInsert(params: map<string, string>, proxyParams: map<string, map<string, string>>,
                          key: string, value: string)
    requires key !in params && IsProxyParams(params, proxyParams)
    ensures IsProxyParams(params[key := value],
      match Classify(key)
      case ProxySetting(alias, name) =>
        var inner := if alias in proxyParams then proxyParams[alias] else map[];
        proxyParams[alias := inner[name := value]]
      case _ => proxyParams)
  {
    ClassifyInverse(key);
    var params' := params[key := value];
    match Classify(key)
    case ProxySetting(alias, name) =>
      var inner := if alias in proxyParams then proxyParams[alias] else map[];
      var r := proxyParams[alias := inner[name := value]];
      forall a, n {:trigger ProxyKey(a, n)}
        ensures a in r && n in r[a] <==> '.' !in a && ProxyKey(a, n) in params'
        ensures a in r && n in r[a] ==> r[a][n] == params'[ProxyKey(a, n)]
      {
        if '.' !in a && ProxyKey(a, n) == key {
          ProxyKeyInjective(a, n, alias, name);
        } else if a == alias {
          assert '.' !in a ==> ProxyKey(a, n) != key;
          assert n in r[a] <==> n == name || n in inner;
        }
      }
      assert IsProxyParams(params', r);
    case _ =>
      forall a, n | '.' !in a ensures ProxyKey(a, n) != key {
        ClassifyProxyKey(a, n);
      }
  }

  /** Every parameter set has its signing settings, built key by key. */
  lemma {:induction false} SignParamsExist(params: map<string, string>)
    ensures exists signParams :: IsSignParams(params, signParams)
    decreases |params|
  {
    if params == map[] {
      assert IsSignParams(params, map[]);
    } else {
      var key :| key in params;
      var rest := params - {key};
      assert |rest| < |params| by { assert rest.Keys < params.Keys; }
      assert rest[key := params[key]] == params;
      SignParamsExist(rest);
      var signParams :| IsSignParams(rest, signParams);
      SignParamsInsert(rest, signParams, key, params[key]);
    }
  }

  /** One more parameter keeps the backend settings defined. */
  lemma ProxyParamsStep(rest: map<string, string>, params: map<string, string>, key: string)
    requires key in params && key !in rest && params == rest[key := params[key]]
    requires exists proxyParams :: IsProxyParams(rest, proxyParams)
    ensures exists proxyParams :: IsProxyParams(params, proxyParams)
  {
    var proxyParams :| IsProxyParams(rest, proxyParams);
    ProxyParamsInsert(rest, proxyParams, key, params[key]);
  }

  /** Every parameter set has its backend settings, built key by key. */
  lemma {:induction false} ProxyParamsExist(params: map<string, string>)
    ensures exists proxyParams :: IsProxyParams(params, proxyParams)
    decreases |params|
  {
    if params == map[] {
      assert IsProxyParams(params, map[]);
    } else {
      var key :| key in params;
      var rest := params - {key};
      assert |rest| < |params| by { assert rest.Keys < params.Keys; }
      assert rest[key := params[key]] == params;
      ProxyParamsExist(rest);
      ProxyParamsStep(rest, params, key);
    }
  }

  /** The signing settings of a parameter set are unique. */
  lemma SignParamsUnique(params: map<string, string>, s1: map<string, string>, s2: map<string, string>)
    requires IsSignParams(params, s1) && IsSignParams(params, s2)
    ensures s1 == s2
  {
    forall name ensures name in s1 <==> name in s2 {
      var key := SignKey(name);
      assert name in s1 <==> key in params;
    }
    forall name | name in s1 ensures s1[name] == s2[name] {
      assert SignKey(name) in params;
    }
  }

  /** The backend settings of a parameter set are unique. */
  lemma ProxyParamsUnique(params: map<string, string>, p1: map<string, map<string, string>>,
                          p2: map<string, map<string, string>>)
    requires IsProxyParams(params, p1) && IsProxyParams(params, p2)
    ensures p1 == p2
  {
    forall a, n ensures a in p1 && n in p1[a] <==> a in p2 && n in p2[a] {
      var key := ProxyKey(a, n);
      assert a in p1 && n in p1[a] <==> '.' !in a && key in params;
    }
    forall a | a in p1 ensures a in p2 {
      var n :| n in p1[a];
      assert ProxyKey(a, n) in params;
    }
    forall a | a in p2 ensures a in p1 {
      var n :| n in p2[a];
      assert ProxyKey(a, n) in params;
    }
    forall a | a in p1 ensures p1[a] == p2[a] {
      forall n ensures n in p1[a] <==> n in p2[a] {
        var key := ProxyKey(a, n);
        assert n in p1[a] <==> '.' !in a && key in params;
      }
      forall n | n in p1[a] ensures p1[a][n] == p2[a][n] {
        assert ProxyKey(a, n) in params;
      }
    }
  }

  /** The signing settings of a parameter set, keyed by setting name. */
  ghost function SignParamsOf(params: map<string, string>): (r: map<string, string>)
    ensures IsSignParams(params, r)
  {
    SignParamsExist(params);
    var r :| IsSignParams(params, r);
    r
  }

  /** The backend settings of a parameter set, keyed by alias, then by name. */
  ghost function ProxyParamsOf(params: map<string, string>): (r: map<string, map<string, string>>)
    ensures IsProxyParams(params, r)
  {
    ProxyParamsExist(params);
    var r :| IsProxyParams(params, r);
    r
  }

  /** The grouping loop: every key is routed once, by in-place inserts into
      the two result maps. */
  method Route(params: map<string, string>)
    returns (signParams: map<string, string>, proxyParams: map<string, map<string, string>>)
    ensures signParams == SignParamsOf(params)
    ensures proxyParams == ProxyParamsOf(params)
  {
    signParams, proxyParams := map[], map[];
    var rest := params.Keys;
    ghost var seen: map<string, string> := map[];
    while rest != {}
      invariant rest !! seen.Keys && rest + seen.Keys == params.Keys
      invariant forall k :: k in seen ==> seen[k] == params[k]
      invariant IsSignParams(seen, signParams)
      invariant IsProxyParams(seen, proxyParams)
      decreases rest
    {
      var k :| k in rest;
      var v := params[k];
      SignParamsInsert(seen, signParams, k, v);
      ProxyParamsInsert(seen, proxyParams, k, v);
      rest, seen := rest - {k}, seen[k := v];
      match SplitOnce(k)
      case None =>
      case Some((target, suffix)) =>
        if target == SignMiddleware {
          signParams := signParams[suffix := v];
        } else if target == ProxyMiddleware {
          match SplitOnce(suffix)
          case None =>
          case Some((alias, name)) =>
            if alias !in proxyParams {
              proxyParams := proxyParams[alias := map[]];
            }
            proxyParams := proxyParams[alias := proxyParams[alias][name := v]];
        }
    }
    assert seen == params;
    SignParamsUnique(params, signParams, SignParamsOf(params));
    ProxyParamsUnique(params, proxyParams, ProxyParamsOf(params));
  }

  /** How the four keys of the example request below are routed. */
  lemma ExampleSignKey()
    ensures Classify("apisign.sign_key") == SignSetting("sign_key")
  {
    assert "apisign.sign_key" == SignKey("sign_key");
    ClassifySignKey("sign_key");
  }

  lemma ExampleProxyKey()
    ensures Classify("apiproxy.b1.gwurl") == ProxySetting("b1", "gwurl")
  {
    assert "apiproxy.b1.gwurl" == ProxyKey("b1", "gwurl");
    ClassifyProxyKey("b1", "gwurl");
  }

  lemma ExampleOtherKey()
    ensures Classify("foo.bar") == Dropped
  {
    assert "foo.bar" == Join("foo", "bar");
    SplitOnceJoin("foo", "bar");
  }

  lemma ExampleUndottedKey()
    ensures Classify("noDot") == Dropped
  {
  }

  /** Of the four example keys, only `apisign.sign_key` is a signing key. */
  lemma ExampleSignName(name: string)
    ensures SignKey(name) == "apisign.sign_key" <==> name == "sign_key"
    ensures SignKey(name) != "apiproxy.b1.gwurl" && SignKey(name) != "foo.bar" && SignKey(name) != "noDot"
  {
    var key := SignKey(name);
    assert key[0] == 'a' && key[7] == '.';
    if key == "apisign.sign_key" {
      assert name == key[8..];
    }
  }

  /** Of the four example keys, only `apiproxy.b1.gwurl` is a backend key. */
  lemma ExampleProxyName(alias: string, name: string)
    requires '.' !in alias
    ensures ProxyKey(alias, name) == "apiproxy.b1.gwurl" <==> alias == "b1" && name == "gwurl"
    ensures ProxyKey(alias, name) != "apisign.sign_key" && ProxyKey(alias, name) != "foo.bar"
      && ProxyKey(alias, name) != "noDot"
  {
    var key := ProxyKey(alias, name);
    assert key[0] == 'a' && key[3] == 'p';
    if key == "apiproxy.b1.gwurl" {
      ClassifyProxyKey(alias, name);
      ExampleProxyKey();
    }
  }

  /** The router applied to a four-key request: one signing setting, one
      backend setting, and two dropped keys. */
  lemma RouteExample()
    ensures var params := map["apisign.sign_key" := "abc", "apiproxy.b1.gwurl" := "http://x",
                              "foo.bar" := "z", "noDot" := "y"];
      SignParamsOf(params) == map["sign_key" := "abc"] &&
      ProxyParamsOf(params) == map["b1" := map["gwurl" := "http://x"]]
  {
    var params := map["apisign.sign_key" := "abc", "apiproxy.b1.gwurl" := "http://x",
                      "foo.bar" := "z", "noDot" := "y"];
    var sp, pp := map["sign_key" := "abc"], map["b1" := map["gwurl" := "http://x"]];
    forall name ensures name in sp <==> SignKey(name) in params {
      ExampleSignName(name);
    }
    forall name | name in sp ensures sp[name] == params[SignKey(name)] {
      ExampleSignName(name);
    }
    assert IsSignParams(params, sp);
    forall alias, name | '.' !in alias
      ensures alias in pp && name in pp[alias] <==> ProxyKey(alias, name) in params
    {
      ExampleProxyName(alias, name);
    }
    forall alias, name | alias in pp && name in pp[alias]
      ensures '.' !in alias && pp[alias][name] == params[ProxyKey(alias, name)]
    {
      ExampleProxyName(alias, name);
    }
    assert "gwurl" in pp["b1"];
    assert IsProxyParams(params, pp);
    SignParamsUnique(params, sp, SignParamsOf(params));
    ProxyParamsUnique(params, pp, ProxyParamsOf(params));
  }
}
