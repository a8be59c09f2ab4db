/**
 JSON-RPC endpoint selection for a network name.

 A custom per-network URL wins first, then an Alchemy URL when an Alchemy
 key is set, then an Infura URL; a name outside the four public networks
 (and "riochain" without its custom URL) yields no endpoint at all.
 */
module Endpoint {
  import opened Wrappers
  import opened Environment

  /** The variable naming a custom RPC URL for a network, if that network has one. */
  function CustomUrlVar(network: string): (r: Option<string>)
  {
    if network == "mainnet" then Some("MAINNET_RPC_URL")
    else if network == "ropsten" then Some("ROPSTEN_RPC_URL")
    else if network == "rinkeby" then Some("RINKEBY_RPC_URL")
    else if network == "kovan" then Some("KOVAN_RPC_URL")
    else if network == "riochain" then Some("RIOCHAIN_RPC_URL")
    else None
  }

  /** The custom URL variable of `network` exists and is set. */
  predicate HasCustomUrl(env: Env, network: string)
  {
    CustomUrlVar(network).Some? && IsSet(env, CustomUrlVar(network).value)
  }

  /** The Alchemy URL prefix of each public network. */
  function AlchemyPrefix(network: string): (r: Option<string>)
  {
    if network == "mainnet" then Some("https://eth-mainnet.alchemyapi.io/v2/")
    else if network == "ropsten" then Some("https://eth-ropsten.alchemyapi.io/v2/")
    else if network == "rinkeby" then Some("https://eth-rinkeby.alchemyapi.io/v2/")
    else if network == "kovan" then Some("https://eth-kovan.alchemyapi.io/v2/")
    else None
  }

  /** The Infura URL prefix of each public network. */
  function InfuraPrefix(network: string): (r: Option<string>)
  {
    if network == "mainnet" then Some("https://mainnet.infura.io/v3/")
    else if network == "ropsten" then Some("https://ropsten.infura.io/v3/")
    else if network == "rinkeby" then Some("https://rinkeby.infura.io/v3/")
    else if network == "kovan" then Some("https://kovan.infura.io/v3/")
    else None
  }

  /** Both provider prefixes of `net` are its name wrapped in the provider's URL pattern. */
  predicate PrefixesFollowPattern(net: Network)
  {
    && AlchemyPrefix(net.Name()) == Some("https://eth-" + net.Name() + ".alchemyapi.io/v2/")
    && InfuraPrefix(net.Name()) == Some("https://" + net.Name() + ".infura.io/v3/")
  }

  // One lemma per network keeps each string comparison a separate, small proof.

  lemma MainnetPrefixes()
    ensures PrefixesFollowPattern(Mainnet)
  {
    assert "https://eth-" + "mainnet" + ".alchemyapi.io/v2/" == "https://eth-mainnet.alchemyapi.io/v2/";
    assert "https://" + "mainnet" + ".infura.io/v3/" == "https://mainnet.infura.io/v3/";
  }

  lemma RopstenPrefixes()
    ensures PrefixesFollowPattern(Ropsten)
  {
    assert "https://eth-" + "ropsten" + ".alchemyapi.io/v2/" == "https://eth-ropsten.alchemyapi.io/v2/";
    assert "https://" + "ropsten" + ".infura.io/v3/" == "https://ropsten.infura.io/v3/";
  }

  lemma RinkebyPrefixes()
    ensures PrefixesFollowPattern(Rinkeby)
  {
    assert "https://eth-" + "rinkeby" + ".alchemyapi.io/v2/" == "https://eth-rinkeby.alchemyapi.io/v2/";
    assert "https://" + "rinkeby" + ".infura.io/v3/" == "https://rinkeby.infura.io/v3/";
  }

  lemma KovanPrefixes()
    ensures PrefixesFollowPattern(Kovan)
  {
    assert "https://eth-" + "kovan" + ".alchemyapi.io/v2/" == "https://eth-kovan.alchemyapi.io/v2/";
    assert "https://" + "kovan" + ".infura.io/v3/" == "https://kovan.infura.io/v3/";
  }

  /** Every public network's provider prefixes follow the providers' URL patterns. */
  lemma NetworkPrefixes(net: Network)
    ensures PrefixesFollowPattern(net)
  {
    match net {
      case Mainnet => MainnetPrefixes();
      case Ropsten => RopstenPrefixes();
      case Rinkeby => RinkebyPrefixes();
      case Kovan => KovanPrefixes();
    }
  }

  /** `get_endpoint_url(network_name)` evaluated against `env`; `None` is `undefined`. */
  function EndpointUrl(env: Env, network: string): (r: Option<string>)
    ensures r.Some? <==> IsPublicNetwork(network) || (network == "riochain" && IsSet(env, "RIOCHAIN_RPC_URL"))
    ensures r.Some? ==> r.value != ""
  {
    if IsSet(env, "MAINNET_RPC_URL") && network == "mainnet" then Some(env["MAINNET_RPC_URL"])
    else if IsSet(env, "ROPSTEN_RPC_URL") && network == "ropsten" then Some(env["ROPSTEN_RPC_URL"])
    else if IsSet(env, "RINKEBY_RPC_URL") && network == "rinkeby" then Some(env["RINKEBY_RPC_URL"])
    else if IsSet(env, "KOVAN_RPC_URL") && network == "kovan" then Some(env["KOVAN_RPC_URL"])
    else if IsSet(env, "RIOCHAIN_RPC_URL") && network == "riochain" then Some(env["RIOCHAIN_RPC_URL"])
    else if IsSet(env, "ALCHEMY_KEY") && AlchemyPrefix(network).Some? then
      Some(AlchemyPrefix(network).value + env["ALCHEMY_KEY"])
    else if InfuraPrefix(network).Some? then
      Some(InfuraPrefix(network).value + JsText(Lookup(env, "INFURA_KEY")))
    else None
  }

  /** A set custom URL for the requested network is returned verbatim, whatever the API keys hold. */
  lemma CustomUrlWins(env: Env, network: string)
    requires HasCustomUrl(env, network)
    ensures EndpointUrl(env, network) == Some(env[CustomUrlVar(network).value])
  {
  }

  /** Without a custom URL and with an Alchemy key, a public network gets its Alchemy URL. */
  lemma AlchemyBeforeInfura(env: Env, net: Network)
    requires !HasCustomUrl(env, net.Name())
    requires IsSet(env, "ALCHEMY_KEY")
    ensures EndpointUrl(env, net.Name()) == Some("https://eth-" + net.Name() + ".alchemyapi.io/v2/" + env["ALCHEMY_KEY"])
  {
    NetworkPrefixes(net);
  }

  /** Without a custom URL or Alchemy key, a public network falls back to Infura, `undefined` key and all. */
  lemma InfuraFallback(env: Env, net: Network)
    requires !HasCustomUrl(env, net.Name())
    requires !IsSet(env, "ALCHEMY_KEY")
    ensures EndpointUrl(env, net.Name()) == Some("https://" + net.Name() + ".infura.io/v3/" + JsText(Lookup(env, "INFURA_KEY")))
  {
    NetworkPrefixes(net);
  }

  /** Any other name, "riochain" without its custom URL included, has no endpoint. */
  lemma UnknownNetworkHasNoEndpoint(env: Env, network: string)
    requires !IsPublicNetwork(network)
    requires !HasCustomUrl(env, network)
    ensures EndpointUrl(env, network) == None
  {
  }

  /** The variables the selection for `network` reads. */
  function ReadVars(network: string): (r: set<string>)
  {
    (if CustomUrlVar(network).Some? then {CustomUrlVar(network).value} else {}) + {"ALCHEMY_KEY", "INFURA_KEY"}
  }

  /** Two environments that agree on the variables read for `network` select the same endpoint. */
  lemma EndpointReadsOnly(env1: Env, env2: Env, network: string)
    requires forall v :: v in ReadVars(network) ==> Lookup(env1, v) == Lookup(env2, v)
    ensures EndpointUrl(env1, network) == EndpointUrl(env2, network)
  {
    assert Lookup(env1, "ALCHEMY_KEY") == Lookup(env2, "ALCHEMY_KEY");
    assert Lookup(env1, "INFURA_KEY") == Lookup(env2, "INFURA_KEY");
    if CustomUrlVar(network).Some? {
      var v := CustomUrlVar(network).value;
      assert Lookup(env1, v) == Lookup(env2, v);
    }
  }

  /** A custom URL variable of one network never changes the endpoint of a different network. */
  lemma CustomUrlIsolated(env: Env, network: string, other: string, url: string)
    requires other != network
    requires CustomUrlVar(other).Some?
    ensures EndpointUrl(env[CustomUrlVar(other).value := url], network) == EndpointUrl(env, network)
  {
    var v := CustomUrlVar(other).value;
    forall w | w in ReadVars(network)
      ensures Lookup(env[v := url], w) == Lookup(env, w)
    {
    }
    EndpointReadsOnly(env[v := url], env, network);
  }
}
