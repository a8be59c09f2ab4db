/**
 The start-up rewrite of the environment.

 Before the configuration is built, each public network's credentials are
 checked: with neither a mnemonic nor a private key set, the well-known
 test mnemonic is filled in; with a private key that lacks the `0x`
 prefix, the prefix is added. With neither API key set, both are set to
 the empty string; a missing Etherscan key becomes the empty string. The
 blocks run in source order and each touches only its own variables.
 */
module EnvSetup {
  import opened Wrappers
  import opened Environment

  /** The mnemonic used when a network has no credentials at all. */
  const FakeMnemonic: string := "test test test test test test test test test test test junk"

  /** The key as a `0x`-prefixed hex string: an already prefixed key is kept. */
  function WithHexPrefix(key: string): (r: string)
    ensures StartsWith(r, "0x")
    ensures r == key || r == "0x" + key
    ensures r == key <==> StartsWith(key, "0x")
  {
    if StartsWith(key, "0x") then key else "0x" + key
  }

  /** Adding the prefix a second time changes nothing. */
  lemma WithHexPrefixIdempotent(key: string)
    ensures WithHexPrefix(WithHexPrefix(key)) == WithHexPrefix(key)
    ensures WithHexPrefix(key)[|WithHexPrefix(key)| - |key|..] == key
  {
  }

  /** The credential check of one network leaves it with usable credentials. */
  predicate AccountReady(env: Env, net: Network)
  {
    && (IsSet(env, net.MnemonicVar()) || IsSet(env, net.KeyVar()))
    && (IsSet(env, net.KeyVar()) ==> StartsWith(env[net.KeyVar()], "0x"))
  }

  /** The credential check of one network (one `if / else if` pair of the start-up block). */
  function SetUpAccount(env: Env, net: Network): (r: Env)
    ensures AccountReady(r, net)
    ensures forall v :: v != net.MnemonicVar() && v != net.KeyVar() ==> Lookup(r, v) == Lookup(env, v)
    ensures IsSet(env, net.KeyVar()) ==> Lookup(r, net.KeyVar()) == Some(WithHexPrefix(env[net.KeyVar()]))
    ensures !IsSet(env, net.KeyVar()) ==> Lookup(r, net.KeyVar()) == Lookup(env, net.KeyVar())
    ensures !IsSet(env, net.MnemonicVar()) && !IsSet(env, net.KeyVar()) ==> Lookup(r, net.MnemonicVar()) == Some(FakeMnemonic)
    ensures IsSet(env, net.MnemonicVar()) || IsSet(env, net.KeyVar()) ==> Lookup(r, net.MnemonicVar()) == Lookup(env, net.MnemonicVar())
  {
    var m, k := net.MnemonicVar(), net.KeyVar();
    if !IsSet(env, m) && !IsSet(env, k) then env[m := FakeMnemonic]
    else if IsSet(env, k) && !StartsWith(env[k], "0x") then env[k := "0x" + env[k]]
    else env
  }

  /** A network's credential state carries over to an environment that agrees on its two variables. */
  lemma AccountReadyCarries(env: Env, r: Env, net: Network)
    requires AccountReady(env, net)
    requires Lookup(r, net.MnemonicVar()) == Lookup(env, net.MnemonicVar())
    requires Lookup(r, net.KeyVar()) == Lookup(env, net.KeyVar())
    ensures AccountReady(r, net)
  {
  }

  /** The networks whose credentials are checked, in source order. */
  const PublicNetworks: seq<Network> := [Mainnet, Ropsten, Rinkeby, Kovan]

  /** No network occurs twice. */
  predicate NoDuplicates(nets: seq<Network>)
  {
    forall i, j :: 0 <= i < j < |nets| ==> nets[i] != nets[j]
  }

  /** The credential variables of `nets`. */
  function AccountVars(nets: seq<Network>): (r: set<string>)
  {
    if nets == [] then {} else {nets[0].MnemonicVar(), nets[0].KeyVar()} + AccountVars(nets[1..])
  }

  /** The credential checks of `nets`, one after the other. */
  function SetUpAccounts(env: Env, nets: seq<Network>): (r: Env)
    ensures forall v :: v !in AccountVars(nets) ==> Lookup(r, v) == Lookup(env, v)
    decreases |nets|
  {
    if nets == [] then env else SetUpAccounts(SetUpAccount(env, nets[0]), nets[1..])
  }

  /** Different networks use different credential variables, and none of them is an API-key variable. */
  lemma NetworkVarsDistinct(a: Network, b: Network)
    ensures a != b ==> a.MnemonicVar() != b.MnemonicVar() && a.KeyVar() != b.KeyVar()
    ensures a.MnemonicVar() != b.KeyVar()
    ensures a.MnemonicVar() !in {"INFURA_KEY", "ALCHEMY_KEY", "ETHERSCAN_KEY"}
    ensures a.KeyVar() !in {"INFURA_KEY", "ALCHEMY_KEY", "ETHERSCAN_KEY"}
  {
  }

  /** A network outside `nets` keeps its credential variables out of `AccountVars(nets)`. */
  lemma {:induction false} OtherNetworkVars(nets: seq<Network>, net: Network)
    requires net !in nets
    ensures net.MnemonicVar() !in AccountVars(nets) && net.KeyVar() !in AccountVars(nets)
    decreases |nets|
  {
    if nets != [] {
      NetworkVarsDistinct(net, nets[0]);
      NetworkVarsDistinct(nets[0], net);
      OtherNetworkVars(nets[1..], net);
    }
  }

  /** One credential check depends only on its own network's two variables. */
  lemma SetUpAccountLocal(env1: Env, env2: Env, net: Network)
    requires Lookup(env1, net.MnemonicVar()) == Lookup(env2, net.MnemonicVar())
    requires Lookup(env1, net.KeyVar()) == Lookup(env2, net.KeyVar())
    ensures Lookup(SetUpAccount(env1, net), net.MnemonicVar()) == Lookup(SetUpAccount(env2, net), net.MnemonicVar())
    ensures Lookup(SetUpAccount(env1, net), net.KeyVar()) == Lookup(SetUpAccount(env2, net), net.KeyVar())
  {
  }

  /** Within a run over distinct networks, each network's variables end up as its own check leaves them. */
  lemma {:induction false} SetUpAccountsEffect(env: Env, nets: seq<Network>, net: Network)
    requires NoDuplicates(nets)
    requires net in nets
    ensures Lookup(SetUpAccounts(env, nets), net.MnemonicVar()) == Lookup(SetUpAccount(env, net), net.MnemonicVar())
    ensures Lookup(SetUpAccounts(env, nets), net.KeyVar()) == Lookup(SetUpAccount(env, net), net.KeyVar())
    ensures AccountReady(SetUpAccounts(env, nets), net)
    decreases |nets|
  {
    var e1 := SetUpAccount(env, nets[0]);
    if nets[0] == net {
      assert net !in nets[1..] by {
        forall j | 0 <= j < |nets[1..]|
          ensures nets[1..][j] != net
        {
          assert nets[1..][j] == nets[j + 1];
        }
      }
      OtherNetworkVars(nets[1..], net);
    } else {
      assert net in nets[1..];
      SetUpAccountsEffect(e1, nets[1..], net);
      NetworkVarsDistinct(net, nets[0]);
      NetworkVarsDistinct(nets[0], net);
      SetUpAccountLocal(e1, env, net);
    }
    AccountReadyCarries(SetUpAccount(env, net), SetUpAccounts(env, nets), net);
  }

  /** Networks whose credentials are already usable pass through their checks unchanged. */
  lemma {:induction false} ReadyAccountsFixpoint(env: Env, nets: seq<Network>)
    requires forall n :: n in nets ==> AccountReady(env, n)
    ensures SetUpAccounts(env, nets) == env
    decreases |nets|
  {
    if nets != [] {
      assert nets[0] in nets;
      assert SetUpAccount(env, nets[0]) == env;
      ReadyAccountsFixpoint(env, nets[1..]);
    }
  }

  /** After the API-key check, one key is set or both hold the empty string. */
  predicate ApiKeysReady(env: Env)
  {
    || IsSet(env, "INFURA_KEY")
    || IsSet(env, "ALCHEMY_KEY")
    || (Lookup(env, "INFURA_KEY") == Some("") && Lookup(env, "ALCHEMY_KEY") == Some(""))
  }

  /** With neither API key set, both become the empty string. */
  function SetUpApiKeys(env: Env): (r: Env)
    ensures ApiKeysReady(r)
    ensures forall v :: v != "INFURA_KEY" && v != "ALCHEMY_KEY" ==> Lookup(r, v) == Lookup(env, v)
    ensures IsSet(env, "INFURA_KEY") || IsSet(env, "ALCHEMY_KEY") ==> r == env
    ensures !IsSet(env, "INFURA_KEY") && !IsSet(env, "ALCHEMY_KEY") ==>
      Lookup(r, "INFURA_KEY") == Some("") && Lookup(r, "ALCHEMY_KEY") == Some("")
  {
    if !IsSet(env, "INFURA_KEY") && !IsSet(env, "ALCHEMY_KEY") then env["INFURA_KEY" := ""]["ALCHEMY_KEY" := ""]
    else env
  }

  /** A missing or empty Etherscan key becomes the empty string. */
  function SetUpEtherscan(env: Env): (r: Env)
    ensures "ETHERSCAN_KEY" in r
    ensures forall v :: v != "ETHERSCAN_KEY" ==> Lookup(r, v) == Lookup(env, v)
    ensures IsSet(env, "ETHERSCAN_KEY") ==> r == env
    ensures !IsSet(env, "ETHERSCAN_KEY") ==> Lookup(r, "ETHERSCAN_KEY") == Some("")
  {
    if !IsSet(env, "ETHERSCAN_KEY") then env["ETHERSCAN_KEY" := ""] else env
  }

  /** With the API keys already in their ready state, the API-key check changes nothing. */
  lemma ApiKeysFixpoint(env: Env)
    requires ApiKeysReady(env)
    ensures SetUpApiKeys(env) == env
  {
    if !IsSet(env, "INFURA_KEY") && !IsSet(env, "ALCHEMY_KEY") {
      assert env["INFURA_KEY" := ""]["ALCHEMY_KEY" := ""] == env;
    }
  }

  /** With the Etherscan key present, the Etherscan check changes nothing. */
  lemma EtherscanFixpoint(env: Env)
    requires "ETHERSCAN_KEY" in env
    ensures SetUpEtherscan(env) == env
  {
    if !IsSet(env, "ETHERSCAN_KEY") {
      assert env["ETHERSCAN_KEY" := ""] == env;
    }
  }

  /** Every variable the start-up block may write. */
  function ManagedVars(): (r: set<string>)
  {
    {"MNEMONIC1", "P_KEY1", "MNEMONIC3", "P_KEY3", "MNEMONIC4", "P_KEY4", "MNEMONIC42", "P_KEY42",
     "INFURA_KEY", "ALCHEMY_KEY", "ETHERSCAN_KEY"}
  }

  /** The state the start-up block establishes. */
  predicate IsReady(env: Env)
  {
    && (forall net: Network :: AccountReady(env, net))
    && ApiKeysReady(env)
    && "ETHERSCAN_KEY" in env
  }

  /** The credential variables of the four networks are managed variables, and not API-key variables. */
  lemma PublicAccountVars()
    ensures AccountVars(PublicNetworks) <= ManagedVars()
    ensures "INFURA_KEY" !in AccountVars(PublicNetworks)
    ensures "ALCHEMY_KEY" !in AccountVars(PublicNetworks)
  {
  }

  /** Every network appears exactly once in the checked list. */
  lemma PublicNetworksComplete(net: Network)
    ensures net in PublicNetworks
    ensures NoDuplicates(PublicNetworks)
  {
  }

  /** After the four credential checks every network has usable credentials. */
  lemma AccountsReadyAfterChecks(env: Env)
    ensures forall net: Network :: AccountReady(SetUpAccounts(env, PublicNetworks), net)
  {
    forall net: Network
      ensures AccountReady(SetUpAccounts(env, PublicNetworks), net)
    {
      PublicNetworksComplete(net);
      SetUpAccountsEffect(env, PublicNetworks, net);
    }
  }

  /** The API-key and Etherscan checks keep every network's credentials as they are. */
  lemma KeyChecksKeepAccounts(env: Env)
    requires forall net: Network :: AccountReady(env, net)
    ensures forall net: Network :: AccountReady(SetUpEtherscan(SetUpApiKeys(env)), net)
  {
    forall net: Network
      ensures AccountReady(SetUpEtherscan(SetUpApiKeys(env)), net)
    {
      NetworkVarsDistinct(net, net);
      AccountReadyCarries(env, SetUpEtherscan(SetUpApiKeys(env)), net);
    }
  }

  /** The whole start-up block, in source order. */
  function SetUp(env: Env): (r: Env)
    ensures IsReady(r)
    ensures forall v :: v !in ManagedVars() ==> Lookup(r, v) == Lookup(env, v)
  {
    var accounts := SetUpAccounts(env, PublicNetworks);
    AccountsReadyAfterChecks(env);
    KeyChecksKeepAccounts(accounts);
    PublicAccountVars();
    SetUpEtherscan(SetUpApiKeys(accounts))
  }

  /** An environment already in the ready state passes through the start-up block unchanged. */
  lemma ReadyIsFixpoint(env: Env)
    requires IsReady(env)
    ensures SetUp(env) == env
  {
    ReadyAccountsFixpoint(env, PublicNetworks);
    ApiKeysFixpoint(env);
    EtherscanFixpoint(env);
  }

  /** Running the start-up block twice is the same as running it once. */
  lemma SetUpIdempotent(env: Env)
    ensures SetUp(SetUp(env)) == SetUp(env)
  {
    ReadyIsFixpoint(SetUp(env));
  }

  /** What the start-up block does to one network's credentials, stated against the original environment. */
  lemma SetUpCredentials(env: Env, net: Network)
    ensures IsSet(env, net.KeyVar()) ==> Lookup(SetUp(env), net.KeyVar()) == Some(WithHexPrefix(env[net.KeyVar()]))
    ensures !IsSet(env, net.KeyVar()) ==> Lookup(SetUp(env), net.KeyVar()) == Lookup(env, net.KeyVar())
    ensures !IsSet(env, net.MnemonicVar()) && !IsSet(env, net.KeyVar()) ==> Lookup(SetUp(env), net.MnemonicVar()) == Some(FakeMnemonic)
    ensures IsSet(env, net.MnemonicVar()) || IsSet(env, net.KeyVar()) ==> Lookup(SetUp(env), net.MnemonicVar()) == Lookup(env, net.MnemonicVar())
  {
    var accounts := SetUpAccounts(env, PublicNetworks);
    var m, k := net.MnemonicVar(), net.KeyVar();
    PublicNetworksComplete(net);
    SetUpAccountsEffect(env, PublicNetworks, net);
    NetworkVarsDistinct(net, net);
    assert Lookup(SetUp(env), m) == Lookup(accounts, m);
    assert Lookup(SetUp(env), k) == Lookup(accounts, k);
  }

  /** What the start-up block does to the API keys, stated against the original environment. */
  lemma SetUpApiKeysEffect(env: Env)
    ensures !IsSet(env, "INFURA_KEY") && !IsSet(env, "ALCHEMY_KEY") ==>
      Lookup(SetUp(env), "INFURA_KEY") == Some("") && Lookup(SetUp(env), "ALCHEMY_KEY") == Some("")
    ensures IsSet(env, "INFURA_KEY") || IsSet(env, "ALCHEMY_KEY") ==>
      Lookup(SetUp(env), "INFURA_KEY") == Lookup(env, "INFURA_KEY") && Lookup(SetUp(env), "ALCHEMY_KEY") == Lookup(env, "ALCHEMY_KEY")
  {
    PublicAccountVars();
  }

  /** What the start-up block does to the Etherscan key, stated against the original environment. */
  lemma SetUpEtherscanEffect(env: Env)
    ensures IsSet(env, "ETHERSCAN_KEY") ==> Lookup(SetUp(env), "ETHERSCAN_KEY") == Lookup(env, "ETHERSCAN_KEY")
    ensures !IsSet(env, "ETHERSCAN_KEY") ==> Lookup(SetUp(env), "ETHERSCAN_KEY") == Some("")
  {
    PublicAccountVars();
  }
}
