/**
 The per-network settings built after the start-up block has run.

 Each public network gets the endpoint chosen for its name and an account
 source: a one-element private-key list when the network's private key is
 set, its mnemonic otherwise. The two forms are alternatives of one
 datatype, so a network never carries both.
 */
module NetworkConfig {
  import opened Wrappers
  import opened Environment
  import opened Endpoint
  import opened EnvSetup

  /** How a network derives its deployment account. */
  datatype Accounts =
    | PrivateKeys(keys: seq<string>)
    | MnemonicPhrase(mnemonic: Option<string>)

  /** The settings of one public network. */
  datatype NetworkSettings = NetworkSettings(url: Option<string>, accounts: Accounts)

  /** The `accounts` entry of a network: its private key when set, its mnemonic otherwise. */
  function AccountsOf(env: Env, net: Network): (r: Accounts)
  {
    if IsSet(env, net.KeyVar()) then PrivateKeys([env[net.KeyVar()]])
    else MnemonicPhrase(Lookup(env, net.MnemonicVar()))
  }

  /** The settings of `net`, built from the environment after the start-up block. */
  function SettingsOf(env: Env, net: Network): (r: NetworkSettings)
  {
    var ready := SetUp(env);
    NetworkSettings(EndpointUrl(ready, net.Name()), AccountsOf(ready, net))
  }

  /** The account source of a network in terms of the environment the process started with. */
  lemma ConfiguredAccounts(env: Env, net: Network)
    ensures IsSet(env, net.KeyVar()) ==>
      SettingsOf(env, net).accounts == PrivateKeys([WithHexPrefix(env[net.KeyVar()])])
    ensures !IsSet(env, net.KeyVar()) && IsSet(env, net.MnemonicVar()) ==>
      SettingsOf(env, net).accounts == MnemonicPhrase(Some(env[net.MnemonicVar()]))
    ensures !IsSet(env, net.KeyVar()) && !IsSet(env, net.MnemonicVar()) ==>
      SettingsOf(env, net).accounts == MnemonicPhrase(Some(FakeMnemonic))
  {
    SetUpCredentials(env, net);
  }

  /** Every public network ends up with an endpoint and a usable account source. */
  lemma SettingsWellFormed(env: Env, net: Network)
    ensures SettingsOf(env, net).url.Some?
    ensures SettingsOf(env, net).url.value != ""
    ensures SettingsOf(env, net).accounts.PrivateKeys? ==>
      |SettingsOf(env, net).accounts.keys| == 1 && StartsWith(SettingsOf(env, net).accounts.keys[0], "0x")
    ensures SettingsOf(env, net).accounts.MnemonicPhrase? ==>
      SettingsOf(env, net).accounts.mnemonic.Some? && SettingsOf(env, net).accounts.mnemonic.value != ""
  {
    var ready := SetUp(env);
    assert AccountReady(ready, net);
  }

  /**
   After the start-up block the Infura fallback never concatenates an
   undefined key: a network with no custom URL and no Alchemy key gets its
   Infura URL ending in the original Infura key, or in nothing at all.
   */
  lemma InfuraKeyDefinedWhenUsed(env: Env, net: Network)
    requires !HasCustomUrl(env, net.Name())
    requires !IsSet(env, "ALCHEMY_KEY")
    ensures "INFURA_KEY" in SetUp(env)
    ensures IsSet(env, "INFURA_KEY") ==>
      SettingsOf(env, net).url == Some("https://" + net.Name() + ".infura.io/v3/" + env["INFURA_KEY"])
    ensures !IsSet(env, "INFURA_KEY") ==>
      SettingsOf(env, net).url == Some("https://" + net.Name() + ".infura.io/v3/")
  {
    var ready := SetUp(env);
    CustomUrlUnmanaged(net);
    assert !HasCustomUrl(ready, net.Name());
    SetUpApiKeysEffect(env);
    assert !IsSet(ready, "ALCHEMY_KEY");
    InfuraFallback(ready, net);
    var prefix := "https://" + net.Name() + ".infura.io/v3/";
    assert SettingsOf(env, net).url == Some(prefix + JsText(Lookup(ready, "INFURA_KEY")));
    if !IsSet(env, "INFURA_KEY") {
      assert prefix + "" == prefix;
    }
  }

  /** The start-up block never writes a custom RPC URL variable. */
  lemma CustomUrlUnmanaged(net: Network)
    ensures CustomUrlVar(net.Name()).Some?
    ensures CustomUrlVar(net.Name()).value !in ManagedVars()
  {
  }
}
