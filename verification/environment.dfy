/**
 The process environment as the configuration sees it.

 The environment is an immutable map from variable names to string values.
 JavaScript tests a variable for truthiness, so a variable counts as set
 when it is present AND non-empty; a variable that is present but holds
 the empty string is treated exactly like an absent one by every `if`.
 */
module Environment {
  import opened Wrappers

  type Env = map<string, string>

  /** JavaScript truthiness of `process.env[name]`. */
  predicate IsSet(env: Env, name: string)
  {
    name in env && env[name] != ""
  }

  /** `process.env[name]`, with `None` for `undefined`. */
  function Lookup(env: Env, name: string): (r: Option<string>)
  {
    if name in env then Some(env[name]) else None
  }

  /** The text a value contributes to a string concatenation: `undefined` becomes the word itself. */
  function JsText(v: Option<string>): (r: string)
  {
    match v
    case Some(s) => s
    case None => "undefined"
  }

  /** `s.startsWith(prefix)`. */
  predicate StartsWith(s: string, prefix: string)
  {
    |prefix| <= |s| && s[..|prefix|] == prefix
  }

  /** The four public networks the configuration deploys to, by chain id 1, 3, 4 and 42. */
  datatype Network = Mainnet | Ropsten | Rinkeby | Kovan
  {
    /** The network's name as given to the endpoint selection. */
    function Name(): (r: string)
    {
      match this
      case Mainnet => "mainnet"
      case Ropsten => "ropsten"
      case Rinkeby => "rinkeby"
      case Kovan => "kovan"
    }

    /** The variable holding this network's deployment private key. */
    function KeyVar(): (r: string)
    {
      match this
      case Mainnet => "P_KEY1"
      case Ropsten => "P_KEY3"
      case Rinkeby => "P_KEY4"
      case Kovan => "P_KEY42"
    }

    /** The variable holding this network's deployment mnemonic. */
    function MnemonicVar(): (r: string)
    {
      match this
      case Mainnet => "MNEMONIC1"
      case Ropsten => "MNEMONIC3"
      case Rinkeby => "MNEMONIC4"
      case Kovan => "MNEMONIC42"
    }
  }

  /** The names of the four public networks. */
  predicate IsPublicNetwork(name: string)
    ensures IsPublicNetwork(name) <==> exists net: Network :: net.Name() == name
  {
    assert Mainnet.Name() == "mainnet" && Ropsten.Name() == "ropsten";
    assert Rinkeby.Name() == "rinkeby" && Kovan.Name() == "kovan";
    name == "mainnet" || name == "ropsten" || name == "rinkeby" || name == "kovan"
  }
}
