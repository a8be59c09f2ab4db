/**
 The role and feature catalogue shared by the token contracts.

 Every constant is a 256-bit capability mask. Features (contract-wide
 toggles) occupy the low 16-bit window; roles (per-operator capabilities)
 sit above it; the access-manager role is the top bit of the word; the
 full-privileges mask is the all-ones word. A collision or misplacement in
 this table would silently change what every granted mask means, so the
 lemmas below pin the layout down.
 */
module FeaturesRoles {
  import opened Bits

  /** Assigns roles to users and enables or disables global features: 2^255. */
  const RoleAccessManager: nat := Pow2(255)

  /** Every possible permission (the super-admin mask): 2^256 - 1. */
  const FullPrivilegesMask: nat := Pow2(256) - 1

  /** All 16 feature bits. */
  const FeatureAll: nat := 0x0000_FFFF

  /** Token owners may transfer their own tokens. */
  const FeatureTransfers: nat := 0x0000_0001

  /** Tokens may be transferred on behalf of their owner. */
  const FeatureTransfersOnBehalf: nat := 0x0000_0002

  /** Token owners may burn their own tokens. */
  const FeatureOwnBurns: nat := 0x0000_0008

  /** Approved operators may burn tokens on behalf of their owners. */
  const FeatureBurnsOnBehalf: nat := 0x0000_0010

  /** May create (mint) tokens to an arbitrary address. */
  const RoleTokenCreator: nat := 0x0001_0000

  /** May destroy (burn) tokens owned by an arbitrary address. */
  const RoleTokenDestroyer: nat := 0x0002_0000

  /** May manage the base URI of the token metadata. */
  const RoleUriManager: nat := 0x0010_0000

  /** The single-bit names of the catalogue. */
  datatype Flag =
    | TransfersFeature
    | TransfersOnBehalfFeature
    | OwnBurnsFeature
    | BurnsOnBehalfFeature
    | TokenCreatorRole
    | TokenDestroyerRole
    | UriManagerRole
    | AccessManagerRole
  {
    /** Features are contract-wide toggles; the other names are roles. */
    predicate IsFeature()
    {
      TransfersFeature? || TransfersOnBehalfFeature? || OwnBurnsFeature? || BurnsOnBehalfFeature?
    }

    /** The exported constant this name stands for. */
    function Mask(): (r: nat)
    {
      match this
      case TransfersFeature => FeatureTransfers
      case TransfersOnBehalfFeature => FeatureTransfersOnBehalf
      case OwnBurnsFeature => FeatureOwnBurns
      case BurnsOnBehalfFeature => FeatureBurnsOnBehalf
      case TokenCreatorRole => RoleTokenCreator
      case TokenDestroyerRole => RoleTokenDestroyer
      case UriManagerRole => RoleUriManager
      case AccessManagerRole => RoleAccessManager
    }

    /** The bit position each name is meant to occupy. */
    function Position(): (r: nat)
    {
      match this
      case TransfersFeature => 0
      case TransfersOnBehalfFeature => 1
      case OwnBurnsFeature => 3
      case BurnsOnBehalfFeature => 4
      case TokenCreatorRole => 16
      case TokenDestroyerRole => 17
      case UriManagerRole => 20
      case AccessManagerRole => 255
    }
  }

  /** The union of the four named features. */
  function NamedFeatures(): (r: nat)
  {
    Or(Or(Or(FeatureTransfers, FeatureTransfersOnBehalf), FeatureOwnBurns), FeatureBurnsOnBehalf)
  }

  /** The powers of two the feature constants are written as. */
  lemma FeaturePowers()
    ensures Pow2(0) == 0x0000_0001
    ensures Pow2(1) == 0x0000_0002
    ensures Pow2(3) == 0x0000_0008
    ensures Pow2(4) == 0x0000_0010
  {
  }

  /** The powers of two the role constants are written as. */
  lemma RolePowers()
    ensures Pow2(16) == 0x0001_0000
    ensures Pow2(17) == 0x0002_0000
    ensures Pow2(20) == 0x0010_0000
  {
    FeaturePowers();
    Pow2Add(4, 4);
    Pow2Add(8, 8);
    Pow2Add(16, 4);
  }

  /** Each name's constant is exactly the bit at its position, and so a power of two. */
  lemma FlagIsSingleBit(f: Flag)
    ensures f.Mask() == Bit(f.Position())
    ensures IsSingleBitAt(f.Mask(), f.Position())
    ensures IsPowerOfTwo(f.Mask())
  {
    FeaturePowers();
    RolePowers();
    Pow2IsSingleBit(f.Position());
    Pow2IsPowerOfTwo(f.Position());
  }

  /** The access manager is exactly the highest bit of a 256-bit word. */
  lemma AccessManagerIsTopBit()
    ensures RoleAccessManager == Pow2(WordBits - 1)
    ensures IsWord(RoleAccessManager)
    ensures IsSingleBitAt(RoleAccessManager, WordBits - 1)
    ensures forall x: nat :: IsWord(x) ==> (TestBit(x, WordBits - 1) <==> x >= RoleAccessManager)
  {
    Pow2IsSingleBit(255);
    Pow2Monotone(255, 256);
    TopBitOfAll(255);
  }

  /** The full mask is the all-ones word: it has exactly the 256 word bits and keeps every word intact. */
  lemma FullMaskIsAllOnes()
    ensures FullPrivilegesMask == Ones(WordBits)
    ensures IsWord(FullPrivilegesMask)
    ensures forall i: nat :: TestBit(FullPrivilegesMask, i) <==> i < WordBits
    ensures forall x: nat :: IsWord(x) ==> And(x, FullPrivilegesMask) == x
  {
    OnesOfAll(256);
  }

  /** Masking any exported constant with the full mask returns that constant. */
  lemma FullMaskContainsCatalogue()
    ensures forall f: Flag :: And(f.Mask(), FullPrivilegesMask) == f.Mask()
    ensures And(FeatureAll, FullPrivilegesMask) == FeatureAll
    ensures And(FullPrivilegesMask, FullPrivilegesMask) == FullPrivilegesMask
  {
    FullMaskIsAllOnes();
    forall f: Flag
      ensures And(f.Mask(), FullPrivilegesMask) == f.Mask()
    {
      FlagsAreWords(f);
    }
    FeatureAllIsLowWindow();
  }

  /** Every single-bit name sits inside a 256-bit word. */
  lemma FlagsAreWords(f: Flag)
    ensures IsWord(f.Mask())
    ensures f.Position() < WordBits
  {
    FlagIsSingleBit(f);
    Pow2Monotone(f.Position(), 256);
  }

  /** FEATURE_ALL is the 16-bit window: exactly bits 0 .. 15, and a word. */
  lemma FeatureAllIsLowWindow()
    ensures FeatureAll == Ones(16)
    ensures forall i: nat :: TestBit(FeatureAll, i) <==> i < 16
    ensures IsWord(FeatureAll)
  {
    RolePowers();
    OnesOfAll(16);
    Pow2Monotone(16, 256);
  }

  /** No two names share a bit. */
  lemma FlagsPairwiseDisjoint(f: Flag, g: Flag)
    requires f != g
    ensures Disjoint(f.Mask(), g.Mask())
    ensures f.Position() != g.Position()
  {
    FlagIsSingleBit(f);
    FlagIsSingleBit(g);
    DistinctBitsDisjoint(f.Position(), g.Position());
  }

  /** Every feature lies inside FEATURE_ALL. */
  lemma FeaturesInsideWindow(f: Flag)
    requires f.IsFeature()
    ensures f.Position() < 16
    ensures Subset(f.Mask(), FeatureAll)
  {
    FeatureAllIsLowWindow();
    FlagIsSingleBit(f);
    BitAgainstWindow(f.Position(), 16);
  }

  /** Every role, the access manager included, lies at bit 16 or above, outside FEATURE_ALL. */
  lemma RolesAboveWindow(f: Flag)
    requires !f.IsFeature()
    ensures f.Position() >= 16
    ensures Disjoint(f.Mask(), FeatureAll)
  {
    RolePowers();
    FlagIsSingleBit(f);
    BitAgainstWindow(f.Position(), 16);
  }

  /** The named features are 0x1B, a strict part of FEATURE_ALL: bit 2 and bits 5 .. 15 are unassigned. */
  lemma NamedFeaturesLeaveRoom()
    ensures NamedFeatures() == 0x1B
    ensures Subset(NamedFeatures(), FeatureAll)
    ensures NamedFeatures() != FeatureAll
    ensures TestBit(FeatureAll, 2) && !TestBit(NamedFeatures(), 2)
    ensures forall f: Flag :: f.Position() != 2
  {
    // Unroll Or and And on the small literals that the halving recursion visits.
    assert Or(1, 2) == 3 && Or(2, 4) == 6 && Or(1, 4) == 5;
    assert Or(3, 8) == 11 && Or(5, 8) == 13 && Or(11, 16) == 27;
    assert And(13, 0x7FFF) == 13 && And(27, 0xFFFF) == 27;
  }
}
