/**
 * Discord user flags, premium types and the user record (core/user.hpp).
 *
 * `UserFlag` is a scoped enumeration over a 32-bit unsigned integer whose
 * named enumerators are single bits. The enumeration has no built-in
 * operators; the header supplies `|` and `&`, which convert both operands to
 * the underlying integer, combine them bitwise and convert back. Every 32-bit
 * pattern is therefore a value of the type, not only the named ones.
 */
module Users {
  import opened Wrappers

  /** A user-flag mask; `bits` is the underlying 32-bit unsigned integer. */
  datatype UserFlag = UserFlag(bits: bv32)

  const NoFlags := UserFlag(0)
  const DiscordEmployee := UserFlag(1 << 0)
  const DiscordPartner := UserFlag(1 << 1)
  const HypesquadEvents := UserFlag(1 << 2)
  const BugHunterLevel1 := UserFlag(1 << 3)
  const HouseBravery := UserFlag(1 << 6)
  const HouseBrilliance := UserFlag(1 << 7)
  const HouseBalance := UserFlag(1 << 8)
  const EarlySupporter := UserFlag(1 << 9)
  const TeamUser := UserFlag(1 << 10)
  const SystemFlag := UserFlag(1 << 12)
  const BugHunterLevel2 := UserFlag(1 << 14)
  const VerifiedBot := UserFlag(1 << 16)
  const VerifiedBotDeveloper := UserFlag(1 << 17)

  /** The fourteen enumerators of the flag enumeration. */
  const NamedFlags: set<UserFlag> := {
    NoFlags, DiscordEmployee, DiscordPartner, HypesquadEvents, BugHunterLevel1,
    HouseBravery, HouseBrilliance, HouseBalance, EarlySupporter, TeamUser,
    SystemFlag, BugHunterLevel2, VerifiedBot, VerifiedBotDeveloper
  }

  /** Every bit set in `b` is also set in `a`. */
  predicate Covers(a: UserFlag, b: UserFlag) {
    a.bits & b.bits == b.bits
  }

  /** Exactly one bit of the mask is set. */
  predicate IsSingleBit(f: UserFlag) {
    f.bits != 0 && f.bits & (f.bits - 1) == 0
  }

  /** `operator|`: the result covers both operands (and is the least such mask, see OrLeast). */
  function Or(lhs: UserFlag, rhs: UserFlag): (r: UserFlag)
    ensures Covers(r, lhs) && Covers(r, rhs)
  {
    UserFlag(lhs.bits | rhs.bits)
  }

  /** `operator&`: both operands cover the result (and it is the greatest such mask, see AndGreatest). */
  function And(lhs: UserFlag, rhs: UserFlag): (r: UserFlag)
    ensures Covers(lhs, r) && Covers(rhs, r)
  {
    UserFlag(lhs.bits & rhs.bits)
  }

  /** Any mask that covers both operands covers their `|`. */
  lemma OrLeast(lhs: UserFlag, rhs: UserFlag, m: UserFlag)
    requires Covers(m, lhs) && Covers(m, rhs)
    ensures Covers(m, Or(lhs, rhs))
  {}

  /** Any mask covered by both operands is covered by their `&`. */
  lemma AndGreatest(lhs: UserFlag, rhs: UserFlag, m: UserFlag)
    requires Covers(lhs, m) && Covers(rhs, m)
    ensures Covers(And(lhs, rhs), m)
  {}

  lemma OrCommutative(a: UserFlag, b: UserFlag)
    ensures Or(a, b) == Or(b, a)
  {}

  lemma OrAssociative(a: UserFlag, b: UserFlag, c: UserFlag)
    ensures Or(Or(a, b), c) == Or(a, Or(b, c))
  {}

  lemma OrIdempotent(a: UserFlag)
    ensures Or(a, a) == a
  {}

  /** `NONE` is the identity of `|`. */
  lemma OrIdentity(a: UserFlag)
    ensures Or(a, NoFlags) == a && Or(NoFlags, a) == a
  {}

  lemma AndCommutative(a: UserFlag, b: UserFlag)
    ensures And(a, b) == And(b, a)
  {}

  lemma AndAssociative(a: UserFlag, b: UserFlag, c: UserFlag)
    ensures And(And(a, b), c) == And(a, And(b, c))
  {}

  lemma AndIdempotent(a: UserFlag)
    ensures And(a, a) == a
  {}

  /** `NONE` is absorbing for `&`. */
  lemma AndAbsorbing(a: UserFlag)
    ensures And(a, NoFlags) == NoFlags && And(NoFlags, a) == NoFlags
  {}

  lemma Absorption(a: UserFlag, b: UserFlag)
    ensures And(a, Or(a, b)) == a
    ensures And(Or(a, b), b) == b
  {}

  /** Every enumerator other than `NONE` is a single bit. */
  lemma NamedFlagsAreSingleBits(f: UserFlag)
    requires f in NamedFlags && f != NoFlags
    ensures IsSingleBit(f)
  {}

  /** The fourteen enumerators have pairwise distinct values. */
  lemma NamedFlagsDistinct()
    ensures |NamedFlags| == 14
  {}

  /** Distinct enumerators share no bit, so masking one with another yields `NONE`. */
  lemma NamedFlagsDisjoint(f: UserFlag, g: UserFlag)
    requires f in NamedFlags && g in NamedFlags && f != g
    ensures And(f, g) == NoFlags
  {}

  /**
   * The flags of a sequence combined with `|` from left to right, starting
   * from `NONE` (`NONE | fs[0] | fs[1] | ...`); the result covers every one
   * of them.
   */
  function Combine(fs: seq<UserFlag>): (r: UserFlag)
    ensures forall i :: 0 <= i < |fs| ==> Covers(r, fs[i])
  {
    if fs == [] then NoFlags else Or(Combine(fs[..|fs| - 1]), fs[|fs| - 1])
  }

  /** The combination is the least mask covering every combined flag. */
  lemma {:induction false} CombineLeast(fs: seq<UserFlag>, m: UserFlag)
    requires forall i :: 0 <= i < |fs| ==> Covers(m, fs[i])
    ensures Covers(m, Combine(fs))
  {
    if fs != [] {
      CombineLeast(fs[..|fs| - 1], m);
      OrLeast(Combine(fs[..|fs| - 1]), fs[|fs| - 1], m);
    }
  }

  /**
   * Testing a combination of enumerators against a named flag with `&`
   * tells exactly whether that flag was one of those combined.
   */
  lemma {:induction false} CombineTest(fs: seq<UserFlag>, f: UserFlag)
    requires forall i :: 0 <= i < |fs| ==> fs[i] in NamedFlags
    requires f in NamedFlags && f != NoFlags
    ensures And(Combine(fs), f) != NoFlags <==> f in fs
  {
    if fs != [] {
      var init, last := fs[..|fs| - 1], fs[|fs| - 1];
      assert fs == init + [last];
      CombineTest(init, f);
      NamedFlagsAreSingleBits(f);
      if last != f {
        NamedFlagsDisjoint(last, f);
      }
      assert And(Combine(fs), f) == Or(And(Combine(init), f), And(last, f));
    }
  }

  /** Premium (Nitro) subscription kinds. */
  datatype PremiumType = NoPremium | NitroClassic | Nitro {
    /** The enumerator's integer value: 0, 1 or 2. */
    function ToInt(): (n: int)
      ensures 0 <= n <= 2
    {
      match this
      case NoPremium => 0
      case NitroClassic => 1
      case Nitro => 2
    }
  }

  /** The enumerator with integer value `n`, if there is one. */
  function PremiumTypeFromInt(n: int): (r: Option<PremiumType>)
    ensures r.Some? ==> r.value.ToInt() == n
  {
    if n == 0 then Some(NoPremium)
    else if n == 1 then Some(NitroClassic)
    else if n == 2 then Some(Nitro)
    else None
  }

  lemma PremiumTypeRoundTrip(p: PremiumType)
    ensures PremiumTypeFromInt(p.ToInt()) == Some(p)
  {}

  /** The premium types are exactly the values 0, 1 and 2. */
  lemma PremiumTypeValues(n: int)
    ensures PremiumTypeFromInt(n).Some? <==> 0 <= n <= 2
  {}

  /** The user object. */
  datatype User = User(
    id: string,
    username: string,
    discriminator: string,
    avatar: string,
    bot: bool,
    system: bool,
    mfaEnabled: bool,
    locale: string,
    verified: bool,
    email: string,
    flags: UserFlag,
    premiumType: PremiumType,
    publicFlags: UserFlag
  )

  /**
   * A user as its declaration initialises it. `flags`, `premium_type` and
   * `public_flags` have no initialiser, so their values come from how the
   * record is initialised and are parameters here.
   */
  function DefaultUser(flags: UserFlag, premiumType: PremiumType, publicFlags: UserFlag): (u: User)
    ensures !u.bot && !u.system && !u.mfaEnabled && !u.verified
    ensures u.id == u.username == u.discriminator == u.avatar == u.locale == u.email == ""
    ensures u.flags == flags && u.premiumType == premiumType && u.publicFlags == publicFlags
  {
    User("", "", "", "", false, false, false, "", false, "", flags, premiumType, publicFlags)
  }
}
