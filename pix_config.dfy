/** The payment-code table: each gift amount of the six tiers is mapped to
    the "Copia e Cola" code held in a build-time environment variable. The
    environment is a parameter: a map from variable name to value, in which
    an unset variable has no entry. */
module PixConfig {
  import opened Strings

  type Env = map<string, string>

  /** The six gift amounts, in BRL, that have a code. */
  const TIERS: seq<nat> := [50, 100, 250, 500, 1000, 2000]

  const PLACEHOLDER_PREFIX: string := "PIX_PLACEHOLDER"

  /** The environment variable holding the code of `amount`. */
  function VarName(amount: nat): string {
    "VITE_PIX_CODE_" + NatToString(amount)
  }

  /** Different amounts read different variables. */
  lemma VarNameInjective(a: nat, b: nat)
    requires VarName(a) == VarName(b)
    ensures a == b
  {
    var n := |"VITE_PIX_CODE_"|;
    assert NatToString(a) == VarName(a)[n..];
    assert NatToString(b) == VarName(b)[n..];
    NatToStringInjective(a, b);
  }

  /** The value of a variable, with an unset or empty one read as `''`. */
  function EnvOr(env: Env, name: string): (r: string)
    ensures name !in env ==> r == ""
    ensures name in env ==> r == env[name]
  {
    if name in env then env[name] else ""
  }

  /** The table built once from the environment: one entry per tier. */
  function PixCodes(env: Env): (codes: map<int, string>)
    ensures forall a :: a in codes <==> a in TIERS
    ensures forall a :: a in codes ==> a >= 0 && codes[a] == EnvOr(env, VarName(a))
  {
    map a | a in TIERS :: EnvOr(env, VarName(a))
  }

  /** The code for `amount`, or `''` when it has none. */
  function GetPixCode(env: Env, amount: int): (r: string)
    ensures amount !in TIERS ==> r == ""
    ensures amount in TIERS ==> r == EnvOr(env, VarName(amount))
  {
    var codes := PixCodes(env);
    if amount in codes && codes[amount] != "" then codes[amount] else ""
  }

  /** Whether `amount` has a real code: configured, non-empty and not a
      placeholder. */
  function HasPixCode(env: Env, amount: int): (r: bool)
    ensures r <==> && amount in TIERS
                   && VarName(amount) in env
                   && env[VarName(amount)] != ""
                   && !StartsWith(env[VarName(amount)], PLACEHOLDER_PREFIX)
  {
    var codes := PixCodes(env);
    amount in codes && codes[amount] != "" && |codes[amount]| > 0
      && !StartsWith(codes[amount], PLACEHOLDER_PREFIX)
  }

  /** A real code is what the lookup returns. */
  lemma HasPixCodeGivesCode(env: Env, amount: int)
    requires HasPixCode(env, amount)
    ensures amount >= 0 && VarName(amount) in env
    ensures GetPixCode(env, amount) != "" && GetPixCode(env, amount) == env[VarName(amount)]
  {
  }

  /** Amounts outside the tiers have neither a code nor a real code. */
  lemma OutsideTiers(env: Env, amount: int)
    requires amount !in TIERS
    ensures GetPixCode(env, amount) == "" && !HasPixCode(env, amount)
  {
  }

  /** A placeholder is still returned by the lookup, but is not a real code. */
  lemma PlaceholderIsReturned(env: Env, amount: nat)
    requires amount in TIERS && VarName(amount) in env
    requires StartsWith(env[VarName(amount)], PLACEHOLDER_PREFIX)
    ensures GetPixCode(env, amount) == env[VarName(amount)]
    ensures !HasPixCode(env, amount)
  {
  }

  /** Setting one tier's variable changes no other tier's code. */
  lemma TiersIndependent(env: Env, amount: nat, other: nat, code: string)
    requires other != amount
    ensures GetPixCode(env[VarName(amount) := code], other) == GetPixCode(env, other)
  {
    if VarName(amount) == VarName(other) {
      VarNameInjective(amount, other);
    }
  }
}
