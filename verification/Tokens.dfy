/** Token rings, and the seeding of a host's two trust anchors. */
module Tokens {
  type Ring = map<string, string>

  const CORE := "core"
  const CAPABILITY := "capability_module"

  /** TokenManager::getToken: the empty string when the key is absent. */
  function GetToken<K(==)>(ring: map<K, string>, key: K): string { if key in ring then ring[key] else "" }

  /** A value under a key, unless something is there. */
  function Kept(ring: Ring, key: string, token: string): Ring {
    if GetToken(ring, key) == "" then ring[key := token] else ring
  }

  /** The loop of seedHandshakeTrustAnchor: both anchors end up non-empty, and nothing that
      was already there, under any key, is overwritten. */
  method SeedAnchors(ring: Ring, hostToken: string) returns (seeded: Ring)
    ensures hostToken == "" ==> seeded == ring
    ensures hostToken != "" ==> GetToken(seeded, CORE) != "" && GetToken(seeded, CAPABILITY) != ""
    ensures forall key :: GetToken(ring, key) != "" ==> GetToken(seeded, key) == GetToken(ring, key)
    ensures hostToken != "" ==> seeded == Kept(Kept(ring, CORE, hostToken), CAPABILITY, hostToken)
  {
    seeded := ring;
    if hostToken == "" {
      return;
    }
    var keys := [CORE, CAPABILITY];
    var i := 0;
    while i < |keys|
      invariant 0 <= i <= |keys|
      invariant i == 0 ==> seeded == ring
      invariant i == 1 ==> seeded == Kept(ring, CORE, hostToken)
      invariant i == 2 ==> seeded == Kept(Kept(ring, CORE, hostToken), CAPABILITY, hostToken)
    {
      if GetToken(seeded, keys[i]) == "" {
        seeded := seeded[keys[i] := hostToken];
      }
      i := i + 1;
    }
  }
}
