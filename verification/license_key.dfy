/**
 * License-key generation: a tier-specific prefix followed by three dash-separated
 * groups of four lowercase hexadecimal characters. The random groups (the first four
 * characters of three `uuid4().hex` values) are parameters, so the key is a pure function.
 */
module LicenseKey {
  import opened Wrappers

  /** A character of `uuid4().hex`: a digit or a lowercase letter a-f. */
  predicate IsHexDigit(c: char) {
    '0' <= c <= '9' || 'a' <= c <= 'f'
  }

  /** `uuid4().hex[:4]`: exactly four lowercase hex characters. */
  predicate IsHexGroup(s: string) {
    |s| == 4 && forall i | 0 <= i < |s| :: IsHexDigit(s[i])
  }

  predicate ValidGroups(g1: string, g2: string, g3: string) {
    IsHexGroup(g1) && IsHexGroup(g2) && IsHexGroup(g3)
  }

  /** The tier-to-prefix dictionary. */
  const PrefixTable: map<string, string> :=
    map["Lite" := "ARLITE", "Standard" := "ARSTD", "Pro" := "ARPRO"]

  /** The prefix used for every tier missing from the dictionary. */
  const UnknownPrefix := "ARUNK"

  const KnownPrefixes: set<string> := {"ARLITE", "ARSTD", "ARPRO", "ARUNK"}

  /** `PrefixTable.get(tier, "ARUNK")` */
  function Prefix(tier: string): (p: string)
    ensures p in KnownPrefixes
    ensures 5 <= |p| <= 6
  {
    if tier in PrefixTable then PrefixTable[tier] else UnknownPrefix
  }

  /** The dictionary, read in both directions: each known prefix belongs to exactly one tier. */
  lemma PrefixOfTier(tier: string)
    ensures Prefix(tier) == "ARLITE" <==> tier == "Lite"
    ensures Prefix(tier) == "ARSTD" <==> tier == "Standard"
    ensures Prefix(tier) == "ARPRO" <==> tier == "Pro"
    ensures Prefix(tier) == "ARUNK" <==> tier !in {"Lite", "Standard", "Pro"}
  {
  }

  /** `f"{prefix}-{g1}-{g2}-{g3}"` */
  function GenerateLicenseKey(tier: string, g1: string, g2: string, g3: string): (key: string)
    requires ValidGroups(g1, g2, g3)
    ensures |key| == |Prefix(tier)| + 15
    ensures key[..|Prefix(tier)|] == Prefix(tier)
  {
    Prefix(tier) + "-" + g1 + "-" + g2 + "-" + g3
  }

  /** The four parts of a key, as read back from its text. */
  datatype KeyParts = KeyParts(prefix: string, g1: string, g2: string, g3: string)

  /**
   * Reads a key from its last fifteen characters, which must be `-xxxx-xxxx-xxxx`;
   * everything before them is the prefix.
   */
  function SplitKey(key: string): (r: Option<KeyParts>)
    ensures r.Some? ==> |key| == |r.value.prefix| + 15
    ensures r.Some? ==> |r.value.g1| == |r.value.g2| == |r.value.g3| == 4
  {
    if |key| < 15 then None
    else
      var n := |key| - 15;
      if key[n] == '-' && key[n + 5] == '-' && key[n + 10] == '-' then
        Some(KeyParts(key[..n], key[n + 1..n + 5], key[n + 6..n + 10], key[n + 11..]))
      else
        None
  }

  /** The key format: a known prefix, then three dash-separated groups of four hex characters. */
  predicate IsLicenseKey(key: string) {
    match SplitKey(key)
    case None => false
    case Some(parts) =>
      parts.prefix in KnownPrefixes &&
      ValidGroups(parts.g1, parts.g2, parts.g3)
  }

  /** The tier a known prefix stands for; the catch-all prefix reads back as "Unknown". */
  function TierOfPrefix(prefix: string): (tier: string)
    requires prefix in KnownPrefixes
    ensures Prefix(tier) == prefix
  {
    if prefix == "ARLITE" then "Lite"
    else if prefix == "ARSTD" then "Standard"
    else if prefix == "ARPRO" then "Pro"
    else "Unknown"
  }

  /** Every generated key has the key format, and reading it back gives its prefix and groups. */
  lemma SplitGenerated(tier: string, g1: string, g2: string, g3: string)
    requires ValidGroups(g1, g2, g3)
    ensures SplitKey(GenerateLicenseKey(tier, g1, g2, g3)) == Some(KeyParts(Prefix(tier), g1, g2, g3))
    ensures IsLicenseKey(GenerateLicenseKey(tier, g1, g2, g3))
  {
    var p := Prefix(tier);
    var key := GenerateLicenseKey(tier, g1, g2, g3);
    var n := |p|;
    assert key == p + ("-" + g1) + ("-" + g2) + ("-" + g3);
    assert key[..n] == p;
    assert key[n + 1..n + 5] == g1;
    assert key[n + 6..n + 10] == g2;
    assert key[n + 11..] == g3;
  }

  /** Conversely, every string in the key format is the key generated from its own parts. */
  lemma LicenseKeyIsGenerated(key: string)
    requires IsLicenseKey(key)
    ensures var parts := SplitKey(key).value;
      key == GenerateLicenseKey(TierOfPrefix(parts.prefix), parts.g1, parts.g2, parts.g3)
  {
  }

  /** Two generated keys are equal exactly when their prefixes and their random groups are. */
  lemma GeneratedKeysEqual(t1: string, a1: string, a2: string, a3: string,
                           t2: string, b1: string, b2: string, b3: string)
    requires ValidGroups(a1, a2, a3) && ValidGroups(b1, b2, b3)
    ensures GenerateLicenseKey(t1, a1, a2, a3) == GenerateLicenseKey(t2, b1, b2, b3) <==>
            Prefix(t1) == Prefix(t2) && a1 == b1 && a2 == b2 && a3 == b3
  {
    SplitGenerated(t1, a1, a2, a3);
    SplitGenerated(t2, b1, b2, b3);
  }
}
