/**
 * The run profile (`crates/configure/src/profile.rs`): three variants, each with one
 * lowercase string form shared by `Display`, `FromStr` and serde, a default, and the
 * derived ordering.
 */
module Profiles {
  import opened Results

  datatype Profile = Test | Development | Production

  /**
   * The single string form of each variant: non-empty lower-case letters, so never the
   * capitalised variant identifier.
   */
  function Name(p: Profile): (s: string)
    ensures |s| > 0 && forall i :: 0 <= i < |s| ==> 'a' <= s[i] <= 'z'
  {
    match p
    case Test => "test"
    case Development => "development"
    case Production => "production"
  }

  /** What `#[default]` selects. */
  const DefaultProfile: Profile := Development

  /** The text of the parse error `FromStr` reports for an unknown string. */
  const VariantNotFound: string := "Matching variant not found"

  /** `Profile::from_str`: exact, case-sensitive match against the string forms. */
  function FromStr(s: string): (r: Result<Profile, string>)
    ensures r.Ok? ==> Name(r.value) == s
    ensures r.Err? ==> r.error == VariantNotFound && forall p :: Name(p) != s
  {
    if s == "test" then Ok(Test)
    else if s == "development" then Ok(Development)
    else if s == "production" then Ok(Production)
    else Err(VariantNotFound)
  }

  /** Parsing the string form of a profile gives that profile back. */
  lemma FromStrName(p: Profile)
    ensures FromStr(Name(p)) == Ok(p)
  {
  }

  /** A string parses to `p` exactly when it is `p`'s string form. */
  lemma FromStrIsInverse(s: string, p: Profile)
    ensures FromStr(s) == Ok(p) <==> Name(p) == s
  {
  }

  /** The variant identifiers themselves, capitalised, are not accepted. */
  lemma VariantIdentifiersRejected()
    ensures FromStr("Test").Err? && FromStr("Development").Err? && FromStr("Production").Err?
  {
  }

  /** The declaration index, which is what the derived `Ord` compares. */
  function Rank(p: Profile): nat {
    match p
    case Test => 0
    case Development => 1
    case Production => 2
  }

  datatype Ordering = Less | Equal | Greater

  /** The derived `Ord::cmp`. */
  function Compare(a: Profile, b: Profile): (o: Ordering)
    ensures o == Equal <==> a == b
  {
    if Rank(a) < Rank(b) then Less
    else if Rank(a) == Rank(b) then Equal
    else Greater
  }

  /** The order follows declaration order: test, development, production. */
  lemma DeclarationOrder()
    ensures Compare(Test, Development) == Less
    ensures Compare(Development, Production) == Less
    ensures Compare(Test, Production) == Less
  {
  }

  /** Swapping the operands reverses the answer. */
  lemma CompareAntisymmetric(a: Profile, b: Profile)
    ensures Compare(a, b) == Less <==> Compare(b, a) == Greater
  {
  }

  /** `Compare` is transitive, hence a total order on the three profiles. */
  lemma CompareTransitive(a: Profile, b: Profile, c: Profile)
    ensures Compare(a, b) == Less && Compare(b, c) == Less ==> Compare(a, c) == Less
  {
  }
}
