/** Profile selection from the `ENVIRONMENT` variable (`crates/configure/src/env.rs`). */
module Env {
  import opened Results
  import opened Profiles
  import opened ConfigErrors

  /** The outcome of `std::env::var`: a Unicode value, or one of its two errors. */
  datatype VarLookup = Present(value: string) | NotPresent | NotUnicode

  /** `get_profile`, given what reading `ENVIRONMENT` returned. */
  function GetProfile(environment: VarLookup): (r: Result<Profile, ConfigError>)
    ensures !environment.Present? ==> r == Ok(DefaultProfile)
    ensures environment.Present? && r.Ok? ==> Name(r.value) == environment.value
    ensures r.Err? <==> environment.Present? && forall p :: Name(p) != environment.value
    ensures r.Err? ==> r.error == Message(VariantNotFound)
  {
    match environment
    case Present(value) =>
      (match FromStr(value)
       case Ok(p) => Ok(p)
       case Err(e) => Err(Message(e)))
    case _ => Ok(DefaultProfile)
  }

  /** Setting `ENVIRONMENT` to a profile's string form selects that profile. */
  lemma GetProfileOfName(p: Profile)
    ensures GetProfile(Present(Name(p))) == Ok(p)
  {
    FromStrName(p);
  }

  /** An unrecognised value is an error; there is no fallback to the default. */
  lemma UnknownValueIsError()
    ensures GetProfile(Present("prod")).Err?
    ensures GetProfile(Present("")).Err?
  {
  }
}
