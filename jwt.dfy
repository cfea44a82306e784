/** The JSON Web Token wrapper of the credential crate: a string in a newtype,
    accepted as it is, without validation. */
module Credential {

  datatype Jwt = Jwt(raw: string)

  /** `Jwt::as_string`: the token is exactly the wrapped string. */
  function AsString(j: Jwt): (s: string)
    ensures Jwt(s) == j
  {
    j.raw
  }

  /** `Jwt::new`: every string, the empty one included, makes a token that gives it back. */
  function New(s: string): (j: Jwt)
    ensures AsString(j) == s
  {
    Jwt(s)
  }

  /** `impl From<String> for Jwt`: the same as `Jwt::new`. */
  function FromString(s: string): (j: Jwt)
    ensures j == New(s)
  {
    New(s)
  }

  /** `impl From<Jwt> for String`: converting the string back gives the same token. */
  function IntoString(j: Jwt): (s: string)
    ensures FromString(s) == j
    ensures s == AsString(j)
  {
    j.raw
  }

  /** The string round trip through the token. */
  lemma StringRoundTrip(s: string)
    ensures IntoString(FromString(s)) == s
    ensures AsString(New(s)) == s
  {
  }
}
