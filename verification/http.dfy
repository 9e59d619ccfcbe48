/** The slice of the HTTP request the authentication layer reads: its header map. */
module Http {
  import opened Results

  /**
   * One header line. Names are stored in lower case, as the header map normalises them;
   * a value is its raw bytes, one `char` per byte.
   */
  datatype HeaderEntry = HeaderEntry(name: HeaderName, value: string)

  /** A header name as the header map stores it: no upper-case letters. */
  type HeaderName = s: string | forall i :: 0 <= i < |s| ==> !('A' <= s[i] <= 'Z')

  const Authorization: string := "authorization"

  /** `HeaderMap::get`: the first value stored under `name`. */
  function Get(headers: seq<HeaderEntry>, name: string): (r: Option<string>)
    ensures r.None? <==> forall i :: 0 <= i < |headers| ==> headers[i].name != name
    ensures r.Some? ==> exists i :: 0 <= i < |headers| && headers[i].name == name && headers[i].value == r.value
                          && forall j :: 0 <= j < i ==> headers[j].name != name
  {
    if |headers| == 0 then None
    else if headers[0].name == name then Some(headers[0].value)
    else
      var r := Get(headers[1..], name);
      assert forall i :: 1 <= i < |headers| ==> headers[i] == headers[1..][i - 1];
      r
  }

  /** The bytes `HeaderValue::to_str` accepts: visible ASCII and horizontal tab. */
  predicate IsVisibleAscii(c: char) {
    c == '\t' || (' ' <= c && c <= '~')
  }

  /** `HeaderValue::to_str`: the value as text, when every byte is visible ASCII. */
  function ToStr(value: string): (r: Option<string>)
    ensures r.Some? <==> forall i :: 0 <= i < |value| ==> IsVisibleAscii(value[i])
    ensures r.Some? ==> r.value == value
  {
    if forall i :: 0 <= i < |value| ==> IsVisibleAscii(value[i]) then Some(value) else None
  }
}
