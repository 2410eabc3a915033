/**
 * The HTTP client settings for talking to the backend: the base URL built
 * from the HOSTNAME and PORT environment variables (each falling back to a
 * default when unset or empty), the JSON response type and the empty
 * options. The environment values are parameters.
 */
module Backend {
  import opened Js

  datatype Axios = Axios(baseURL: string, responseType: string)

  /** The exported `backend` object. */
  datatype Client = Client(axios: Axios, options: map<string, string>)

  const DefaultHost := "localhost"
  const DefaultPort := "3000"
  const Scheme := "http://"

  function Host(hostname: Option<string>): string
  {
    OrElse(hostname, DefaultHost)
  }

  function Port(port: Option<string>): string
  {
    OrElse(port, DefaultPort)
  }

  function BaseURL(hostname: Option<string>, port: Option<string>): string
  {
    Scheme + Host(hostname) + ":" + Port(port)
  }

  /** The `backend` object for the given HOSTNAME and PORT. */
  function MakeBackend(hostname: Option<string>, port: Option<string>): (b: Client)
    ensures b.axios.responseType == "json"
    ensures b.options == map[]
    ensures b.axios.baseURL == BaseURL(hostname, port)
    ensures |b.axios.baseURL| > |Scheme| && b.axios.baseURL[..|Scheme|] == Scheme
  {
    Client(Axios(BaseURL(hostname, port), "json"), map[])
  }

  /** The last position below `n` of ':' in `s`, or -1. */
  function LastColonBelow(s: string, n: nat): (r: int)
    requires n <= |s|
    ensures -1 <= r < n
    ensures r >= 0 ==> s[r] == ':'
    ensures forall k :: r < k < n ==> s[k] != ':'
    decreases n
  {
    if n == 0 then -1
    else if s[n - 1] == ':' then n - 1
    else LastColonBelow(s, n - 1)
  }

  /** `s.lastIndexOf(':')`. */
  function LastColon(s: string): int
  {
    LastColonBelow(s, |s|)
  }

  /** Reads host and port back from an `http://host:port` URL. */
  function ParseBaseURL(url: string): (r: Option<(string, string)>)
    ensures r.Some? ==> Scheme + r.value.0 + ":" + r.value.1 == url
  {
    if |url| < |Scheme| || url[..|Scheme|] != Scheme then None
    else
      var rest := url[|Scheme|..];
      var i := LastColon(rest);
      if i < 0 then None
      else
        assert rest == rest[..i] + [':'] + rest[i + 1..];
        Some((rest[..i], rest[i + 1..]))
  }

  /** A ':' with none after it is the last one. */
  lemma LastColonAt(s: string, i: nat)
    requires i < |s| && s[i] == ':'
    requires forall k :: i < k < |s| ==> s[k] != ':'
    ensures LastColon(s) == i
  {
  }

  /** In `h + ":" + p` with no ':' in `p`, the last ':' is the one after `h`. */
  lemma LastColonOfJoin(h: string, p: string)
    requires ':' !in p
    ensures LastColon(h + ":" + p) == |h|
  {
    var s := h + ":" + p;
    forall k | |h| < k < |s| ensures s[k] != ':' {
      assert s[k] == p[k - |h| - 1];
    }
    LastColonAt(s, |h|);
  }

  /** The base URL names HOSTNAME when it is set and non-empty and
    * "localhost" otherwise, and PORT when it is set and non-empty and "3000"
    * otherwise: parsing the URL gives those two back. */
  lemma BaseURLRoundTrip(hostname: Option<string>, port: Option<string>)
    requires Truthy(port) ==> ':' !in port.value
    ensures ParseBaseURL(BaseURL(hostname, port)) ==
      Some((if Truthy(hostname) then hostname.value else "localhost", if Truthy(port) then port.value else "3000"))
  {
    var h, p := Host(hostname), Port(port);
    var url := BaseURL(hostname, port);
    assert url == Scheme + (h + ":" + p);
    var rest := url[|Scheme|..];
    assert rest == h + ":" + p;
    LastColonOfJoin(h, p);
    assert rest[..|h|] == h;
    assert rest[|h| + 1..] == p;
  }
}
