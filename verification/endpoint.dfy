/**
  Endpoint descriptions of Jetway/Endpoint.swift and Jetway/HTTPMethod.swift, and the URL an
  endpoint resolves to.

  Foundation's `URL(string:)` is not part of this model: whether a string parses as a URL is
  a predicate supplied by the caller, and a parsed URL is represented by its string.
*/
module Endpoints {
  import opened Wrappers

  /** `HTTP.Method`. */
  datatype HttpMethod = GET | POST | PUT | DELETE | PATCH | HEAD | CONNECT | OPTIONS | TRACE
  {
    /** The enum's `rawValue`: the case name. */
    function RawValue(): (name: string)
      ensures name != []
    {
      match this
      case GET => "GET"
      case POST => "POST"
      case PUT => "PUT"
      case DELETE => "DELETE"
      case PATCH => "PATCH"
      case HEAD => "HEAD"
      case CONNECT => "CONNECT"
      case OPTIONS => "OPTIONS"
      case TRACE => "TRACE"
    }
  }

  /** `HTTP.Method(rawValue:)`, the failable initializer Swift derives for a `String` enum:
      the case whose name is the given string, if any. */
  function HttpMethodOf(name: string): (m: Option<HttpMethod>)
    ensures m.Some? ==> m.value.RawValue() == name
  {
    if name == "GET" then Some(GET)
    else if name == "POST" then Some(POST)
    else if name == "PUT" then Some(PUT)
    else if name == "DELETE" then Some(DELETE)
    else if name == "PATCH" then Some(PATCH)
    else if name == "HEAD" then Some(HEAD)
    else if name == "CONNECT" then Some(CONNECT)
    else if name == "OPTIONS" then Some(OPTIONS)
    else if name == "TRACE" then Some(TRACE)
    else None
  }

  /** Every method is recovered from its raw value, so no two methods share a name. */
  lemma RawValueRoundTrip(m: HttpMethod)
    ensures HttpMethodOf(m.RawValue()) == Some(m)
  {
  }

  /** `API`: the base URL (as its absolute string) and the headers of every request. */
  datatype Api = Api(baseUrl: string, requestHeaders: map<string, string>)

  /** `Endpoint`; `init(in:method:path:additionalRequestConfiguring:)` stores its four
      arguments as they are, so the datatype's constructor is that initializer. The optional
      configuration closure is known by its identity. */
  datatype Endpoint = Endpoint(api: Api, httpMethod: HttpMethod, path: string, additionalRequestConfiguring: Option<nat>)

  /** `Endpoint.Error`. */
  datatype EndpointError = MalformedUrl(fullUrlPath: string)

  /** A `URLRequest`, as far as the request pipeline touches it; the body is an opaque
      identifier chosen by whoever sets it. */
  datatype URLRequest = URLRequest(
    url: string,
    timeoutInterval: nat,
    httpMethod: HttpMethod,
    headers: map<string, string>,
    body: Option<nat>)

  // ------------------------------------------------------------ Trimming

  /** Every character is a slash. */
  predicate AllSlashes(s: string)
  {
    forall i :: 0 <= i < |s| ==> s[i] == '/'
  }

  /** No slash at either end. */
  predicate Clean(s: string)
  {
    s == [] || (s[0] != '/' && s[|s| - 1] != '/')
  }

  /** The first index from `i` on that does not hold a slash (or the end). */
  function SkipSlashes(s: string, i: nat): (k: nat)
    requires i <= |s|
    ensures i <= k <= |s| && (k < |s| ==> s[k] != '/')
    ensures forall j :: i <= j < k ==> s[j] == '/'
    decreases |s| - i
  {
    if i < |s| && s[i] == '/' then SkipSlashes(s, i + 1) else i
  }

  /** Going down from `j` but not below `lo`, the index just past the last character that is
      not a slash. */
  function SkipSlashesBack(s: string, lo: nat, j: nat): (k: nat)
    requires lo <= j <= |s|
    ensures lo <= k <= j && (lo < k ==> s[k - 1] != '/')
    ensures forall m :: k <= m < j ==> s[m] == '/'
    decreases j
  {
    if lo < j && s[j - 1] == '/' then SkipSlashesBack(s, lo, j - 1) else j
  }

  /** `trimmingCharacters(in: "/")`: the string without the slashes at either end; what is
      left is a contiguous part of it, between two runs of slashes, with every inner slash
      kept. */
  function Trim(s: string): (r: string)
    ensures Clean(r)
    ensures var a := SkipSlashes(s, 0);
      a + |r| <= |s| && r == s[a..a + |r|] && AllSlashes(s[..a]) && AllSlashes(s[a + |r|..])
  {
    var a := SkipSlashes(s, 0);
    var b := SkipSlashesBack(s, a, |s|);
    s[a..b]
  }

  lemma {:induction false} SkipSlashesAt(s: string, i: nat, k: nat)
    requires i <= k <= |s| && (k < |s| ==> s[k] != '/')
    requires forall j :: i <= j < k ==> s[j] == '/'
    ensures SkipSlashes(s, i) == k
    decreases k - i
  {
    if i < k {
      SkipSlashesAt(s, i + 1, k);
    }
  }

  lemma {:induction false} SkipSlashesBackAt(s: string, lo: nat, j: nat, k: nat)
    requires lo <= k <= j <= |s| && (lo < k ==> s[k - 1] != '/')
    requires forall m :: k <= m < j ==> s[m] == '/'
    ensures SkipSlashesBack(s, lo, j) == k
    decreases j - k
  {
    if k < j {
      SkipSlashesBackAt(s, lo, j - 1, k);
    }
  }

  /** Trimming a clean string between runs of slashes gives that string. */
  lemma TrimBetweenSlashes(p: string, r: string, q: string)
    requires AllSlashes(p) && Clean(r) && AllSlashes(q)
    ensures Trim(p + r + q) == r
  {
    var s := p + r + q;
    if r == [] {
      assert forall j :: 0 <= j < |s| ==> s[j] == '/' by {
        forall j | 0 <= j < |s| ensures s[j] == '/' {
          if j < |p| { assert s[j] == p[j]; } else { assert s[j] == q[j - |p|]; }
        }
      }
      SkipSlashesAt(s, 0, |s|);
      SkipSlashesBackAt(s, |s|, |s|, |s|);
    } else {
      assert forall j :: 0 <= j < |p| ==> s[j] == '/' by {
        forall j | 0 <= j < |p| ensures s[j] == '/' {
          assert s[j] == p[j];
        }
      }
      assert forall m :: |p| + |r| <= m < |s| ==> s[m] == '/' by {
        forall m | |p| + |r| <= m < |s| ensures s[m] == '/' {
          assert s[m] == q[m - |p| - |r|];
        }
      }
      assert s[|p|] == r[0] && s[|p| + |r| - 1] == r[|r| - 1];
      SkipSlashesAt(s, 0, |p|);
      SkipSlashesBackAt(s, |p|, |s|, |p| + |r|);
      assert s[|p|..|p| + |r|] == r;
    }
  }

  /** A string with no slash at either end is left as it is. */
  lemma TrimOfClean(s: string)
    requires Clean(s)
    ensures Trim(s) == s
  {
    assert [] + s + [] == s;
    TrimBetweenSlashes([], s, []);
  }

  /** Trimming twice is trimming once. */
  lemma TrimIdempotent(s: string)
    ensures Trim(Trim(s)) == Trim(s)
  {
    TrimOfClean(Trim(s));
  }

  /** Cutting `s` around the part `s[a..a + n]`, inside a concatenation. */
  lemma Regroup(p: string, s: string, q: string, a: nat, n: nat)
    requires a + n <= |s|
    ensures p + s + q == (p + s[..a]) + s[a..a + n] + (s[a + n..] + q)
  {
    var lhs, rhs := p + s + q, (p + s[..a]) + s[a..a + n] + (s[a + n..] + q);
    assert |lhs| == |rhs|;
    forall i | 0 <= i < |lhs| ensures lhs[i] == rhs[i] {
    }
  }

  /** Slashes added at either end make no difference. */
  lemma TrimIgnoresEdgeSlashes(p: string, s: string, q: string)
    requires AllSlashes(p) && AllSlashes(q)
    ensures Trim(p + s + q) == Trim(s)
  {
    var r := Trim(s);
    var a := SkipSlashes(s, 0);
    var front, back := s[..a], s[a + |r|..];
    assert AllSlashes(front) && AllSlashes(back) && r == s[a..a + |r|];
    var x, y := p + front, back + q;
    Regroup(p, s, q, a, |r|);
    assert p + s + q == x + r + y;
    TrimBetweenSlashes(x, r, y);
  }

  // ---------------------------------------------------------------- URLs

  /** The string `url()` hands to `URL(string:)`: the trimmed base, one slash, the trimmed
      path. */
  function FullUrlPath(baseUrl: string, path: string): (full: string)
    ensures |full| == |Trim(baseUrl)| + 1 + |Trim(path)|
    ensures full[..|Trim(baseUrl)|] == Trim(baseUrl) && full[|Trim(baseUrl)|] == '/'
    ensures full[|Trim(baseUrl)| + 1..] == Trim(path)
    ensures Trim(baseUrl) != [] ==> full[|Trim(baseUrl)| - 1] != '/'
    ensures Trim(path) != [] ==> full[|Trim(baseUrl)| + 1] != '/'
  {
    Trim(baseUrl) + "/" + Trim(path)
  }

  /** Slashes at the end of the base or the start of the path do not change the URL. */
  lemma FullUrlPathIgnoresEdgeSlashes(baseUrl: string, path: string, q: string, p: string)
    requires AllSlashes(q) && AllSlashes(p)
    ensures FullUrlPath(baseUrl + q, p + path) == FullUrlPath(baseUrl, path)
  {
    TrimIgnoresEdgeSlashes([], baseUrl, q);
    assert [] + baseUrl + q == baseUrl + q;
    TrimIgnoresEdgeSlashes(p, path, []);
    assert p + path + [] == p + path;
  }

  /** The example of the `API` documentation: base `https://api.jetway.io/` and path
      `/endpoint` give `https://api.jetway.io/endpoint`. */
  lemma DocumentedExample()
    ensures var host, endpoint := "https://api.jetway.io", "endpoint";
      FullUrlPath(host + "/", "/" + endpoint) == host + "/" + endpoint
  {
    var host, endpoint := "https://api.jetway.io", "endpoint";
    FullUrlPathIgnoresEdgeSlashes(host, endpoint, "/", "/");
    TrimOfClean(host);
    TrimOfClean(endpoint);
  }

  /** `url()`: the full URL, or `malformedUrl` carrying the string that did not parse. */
  function Url(endpoint: Endpoint, parses: string -> bool): (r: Result<string, EndpointError>)
    ensures r.Ok? <==> parses(FullUrlPath(endpoint.api.baseUrl, endpoint.path))
    ensures r.Ok? ==> r.value == FullUrlPath(endpoint.api.baseUrl, endpoint.path)
    ensures r.Err? ==> r.error == MalformedUrl(FullUrlPath(endpoint.api.baseUrl, endpoint.path))
  {
    var full := FullUrlPath(endpoint.api.baseUrl, endpoint.path);
    if parses(full) then Ok(full) else Err(MalformedUrl(full))
  }
}
