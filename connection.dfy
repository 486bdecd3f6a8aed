/** The connection manager shared by the three clients: the server address
    is trimmed, loses one trailing "/", is stored as the client's API URL,
    and is then checked with a liveness probe (GET "/"). */
module Connection {
  import opened Wrappers
  import opened Json

  /** String.trim removes every leading and trailing character whose code
      is at most that of the space. */
  predicate IsTrimmed(c: char) {
    c <= ' '
  }

  /** The index of the first character that trim keeps (|s| if none). */
  function TrimStart(s: string): (i: nat)
    ensures i <= |s|
    ensures forall k :: 0 <= k < i ==> IsTrimmed(s[k])
    ensures i < |s| ==> !IsTrimmed(s[i])
  {
    if s == [] || !IsTrimmed(s[0]) then 0 else 1 + TrimStart(s[1..])
  }

  /** The index just past the last character that trim keeps, looking no
      further left than `lo`. */
  function TrimEnd(s: string, lo: nat): (j: nat)
    requires lo <= |s|
    ensures lo <= j <= |s|
    ensures forall k :: j <= k < |s| ==> IsTrimmed(s[k])
    ensures j > lo ==> !IsTrimmed(s[j - 1])
    decreases |s|
  {
    if |s| == lo || !IsTrimmed(s[|s| - 1]) then |s| else TrimEnd(s[..|s| - 1], lo)
  }

  /** String.trim: the middle part of `s` between its runs of leading and
      trailing control characters and spaces. */
  function Trim(s: string): (r: string)
    ensures r == [] || (!IsTrimmed(r[0]) && !IsTrimmed(r[|r| - 1]))
    ensures |r| <= |s|
  {
    var i := TrimStart(s);
    s[i..TrimEnd(s, i)]
  }

  /** What trim removes is only control characters and spaces, on both
      sides: `s` is the trimmed text with such characters around it. */
  lemma TrimRemovesOnlyBlanks(s: string)
    ensures exists i, j ::
              && 0 <= i <= j <= |s| && Trim(s) == s[i..j]
              && (forall k :: 0 <= k < i ==> IsTrimmed(s[k]))
              && (forall k :: j <= k < |s| ==> IsTrimmed(s[k]))
  {
    var i := TrimStart(s);
    var j := TrimEnd(s, i);
    assert Trim(s) == s[i..j];
  }

  /** Trimming twice is trimming once. */
  lemma TrimIdempotent(s: string)
    ensures Trim(Trim(s)) == Trim(s)
  {
    var t := Trim(s);
    if t != [] {
      assert TrimStart(t) == 0;
      TrimEndKeeps(t);
    }
  }

  lemma TrimEndKeeps(t: string)
    requires t != [] && !IsTrimmed(t[|t| - 1])
    ensures TrimEnd(t, 0) == |t|
  {
  }

  predicate EndsWithSlash(s: string) {
    |s| > 0 && s[|s| - 1] == '/'
  }

  /** The address the client stores: trimmed, with one trailing "/"
      removed when there is one. */
  function NormaliseAddress(address: string): (url: string)
    ensures var t := Trim(address);
      (EndsWithSlash(t) ==> url + "/" == t) && (!EndsWithSlash(t) ==> url == t)
  {
    var t := Trim(address);
    if EndsWithSlash(t) then t[..|t| - 1] else t
  }

  /** Only one "/" is removed: an address ending in "//" keeps one. */
  lemma NormaliseStripsAtMostOneSlash(address: string)
    requires |Trim(address)| >= 2
    requires Trim(address)[|Trim(address)| - 2..] == "//"
    ensures EndsWithSlash(NormaliseAddress(address))
  {
    var t := Trim(address);
    assert t[|t| - 2] == '/';
  }

  /** An address already in normal form is stored as it is. */
  lemma NormaliseFixesNormalAddresses(address: string)
    requires Trim(address) == address && !EndsWithSlash(address)
    ensures NormaliseAddress(address) == address
  {
  }

  /** The reply to the liveness probe GET "/": none when the request
      raised an exception, otherwise a status code and the body as JSON
      (None when it is not JSON text). */
  datatype Probe = Unreachable | Replied(status: int, body: Option<Json>)

  const StatusOk: int := 200

  /** isConnected of the two Client classes: true exactly when the probe
      got status 200; an exception counts as not connected. */
  predicate IsConnected(p: Probe) {
    p.Replied? && p.status == StatusOk
  }

  /** isConnected of the HTTP client PyAlgosClient delegates to: the body
      must also be an object whose "message" reads "hello"; a body that is
      not such an object raises an exception inside the probe, which is
      reported as not connected. */
  predicate IsConnectedHello(p: Probe) {
    && p.Replied?
    && p.body.Some?
    && p.body.value.JObj?
    && p.status == StatusOk
    && (match Get(p.body.value.members, "message")
        case None => false
        case Some(m) => AsString(m) == Ok("hello"))
  }

  /** Which liveness test a client uses. */
  datatype Dialect = StatusOnly | HelloMessage

  predicate Connected(d: Dialect, p: Probe) {
    match d
    case StatusOnly => IsConnected(p)
    case HelloMessage => IsConnectedHello(p)
  }

  /** The stricter probe implies the plain one. */
  lemma HelloImpliesConnected(p: Probe)
    ensures IsConnectedHello(p) ==> IsConnected(p)
  {
  }

  /** The client's connection state: the API URL it sends requests to. */
  class ClientState {
    var apiUrl: Option<string>

    constructor ()
      ensures apiUrl == None
    {
      apiUrl := None;
    }

    /** launchHttpClient. `isValidUrl` stands for java.net.URL's check of
        the address (MalformedURLException). The URL is stored before the
        probe, so a failed probe still leaves it set. */
    method LaunchHttpClient(address: string, isValidUrl: string -> bool, dialect: Dialect, probe: Probe)
      returns (r: Result<()>)
      modifies this
      ensures var url := NormaliseAddress(address);
        if !isValidUrl(url) then r == Err(MalformedUrl) && apiUrl == old(apiUrl)
        else apiUrl == Some(url) && (r.Ok? <==> Connected(dialect, probe))
             && (r.Err? ==> r.error == NotConnected)
    {
      var url := Trim(address);
      if EndsWithSlash(url) {
        url := url[..|url| - 1];
      }
      if !isValidUrl(url) {
        return Err(MalformedUrl);
      }
      apiUrl := Some(url);
      var connected := match dialect
        case StatusOnly => IsConnected(probe)
        case HelloMessage => IsConnectedHello(probe);
      if !connected {
        return Err(NotConnected);
      }
      return Ok(());
    }
  }
}
