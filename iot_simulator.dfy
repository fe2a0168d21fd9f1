/** `simulasi_iot.py`: the endpoint URLs the device simulator posts to. The
    HTTP calls, argument parsing and random measurements are outside the
    model. */
module IotSimulator {
  import opened PyStr

  const DefaultDid := "IOT_001"
  const SendPath := "/recive"

  /** `RESET_PATH.format(did=did)`. */
  function ResetPath(did: string): (p: string)
    ensures StartsWith(p, "/reset/") && p[|"/reset/"|..] == did
  {
    "/reset/" + did
  }

  /** The host already names a scheme. */
  predicate HasScheme(host: string) {
    StartsWith(host, "http://") || StartsWith(host, "https://")
  }

  /** The base of a URL: a host with a scheme loses its trailing slashes and
      the port is not used; any other host gets `http://` and `:port`. */
  function Base(host: string, port: int): (b: string)
    ensures HasScheme(host) ==> b == RStripChar(host, '/') && (b == [] || b[|b| - 1] != '/')
    ensures !HasScheme(host) ==> b == "http://" + host + ":" + IntToDecimal(port)
  {
    if HasScheme(host) then RStripChar(host, '/') else "http://" + host + ":" + IntToDecimal(port)
  }

  /** A path gets a leading slash when it lacks one. */
  function NormPath(path: string): (p: string)
    ensures StartsWith(p, "/")
    ensures StartsWith(path, "/") ==> p == path
    ensures !StartsWith(path, "/") ==> p == "/" + path
  {
    if StartsWith(path, "/") then path else "/" + path
  }

  /** `build_url`: the base, one slash, then the path without its own
      leading slash. */
  function BuildUrl(host: string, port: int, path: string): (url: string)
    ensures url == Base(host, port) + "/" + (if StartsWith(path, "/") then path[1..] else path)
  {
    Base(host, port) + NormPath(path)
  }

  /** Normalising a path twice is normalising it once. */
  lemma NormPathIdempotent(path: string)
    ensures NormPath(NormPath(path)) == NormPath(path)
  {
  }

  /** The URL is the base followed by a slash and the path without its own
      leading slash; so the base is always followed by exactly one '/' from
      the path when the path had at most one. */
  lemma BuildUrlSplits(host: string, port: int, path: string)
    ensures var b := Base(host, port);
      var url := BuildUrl(host, port, path);
      |url| > |b| && url[..|b|] == b && url[|b|] == '/'
      && url[|b| + 1..] == (if StartsWith(path, "/") then path[1..] else path)
  {
    var b := Base(host, port);
    var p := NormPath(path);
    var url := b + p;
    assert url[..|b|] == b;
    assert url[|b|] == p[0] == '/';
    assert url[|b| + 1..] == p[1..];
    if !StartsWith(path, "/") {
      assert p[1..] == path;
    }
  }

  /** With a scheme, the port is ignored. */
  lemma PortIgnoredWithScheme(host: string, p1: int, p2: int, path: string)
    requires HasScheme(host)
    ensures BuildUrl(host, p1, path) == BuildUrl(host, p2, path)
  {
  }

  /** With a scheme, trailing slashes on the host make no difference. */
  lemma TrailingSlashesIgnored(host: string, port: int, path: string)
    requires HasScheme(host)
    ensures HasScheme(host + "/") && BuildUrl(host + "/", port, path) == BuildUrl(host, port, path)
  {
    var h := host + "/";
    assert h[..|host|] == host;
    if StartsWith(host, "http://") {
      assert h[..7] == host[..7];
    } else {
      assert h[..8] == host[..8];
    }
    assert h[..|h| - 1] == host;
  }

  /** A leading slash on the path makes no difference. */
  lemma LeadingSlashOptional(host: string, port: int, path: string)
    requires !StartsWith(path, "/")
    ensures BuildUrl(host, port, "/" + path) == BuildUrl(host, port, path)
  {
    assert ("/" + path)[..1] == "/";
  }

  /** A bare host and port: "localhost", 5000 and "recive" give
      "http://localhost:5000/recive". */
  lemma BuildUrlExample()
    ensures BuildUrl("localhost", 5000, "recive") == "http://localhost:5000/recive"
  {
    LocalhostBase();
    RecivePath();
    assert "http://localhost:5000" + "/recive" == "http://localhost:5000/recive";
  }

  lemma LocalhostBase()
    ensures Base("localhost", 5000) == "http://localhost:5000"
  {
    var host := "localhost";
    assert host[..7] != "http://" && host[..8] != "https://" by {
      assert host[0] == 'l';
    }
    assert !HasScheme(host);
    Decimal5000();
    assert "http://" + host + ":" + "5000" == "http://localhost:5000";
  }

  lemma RecivePath()
    ensures NormPath("recive") == "/recive"
  {
    var path := "recive";
    assert path[..1] != "/" by {
      assert path[0] == 'r';
    }
    assert "/" + path == "/recive";
  }

  lemma Decimal5000()
    ensures IntToDecimal(5000) == "5000"
  {
    assert NatToDecimal(5) == "5";
    assert NatToDecimal(50) == "50";
    assert NatToDecimal(500) == "500";
  }

  /** The reset URL of a device ends in `/reset/<did>` right after the base. */
  lemma ResetUrlShape(host: string, port: int, did: string)
    ensures BuildUrl(host, port, ResetPath(did)) == Base(host, port) + "/reset/" + did
  {
  }
}
