/**
 * The origin check of the Express server's CORS configuration: requests without an origin
 * and requests from a local development server on any port are allowed, every other origin
 * is rejected.
 */
module Cors {
  import opened Base
  import opened Text

  const LocalPrefixes: seq<string> :=
    ["http://localhost:", "http://127.0.0.1:", "https://localhost:", "https://127.0.0.1:"]

  /** The `origin` callback: `origin` is `None` when the request carries no `Origin` header. */
  function Allowed(origin: Option<string>): (ok: bool)
    ensures origin.None? ==> ok
    ensures origin.Some? && origin.value == "" ==> ok
    ensures origin.Some? && origin.value != "" ==>
      (ok <==> exists p :: p in LocalPrefixes && StartsWith(origin.value, p))
  {
    origin.None? || origin.value == ""
    || StartsWith(origin.value, LocalPrefixes[0]) || StartsWith(origin.value, LocalPrefixes[1])
    || StartsWith(origin.value, LocalPrefixes[2]) || StartsWith(origin.value, LocalPrefixes[3])
  }

  /** A local origin on any port is allowed. */
  lemma LocalPortsAllowed(port: string)
    ensures Allowed(Some("http://localhost:" + port)) && Allowed(Some("https://127.0.0.1:" + port))
    ensures Allowed(Some("http://127.0.0.1:" + port)) && Allowed(Some("https://localhost:" + port))
  {
    StartsWithItself(LocalPrefixes[0], port);
    StartsWithItself(LocalPrefixes[1], port);
    StartsWithItself(LocalPrefixes[2], port);
    StartsWithItself(LocalPrefixes[3], port);
  }

  /** The host alone, without the port separator, is rejected, as is a look-alike host. */
  lemma NearMissesRejected()
    ensures !Allowed(Some("http://localhost"))
    ensures !Allowed(Some("https://localhost"))
    ensures !Allowed(Some("http://localhost.example.com:80"))
  {
    assert !StartsWith("http://localhost", LocalPrefixes[0]) && !StartsWith("http://localhost", LocalPrefixes[1]) by {
      assert |"http://localhost"| < |LocalPrefixes[0]| == |LocalPrefixes[1]|;
    }
    assert !StartsWith("https://localhost", LocalPrefixes[0]) && !StartsWith("https://localhost", LocalPrefixes[1]) by {
      assert "https://localhost"[4] == 's' && LocalPrefixes[0][4] == ':' && LocalPrefixes[1][4] == ':';
    }
    assert !StartsWith("http://localhost.example.com:80", LocalPrefixes[0]) by {
      assert "http://localhost.example.com:80"[16] != ':';
    }
    assert !StartsWith("http://localhost.example.com:80", LocalPrefixes[1]) by {
      assert "http://localhost.example.com:80"[7] != '1';
    }
  }

  /** The check is monotone: extending an allowed non-empty origin keeps it allowed. */
  lemma AllowedExtends(origin: string, suffix: string)
    requires origin != "" && Allowed(Some(origin))
    ensures Allowed(Some(origin + suffix))
  {
    var p :| p in LocalPrefixes && StartsWith(origin, p);
    StartsWithExtend(origin, suffix, p);
  }
}
