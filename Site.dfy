/** The one WordPress URL helper the plugin relies on. */
module Site {

  /** ltrim($path, '/'): the path with its leading slashes, and nothing else, removed */
  function TrimLeadingSlashes(path: string): (r: string)
    ensures r == [] || r[0] != '/'
  {
    if path != [] && path[0] == '/' then TrimLeadingSlashes(path[1..]) else path
  }

  /** what is trimmed is a run of slashes, and the rest of the path is kept as it is */
  lemma {:induction false} TrimKeepsRest(path: string)
    ensures var r := TrimLeadingSlashes(path);
      && |r| <= |path| && r == path[|path| - |r|..]
      && forall i | 0 <= i < |path| - |r| :: path[i] == '/'
  {
    if path != [] && path[0] == '/' {
      TrimKeepsRest(path[1..]);
    }
  }

  /**
   * home_url($path): the site's home address, then '/' and the path with its
   * leading slashes removed; an empty path (or PHP's falsy "0") adds nothing.
   */
  function HomeUrl(home: string, path: string): string {
    if path == "" || path == "0" then home else home + "/" + TrimLeadingSlashes(path)
  }

  lemma HomeUrlOfRooted(home: string, rest: string)
    requires rest == [] || rest[0] != '/'
    ensures HomeUrl(home, "/" + rest) == home + "/" + rest
  {
    var path := "/" + rest;
    assert path[0] == '/' && path[1..] == rest;
    assert path != "0";
    assert TrimLeadingSlashes(path) == rest;
  }
}
