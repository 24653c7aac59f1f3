/** The two route helpers of the Express app: the admin mount path and the
    test for the SPA JSON endpoints. */
module AppRoutes {
  import opened Js

  /** The end of the run of slashes that starts at `i`. */
  function SlashRunEnd(s: string, i: nat): (j: nat)
    requires i <= |s|
    ensures i <= j <= |s|
    ensures forall k :: i <= k < j ==> s[k] == '/'
    ensures j == |s| || s[j] != '/'
    decreases |s| - i
  {
    if i < |s| && s[i] == '/' then SlashRunEnd(s, i + 1) else i
  }

  /** The start of the run of slashes that ends just before `j`. */
  function SlashRunStart(s: string, j: nat): (e: nat)
    requires j <= |s|
    ensures e <= j
    ensures forall k :: e <= k < j ==> s[k] == '/'
    ensures e == 0 || s[e - 1] != '/'
  {
    if j > 0 && s[j - 1] == '/' then SlashRunStart(s, j - 1) else j
  }

  /** `replace(/^\/+/, '')`. */
  function DropLeadingSlashes(s: string): (r: string)
    ensures |r| <= |s| && r == s[|s| - |r|..]
    ensures r == [] || r[0] != '/'
    ensures forall i :: 0 <= i < |s| - |r| ==> s[i] == '/'
  {
    s[SlashRunEnd(s, 0)..]
  }

  /** `replace(/\/+$/, '')`. */
  function DropTrailingSlashes(s: string): (r: string)
    ensures |r| <= |s| && r == s[..|r|]
    ensures r == [] || r[|r| - 1] != '/'
    ensures forall i :: |r| <= i < |s| ==> s[i] == '/'
  {
    s[..SlashRunStart(s, |s|)]
  }

  /** Both replacements of the `ADMIN_PATH` expression. */
  function StripSlashes(s: string): string {
    DropTrailingSlashes(DropLeadingSlashes(s))
  }

  /** `ADMIN_PATH`: the configured path (default `admin` when unset or
      empty) with every leading and trailing slash removed. */
  function AdminPath(env: string): string {
    StripSlashes(if env == "" then "admin" else env)
  }

  /** The stripped path has no slash at either end, and it is the input
      with only slashes cut from its two ends: every character between the
      first and the last non-slash character is kept. */
  lemma StripSlashesSpec(s: string)
    ensures var r, i := StripSlashes(s), |s| - |DropLeadingSlashes(s)|;
      && (r == [] || (r[0] != '/' && r[|r| - 1] != '/'))
      && i + |r| <= |s| && s[i..i + |r|] == r
      && (forall k :: 0 <= k < i ==> s[k] == '/')
      && (forall k :: i + |r| <= k < |s| ==> s[k] == '/')
  {
    var a := DropLeadingSlashes(s);
    var r := DropTrailingSlashes(a);
    var i := |s| - |a|;
    MiddleSlice(s, a, r, i);
    forall k | i + |r| <= k < |s|
      ensures s[k] == '/'
    {
      assert s[k] == a[k - i];
    }
    if r != [] {
      assert r[0] == a[0];
    }
  }

  /** The default path is kept as it is. */
  lemma AdminPathDefault()
    ensures AdminPath("") == "admin"
  {
    assert DropLeadingSlashes("admin") == "admin";
    assert DropTrailingSlashes("admin") == "admin";
  }

  /** `wantsSpaJson(req)` on `req.path` (a missing path is ''). */
  function WantsSpaJson(path: string, adminPath: string): bool {
    StartsWith(path, "/p/") || StartsWith(path, "/" + adminPath + "/p/") || Includes(path, "/p/")
  }

  /** The two prefix tests are subsumed by the substring test: the result
      is exactly whether the path contains `/p/`. */
  lemma WantsSpaJsonSpec(path: string, adminPath: string)
    ensures WantsSpaJson(path, adminPath) <==> Includes(path, "/p/")
    ensures !WantsSpaJson("", adminPath)
  {
    if StartsWith(path, "/p/") {
      IncludesInfix("", "/p/", path[3..]);
      assert "" + "/p/" + path[3..] == path;
    }
    var pre := "/" + adminPath + "/p/";
    if StartsWith(path, pre) {
      IncludesInfix("/" + adminPath, "/p/", path[|pre|..]);
      assert "/" + adminPath + "/p/" + path[|pre|..] == path;
    }
  }
}
