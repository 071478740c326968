/** The one decision the layout wrappers make, in
    src/components/layout/app-layout.tsx and src/lib/conditional-layout.tsx:
    pages under the authentication routes are shown without the dashboard
    frame. */
module Layout {
  import opened Wrappers
  import opened Strings

  /** `pathname?.startsWith('/auth')`: a raw prefix test on the current
      path, false while there is no path. */
  function IsAuthPage(pathname: Option<string>): (auth: bool)
    ensures auth <==> exists rest :: pathname == Some("/auth" + rest)
  {
    if pathname.Some? && StartsWith(pathname.value, "/auth") then
      var p := pathname.value;
      assert p == "/auth" + p[5..];
      true
    else
      assert forall rest :: pathname != Some("/auth" + rest) by {
        forall rest ensures pathname != Some("/auth" + rest) {
          AuthPrefix(rest);
        }
      }
      false
  }

  lemma AuthPrefix(rest: string)
    ensures StartsWith("/auth" + rest, "/auth")
  {
    assert ("/auth" + rest)[..5] == "/auth";
  }

  /** The test is on characters, not on path segments: the sign-in pages
      are auth pages, and so is any page whose first segment merely begins
      with "auth", such as "/authors"; with no path the frame is shown. */
  lemma PrefixNotSegment()
    ensures IsAuthPage(Some("/auth/login")) && IsAuthPage(Some("/auth"))
    ensures IsAuthPage(Some("/authors"))
    ensures !IsAuthPage(Some("/users")) && !IsAuthPage(Some("/")) && !IsAuthPage(None)
  {
    assert "/auth/login"[..5] == "/auth";
    assert "/authors"[..5] == "/auth";
    assert "/users"[..5] != "/auth" by { assert "/users"[1] != "/auth"[1]; }
  }
}
