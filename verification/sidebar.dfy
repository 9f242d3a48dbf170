/** The menu of src/components/layout/Sidebar.jsx: which item is highlighted
    for the current path. */
module Sidebar {
  import opened Common

  /** The menu's paths, in order (Sidebar.jsx:8-13). */
  const MenuPaths: seq<string> := ["/", "/profile", "/chat", "/settings"]

  /** `isActive` (Sidebar.jsx:21-22): the exact path, or for any item other
      than the home item a raw string prefix of the path. */
  predicate IsActive(pathname: string, path: string) {
    pathname == path || (path != "/" && StartsWith(pathname, path))
  }

  /** The home item is highlighted on the home page only; any other item is
      highlighted exactly when its path is a prefix of the current one. */
  lemma HomeOnlyExact(pathname: string)
    ensures IsActive(pathname, "/") <==> pathname == "/"
    ensures forall path :: path != "/" ==> (IsActive(pathname, path) <==> StartsWith(pathname, path))
  {
  }

  /** The prefix test does not stop at a path separator: `/chatroom`
      highlights the chat item. */
  lemma PrefixIsRaw()
    ensures IsActive("/chatroom", "/chat") && IsActive("/profile/abc", "/profile")
  {
    assert "/chatroom"[..|"/chat"|] == "/chat";
    assert "/profile/abc"[..|"/profile"|] == "/profile";
  }

  /** The items highlighted for `pathname`. */
  function ActiveItems(pathname: string, paths: seq<string>): (r: seq<string>)
    ensures forall p :: p in r <==> p in paths && IsActive(pathname, p)
  {
    if paths == [] then []
    else (if IsActive(pathname, paths[0]) then [paths[0]] else []) + ActiveItems(pathname, paths[1..])
  }

  /** The menu's own paths never highlight two items at once. */
  lemma {:induction false} AtMostOneActive(pathname: string)
    ensures |ActiveItems(pathname, MenuPaths)| <= 1
  {
    forall i, j | 0 <= i < j < |MenuPaths|
      ensures !(IsActive(pathname, MenuPaths[i]) && IsActive(pathname, MenuPaths[j]))
    {
      var p, q := MenuPaths[i], MenuPaths[j];
      assert |q| > 1 && q != "/";
      if i > 0 && IsActive(pathname, p) {
        assert |p| > 1 && pathname[1] == p[1] != q[1];
      }
    }
    ActiveItemsCount(pathname, MenuPaths);
  }

  /** No two active items means at most one. */
  lemma {:induction false} ActiveItemsCount(pathname: string, paths: seq<string>)
    requires forall i, j :: 0 <= i < j < |paths| ==> !(IsActive(pathname, paths[i]) && IsActive(pathname, paths[j]))
    ensures |ActiveItems(pathname, paths)| <= 1
  {
    if paths != [] {
      ActiveItemsCount(pathname, paths[1..]);
      if IsActive(pathname, paths[0]) {
        forall p | p in paths[1..] ensures !IsActive(pathname, p) {
          var k :| 0 <= k < |paths[1..]| && paths[1..][k] == p;
          assert paths[k + 1] == p;
        }
        NoneActive(pathname, paths[1..]);
      }
    }
  }

  lemma {:induction false} NoneActive(pathname: string, paths: seq<string>)
    requires forall p :: p in paths ==> !IsActive(pathname, p)
    ensures ActiveItems(pathname, paths) == []
  {
    if paths != [] {
      assert forall p :: p in paths[1..] ==> p in paths;
      NoneActive(pathname, paths[1..]);
    }
  }
}
