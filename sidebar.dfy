/** The sidebar: which navigation items a user sees, which one is active for
    the current path, and the "Signed in as" label. */
module Sidebar {
  import opened Js
  import opened Auth

  datatype NavItem = NavItem(title: string, href: string)

  const BaseNavItems: seq<NavItem> := [
    NavItem("Dialer", "/home"),
    NavItem("Call Logs", "/home/call-logs"),
    NavItem("Settings", "/home/settings"),
    NavItem("KYC", "/home/kyc")
  ]

  const AdminNavItems: seq<NavItem> := [NavItem("Users", "/home/admin/users")]

  const UsersHref := "/home/admin/users"

  /** The items the sidebar renders for `user`. */
  function NavItems(user: Option<SessionUser>): (items: seq<NavItem>)
    ensures UserHasRole(user, "admin") ==> items == BaseNavItems + AdminNavItems && |items| == 5
    ensures !UserHasRole(user, "admin") ==> items == BaseNavItems && |items| == 4
    ensures items[..4] == BaseNavItems
  {
    if UserHasRole(user, "admin") then BaseNavItems + AdminNavItems else BaseNavItems
  }

  /** Only an admin is shown the link to the user administration page. */
  lemma UsersLinkOnlyForAdmin(user: Option<SessionUser>)
    ensures (exists i :: 0 <= i < |NavItems(user)| && NavItems(user)[i].href == UsersHref)
      <==> UserHasRole(user, "admin")
  {
    var items := NavItems(user);
    if UserHasRole(user, "admin") {
      assert items[4].href == UsersHref;
    } else {
      forall i | 0 <= i < |items|
        ensures items[i].href != UsersHref
      {
        assert items[i] in BaseNavItems;
      }
    }
  }

  /** The `isActive` test of an item: `/home` only on itself, every other
      item on any path that starts with its `href`. */
  predicate IsActive(pathname: string, href: string): (active: bool)
    ensures href == "/home" ==> (active <==> pathname == "/home")
    ensures href != "/home" ==> (active <==> href <= pathname)
  {
    StartsWithIsPrefix(pathname, href);
    pathname == href || (href != "/home" && StartsWith(pathname, href))
  }

  /** The test is a plain string prefix, not a path-segment match:
      `/home/kycx` lights up the KYC item. */
  lemma PrefixIsNotSegmentMatch()
    ensures IsActive("/home/kycx", "/home/kyc")
    ensures !IsActive("/home/kyc", "/home")
  {
    assert "/home/kycx"[..|"/home/kyc"|] == "/home/kyc";
  }

  /** Which of `items` are active on `pathname`. */
  function ActiveFlags(pathname: string, items: seq<NavItem>): (flags: seq<bool>)
    ensures |flags| == |items|
    ensures forall i :: 0 <= i < |items| ==> flags[i] == IsActive(pathname, items[i].href)
  {
    seq(|items|, i requires 0 <= i < |items| => IsActive(pathname, items[i].href))
  }

  /** On a sub-path of a section, the section's item is active and so is no
      other item but that section's. */
  lemma {:induction false} SectionActiveOnSubPath(user: Option<SessionUser>, suffix: string)
    ensures var flags := ActiveFlags("/home/settings" + suffix, NavItems(user));
      && flags[2]
      && !flags[0] && !flags[1] && !flags[3]
      && (|flags| == 5 ==> !flags[4])
  {
    var p := "/home/settings" + suffix;
    var items := NavItems(user);
    assert p[..|"/home/settings"|] == "/home/settings";
    assert p[..6] == "/home/";
    assert p[6] == 's';
    forall i | i in {1, 3, 4} && i < |items| && |items[i].href| <= |p|
      ensures p[..|items[i].href|] != items[i].href
    {
      assert items[i].href[6] != 's';
      assert p[..|items[i].href|][6] == 's';
    }
  }

  /** On any path at most one item is active: no href is a prefix of another
      but `/home`, which is active only on itself. */
  lemma {:induction false} AtMostOneActive(user: Option<SessionUser>, pathname: string)
    ensures var flags := ActiveFlags(pathname, NavItems(user));
      forall i, j :: 0 <= i < j < |flags| ==> !(flags[i] && flags[j])
  {
    var items := NavItems(user);
    var flags := ActiveFlags(pathname, items);
    forall i, j | 0 <= i < j < |flags| && flags[i]
      ensures !flags[j]
    {
      var a, b := items[i].href, items[j].href;
      if i == 0 {
        assert pathname == "/home";
        assert |b| > |pathname|;
      } else {
        assert a[6] != b[6];
      }
    }
  }

  /** The "Signed in as" label: `user?.email ?? "Guest"`. */
  function SignedInLabel(user: Option<SessionUser>): (shown: string)
    ensures user.None? || user.value.email.None? ==> shown == "Guest"
    ensures user.Some? && user.value.email.Some? ==> shown == user.value.email.value
  {
    match user
    case None => "Guest"
    case Some(u) => if u.email.Some? then u.email.value else "Guest"
  }
}
