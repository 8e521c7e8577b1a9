/**
 * The admin navigation (src/components/admin/AdminSidebar.tsx): the constant menu and the
 * chain of filters that decides, per group section, which entries a signed-in user sees.
 */
module AdminSidebar {
  import opened Wrappers
  import opened Seqs

  /** One menu entry. `role` and `permission` are the optional tags of the entry. */
  datatype MenuItem = MenuItem(title: string, path: string, group: string, role: Option<string>, permission: Option<string>)

  const MenuItems: seq<MenuItem> := [
    MenuItem("Overview", "/admin/dashboard", "Management", Some("ANY"), None),
    MenuItem("User Control", "/admin/users", "Management", None, Some("view_users")),
    MenuItem("Team Management", "/admin/team", "Management", Some("FOUNDER"), None),
    MenuItem("Billing & Revenue", "/admin/billing", "Management", Some("FOUNDER"), None),
    MenuItem("System Health", "/admin/health", "System", Some("FOUNDER"), None),
    MenuItem("Global Controls", "/admin/controls", "System", Some("FOUNDER"), None),
    MenuItem("Alert Center", "/admin/alerts", "Communications", Some("FOUNDER"), None),
    MenuItem("Live Support", "/admin/support", "Communications", None, Some("support_reply")),
    MenuItem("Idea Matrix", "/admin/ideas", "Communications", None, Some("view_feedback")),
    MenuItem("Complaint Tracker", "/admin/complaints", "Communications", None, Some("view_complaints"))
  ]

  const Groups: seq<string> := ["Management", "System", "Communications"]

  /** The signed-in user as the auth context holds it; `permissions` may be missing. */
  datatype SessionUser = SessionUser(role: string, permissions: Option<map<string, bool>>)

  /** `user.permissions?.[p]` is truthy. */
  predicate Granted(u: SessionUser, p: string)
  {
    u.permissions.Some? && p in u.permissions.value && u.permissions.value[p]
  }

  /** The second filter of the chain. */
  predicate Shown(user: Option<SessionUser>, item: MenuItem)
  {
    if user.None? then false
    else if user.value.role == "FOUNDER" then true
    else if item.role == Some("FOUNDER") then false
    else if item.permission.Some? && item.permission.value != "" then Granted(user.value, item.permission.value)
    else true
  }

  /** The first filter: the entries of one group. */
  function InGroup(items: seq<MenuItem>, group: string): (r: seq<MenuItem>)
    ensures forall x :: x in r <==> x in items && x.group == group
  {
    if |items| == 0 then []
    else
      var last := items[|items| - 1];
      InGroup(items[..|items| - 1], group) + (if last.group == group then [last] else [])
  }

  /** The second filter: the entries the user may see. */
  function ShownOf(items: seq<MenuItem>, user: Option<SessionUser>): (r: seq<MenuItem>)
    ensures forall x :: x in r <==> x in items && Shown(user, x)
  {
    if |items| == 0 then []
    else
      var last := items[|items| - 1];
      ShownOf(items[..|items| - 1], user) + (if Shown(user, last) then [last] else [])
  }

  /** One pass with both conditions: the reference the chained filters are compared with. */
  function Visible(items: seq<MenuItem>, group: string, user: Option<SessionUser>): (r: seq<MenuItem>)
    ensures forall x :: x in r <==> x in items && x.group == group && Shown(user, x)
    ensures IsSubsequence(r, items)
  {
    if |items| == 0 then []
    else
      var last := items[|items| - 1];
      var rest := Visible(items[..|items| - 1], group, user);
      if last.group == group && Shown(user, last) then
        assert (rest + [last])[..|rest|] == rest;
        rest + [last]
      else rest
  }

  /** The entries listed under one group heading. */
  function Section(user: Option<SessionUser>, group: string): seq<MenuItem>
  {
    ShownOf(InGroup(MenuItems, group), user)
  }

  /** Filtering by group and then by user is one ordered pass over the menu with both conditions. */
  lemma {:induction false} ChainIsOnePass(items: seq<MenuItem>, group: string, user: Option<SessionUser>)
    ensures ShownOf(InGroup(items, group), user) == Visible(items, group, user)
  {
    if |items| > 0 {
      var init := items[..|items| - 1];
      var last := items[|items| - 1];
      ChainIsOnePass(init, group, user);
      var g := InGroup(init, group);
      if last.group == group {
        assert InGroup(items, group) == g + [last];
        assert (g + [last])[..|g|] == g;
        assert ShownOf(g + [last], user) == ShownOf(g, user) + (if Shown(user, last) then [last] else []);
      } else {
        assert InGroup(items, group) == g;
      }
    }
  }

  /** A section lists exactly the group's entries the user may see, in menu order. */
  lemma SectionContents(user: Option<SessionUser>, group: string)
    ensures forall x :: x in Section(user, group) <==> x in MenuItems && x.group == group && Shown(user, x)
    ensures IsSubsequence(Section(user, group), MenuItems)
  {
    ChainIsOnePass(MenuItems, group, user);
  }

  /** Without a signed-in user nothing is listed. */
  lemma {:induction false} NoUserNoItems(items: seq<MenuItem>)
    ensures ShownOf(items, None) == []
  {
    if |items| > 0 {
      NoUserNoItems(items[..|items| - 1]);
    }
  }

  /** Keeping every entry keeps the list as it is. */
  lemma {:induction false} ShownOfAll(items: seq<MenuItem>, user: Option<SessionUser>)
    requires forall x | x in items :: Shown(user, x)
    ensures ShownOf(items, user) == items
  {
    if |items| > 0 {
      ShownOfAll(items[..|items| - 1], user);
      assert items == items[..|items| - 1] + [items[|items| - 1]];
    }
  }

  /** A founder's section is the whole group. */
  lemma FounderSeesWholeGroup(u: SessionUser, group: string)
    requires u.role == "FOUNDER"
    ensures Section(Some(u), group) == InGroup(MenuItems, group)
  {
    ShownOfAll(InGroup(MenuItems, group), Some(u));
  }

  /**
   * For anyone else: founder-only entries never appear, a permission-tagged entry appears
   * exactly when that permission is granted, and an untagged entry always appears.
   */
  lemma NonFounderVisibility(u: SessionUser, x: MenuItem)
    requires u.role != "FOUNDER" && x in MenuItems
    ensures x.role == Some("FOUNDER") ==> x !in Section(Some(u), x.group)
    ensures x.permission.Some? ==> (x in Section(Some(u), x.group) <==> Granted(u, x.permission.value))
    ensures x.role != Some("FOUNDER") && x.permission.None? ==> x in Section(Some(u), x.group)
  {
    MenuTagsExclusive();
    SectionContents(Some(u), x.group);
  }

  /** No entry carries both tags, and every permission tag is a non-empty key. */
  lemma MenuTagsExclusive()
    ensures forall x | x in MenuItems && x.permission.Some? :: x.role.None? && x.permission.value != ""
  {
  }

  /** Every menu entry belongs to one of the three group headings. */
  lemma MenuGroupsListed()
    ensures forall x | x in MenuItems :: x.group in Groups
  {
  }

  /** The three sections together list every entry the user may see, and only those. */
  lemma SectionsCoverMenu(user: Option<SessionUser>)
    ensures forall x ::
      (x in Section(user, Groups[0]) || x in Section(user, Groups[1]) || x in Section(user, Groups[2]))
      <==> x in MenuItems && Shown(user, x)
  {
    MenuGroupsListed();
    var g0, g1, g2 := Groups[0], Groups[1], Groups[2];
    assert forall x | x in MenuItems :: x.group == g0 || x.group == g1 || x.group == g2;
    SectionContents(user, g0);
    SectionContents(user, g1);
    SectionContents(user, g2);
  }
}
