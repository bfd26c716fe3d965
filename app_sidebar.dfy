/** The dashboard's navigation: a fixed table of items, each listing the roles that
    see it, filtered by the viewer's role; an item is highlighted when the current
    pathname is its href. */
module AppSidebar {
  import opened Types
  import Seqs

  datatype NavItem = NavItem(caption: string, href: string, roles: seq<Role>)

  const HomeItem: NavItem := NavItem("Home", "/student", [User, Counselor, Moderator, Admin])
  const PeerSupportItem: NavItem := NavItem("Peer Support", "/peer-support", [User, Counselor, Moderator, Admin])
  const MessagesItem: NavItem := NavItem("Messages", "/messages", [User, Counselor])
  const CounselorItem: NavItem := NavItem("Counselor Dashboard", "/counselor", [Counselor, Admin])
  const ModeratorItem: NavItem := NavItem("Moderator Queue", "/moderator", [Moderator, Admin])
  const AdminItem: NavItem := NavItem("Admin Console", "/admin", [Admin])

  /** `allNavItems`, in display order. */
  const AllNavItems: seq<NavItem> :=
    [HomeItem, PeerSupportItem, MessagesItem, CounselorItem, ModeratorItem, AdminItem]

  /** `allNavItems.filter(item => item.roles.includes(role))`. */
  function VisibleItems(role: Role): (items: seq<NavItem>)
    ensures Seqs.IsSubsequence(items, AllNavItems)
  {
    Seqs.FilterIsSubsequence((it: NavItem) => role in it.roles, AllNavItems);
    Seqs.Filter((it: NavItem) => role in it.roles, AllNavItems)
  }

  /** The visible items are exactly the table's items that list the role. */
  lemma VisibleItemsAreFiltered(role: Role)
    ensures forall it :: it in VisibleItems(role) <==> it in AllNavItems && role in it.roles
  {
    var keep := (it: NavItem) => role in it.roles;
    forall it ensures it in VisibleItems(role) <==> it in AllNavItems && role in it.roles {
      Seqs.FilterMembership(keep, AllNavItems, it);
    }
  }

  /** `pathname === item.href`. */
  predicate IsActive(pathname: string, item: NavItem)
  {
    pathname == item.href
  }

  /** The menu each role sees, in order. */
  function ExpectedMenu(role: Role): seq<NavItem>
  {
    match role
    case User => [HomeItem, PeerSupportItem, MessagesItem]
    case Counselor => [HomeItem, PeerSupportItem, MessagesItem, CounselorItem]
    case Moderator => [HomeItem, PeerSupportItem, ModeratorItem]
    case Admin => [HomeItem, PeerSupportItem, CounselorItem, ModeratorItem, AdminItem]
  }

  lemma MenuOf(role: Role)
    ensures VisibleItems(role) == ExpectedMenu(role)
  {
    match role
    case User => UserMenu();
    case Counselor => CounselorMenu();
    case Moderator => ModeratorMenu();
    case Admin => AdminMenu();
  }

  lemma UserMenu()
    ensures VisibleItems(User) == ExpectedMenu(User)
  {
    var keep := (it: NavItem) => User in it.roles;
    FilterSix(keep, AllNavItems);
    assert Seqs.Kept(keep, CounselorItem) == [] && Seqs.Kept(keep, ModeratorItem) == [] && Seqs.Kept(keep, AdminItem) == [];
  }

  lemma CounselorMenu()
    ensures VisibleItems(Counselor) == ExpectedMenu(Counselor)
  {
    var keep := (it: NavItem) => Counselor in it.roles;
    FilterSix(keep, AllNavItems);
    assert Seqs.Kept(keep, ModeratorItem) == [] && Seqs.Kept(keep, AdminItem) == [];
  }

  lemma ModeratorMenu()
    ensures VisibleItems(Moderator) == ExpectedMenu(Moderator)
  {
    var keep := (it: NavItem) => Moderator in it.roles;
    FilterSix(keep, AllNavItems);
    assert Seqs.Kept(keep, MessagesItem) == [] && Seqs.Kept(keep, CounselorItem) == [] && Seqs.Kept(keep, AdminItem) == [];
  }

  lemma AdminMenu()
    ensures VisibleItems(Admin) == ExpectedMenu(Admin)
  {
    var keep := (it: NavItem) => Admin in it.roles;
    FilterSix(keep, AllNavItems);
    assert Seqs.Kept(keep, MessagesItem) == [];
  }

  /** The filter over a six-element list, element by element. */
  lemma FilterSix<T>(keep: T -> bool, s: seq<T>)
    requires |s| == 6
    ensures Seqs.Filter(keep, s) == Seqs.Kept(keep, s[0]) + (Seqs.Kept(keep, s[1]) + (Seqs.Kept(keep, s[2])
                                  + (Seqs.Kept(keep, s[3]) + (Seqs.Kept(keep, s[4]) + Seqs.Kept(keep, s[5])))))
  {
    var t5 := Seqs.Kept(keep, s[5]);
    var t4 := Seqs.Kept(keep, s[4]) + t5;
    var t3 := Seqs.Kept(keep, s[3]) + t4;
    var t2 := Seqs.Kept(keep, s[2]) + t3;
    var t1 := Seqs.Kept(keep, s[1]) + t2;
    assert Seqs.Filter(keep, s[5..]) == t5 by {
      assert s[6..] == [];
      Seqs.FilterFrom(keep, s, 5);
    }
    assert Seqs.Filter(keep, s[4..]) == t4 by { Seqs.FilterFrom(keep, s, 4); }
    assert Seqs.Filter(keep, s[3..]) == t3 by { Seqs.FilterFrom(keep, s, 3); }
    assert Seqs.Filter(keep, s[2..]) == t2 by { Seqs.FilterFrom(keep, s, 2); }
    assert Seqs.Filter(keep, s[1..]) == t1 by { Seqs.FilterFrom(keep, s, 1); }
    assert s[0..] == s;
    Seqs.FilterFrom(keep, s, 0);
  }
  /** Who sees which item. */
  lemma ItemVisibility(role: Role)
    ensures HomeItem in VisibleItems(role) && PeerSupportItem in VisibleItems(role)
    ensures MessagesItem in VisibleItems(role) <==> role == User || role == Counselor
    ensures CounselorItem in VisibleItems(role) <==> role == Counselor || role == Admin
    ensures ModeratorItem in VisibleItems(role) <==> role == Moderator || role == Admin
    ensures AdminItem in VisibleItems(role) <==> role == Admin
  {
    MenuOf(role);
  }

  /** The hrefs are distinct, so at most one visible item is highlighted, and the test
      is exact: a page below an item's href does not highlight it. */
  lemma AtMostOneActive(pathname: string, role: Role, i: int, j: int)
    requires 0 <= i < |VisibleItems(role)| && 0 <= j < |VisibleItems(role)|
    requires IsActive(pathname, VisibleItems(role)[i]) && IsActive(pathname, VisibleItems(role)[j])
    ensures i == j
  {
    MenuOf(role);
    MenuHrefsDistinct(role);
  }

  /** No two entries of a menu share an href. */
  lemma MenuHrefsDistinct(role: Role)
    ensures forall a, b :: 0 <= a < b < |ExpectedMenu(role)| ==> ExpectedMenu(role)[a].href != ExpectedMenu(role)[b].href
  {
  }

  lemma ActiveIsExact()
    ensures !IsActive("/student/quiz", HomeItem)
    ensures IsActive("/student", HomeItem)
  {
  }
}
