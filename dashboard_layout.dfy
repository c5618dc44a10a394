/**
 * The dashboard shell (app/dashboard/layout.tsx): the avatar initials and
 * the role read from the stored and the fetched user, which links and
 * panels the sidebar shows, the mobile menu flag, and logout.
 */
module Dashboard {
  import opened Wrappers
  import opened Text
  import opened FieldErrors
  import opened Session

  /** `name?.charAt(0)?.toUpperCase() || fallback`, for the ASCII letters `UpperChar` maps. */
  function Initial(name: Option<string>, fallback: char): (c: char)
    ensures IsLower(c) ==> !Truthy(name) && c == fallback
  {
    if Truthy(name) then UpperChar(name.value[0]) else fallback
  }

  /** The two initials of a user, "AD" when there is none. */
  function Initials(user: Option<UserInfo>): (r: string)
    ensures |r| == 2
    ensures forall k :: 0 <= k < |r| ==> !IsLower(r[k])
    ensures user.None? ==> r == "AD"
    ensures user.Some? ==> r == [Initial(user.value.firstName, 'A'), Initial(user.value.lastName, 'D')]
  {
    match user
    case None => "AD"
    case Some(u) => [Initial(u.firstName, 'A'), Initial(u.lastName, 'D')]
  }

  /** A name that starts with a lower-case letter shows it in upper case; a missing name shows the default. */
  lemma InitialsOfNames(first: string, last: string, role: Option<string>)
    requires first != "" && last != ""
    ensures var r := Initials(Some(UserInfo(Some(first), Some(last), role)));
            r[0] == UpperChar(first[0]) && r[1] == UpperChar(last[0])
            && (IsLower(first[0]) ==> r[0] as int == first[0] as int - 32)
    ensures Initials(Some(UserInfo(None, None, role))) == "AD"
    ensures Initials(Some(UserInfo(Some(""), Some(""), role))) == "AD"
  {
  }

  /** `user?.role || ""`. */
  function RoleOf(user: Option<UserInfo>): (r: string)
    ensures r != "" ==> user.Some? && user.value.role == Some(r)
  {
    if user.Some? && Truthy(user.value.role) then user.value.role.value else ""
  }

  const LeadsPrefix := "/dashboard/leads/"

  /** `/^\/dashboard\/leads\/[^/]+$/.test(p)`: the prefix, then one or more characters none of which is `/`. */
  predicate IsDetailPath(p: string)
    ensures IsDetailPath(p) ==>
              |p| > |LeadsPrefix| && var id := p[|LeadsPrefix|..]; p == LeadsPrefix + id && id != "" && '/' !in id
  {
    |p| > |LeadsPrefix| && p[..|LeadsPrefix|] == LeadsPrefix
    && forall k :: |LeadsPrefix| <= k < |p| ==> p[k] != '/'
  }

  /** The test on `pathname || ""`; the empty string never matches, so a missing path is not a detail page. */
  predicate IsLeadDetailPage(pathname: Option<string>) {
    pathname.Some? && IsDetailPath(pathname.value)
  }

  /** A detail page is the leads path followed by exactly one non-empty segment. */
  lemma LeadDetailPageIff(id: string)
    ensures IsLeadDetailPage(Some(LeadsPrefix + id)) <==> id != "" && '/' !in id
  {
    var p := LeadsPrefix + id;
    var n := |LeadsPrefix|;
    assert p[..n] == LeadsPrefix;
    if '/' in id {
      var k :| 0 <= k < |id| && id[k] == '/';
      assert p[n + k] == '/';
    } else {
      forall k | n <= k < |p|
        ensures p[k] != '/'
      {
        assert p[k] == id[k - n];
      }
    }
  }

  /** The list itself, a nested path and a missing path are not detail pages. */
  lemma OtherPagesAreNotDetailPages()
    ensures !IsLeadDetailPage(Some("/dashboard/leads"))
    ensures !IsLeadDetailPage(Some("/dashboard/leads/"))
    ensures !IsLeadDetailPage(Some("/dashboard/leads/a/notes"))
    ensures !IsLeadDetailPage(None)
  {
    var nested := "/dashboard/leads/a/notes";
    assert nested[..|LeadsPrefix|] == LeadsPrefix;
    assert nested[18] == '/';
  }

  /** The hrefs of the sidebar, in order: Leads for everyone, then Users for a super admin. */
  function SidebarLinks(role: string): (links: seq<string>)
    ensures |links| >= 1 && links[0] == "/dashboard/leads"
    ensures "/dashboard/users" in links <==> role == "SuperAdmin"
  {
    ["/dashboard/leads"] + (if role == "SuperAdmin" then ["/dashboard/users"] else [])
  }

  /** What the shell draws beside the page content. */
  datatype Chrome = Chrome(sidebar: bool, overlay: bool, links: seq<string>)

  /** While loading only a spinner shows; a detail page hides the sidebar and its overlay. */
  function ShellChrome(isLoading: bool, pathname: Option<string>, role: string, menuOpen: bool): (c: Option<Chrome>)
    ensures isLoading <==> c.None?
    ensures c.Some? ==> (c.value.sidebar <==> !IsLeadDetailPage(pathname))
    ensures c.Some? ==> (c.value.overlay <==> !IsLeadDetailPage(pathname) && menuOpen)
    ensures c.Some? && c.value.sidebar ==> c.value.links == SidebarLinks(role)
    ensures c.Some? && !c.value.sidebar ==> c.value.links == []
  {
    if isLoading then None
    else
      var detail := IsLeadDetailPage(pathname);
      Some(Chrome(!detail, !detail && menuOpen, if detail then [] else SidebarLinks(role)))
  }

  /** The `getMe` request: it threw, or it returned, with a user or without. */
  datatype MeResult = MeFailed | MeOk(user: Option<UserInfo>)

  /** The shell's state. */
  class DashboardShell {
    var initials: string
    var role: string
    var isMobileMenuOpen: bool
    var isLoading: bool

    constructor ()
      ensures initials == "AD" && role == "" && !isMobileMenuOpen && isLoading
    {
      initials := "AD";
      role := "";
      isMobileMenuOpen := false;
      isLoading := true;
    }

    /**
     * The mount effect: a stored user is shown first; a stored value that
     * is not a user record fails to parse and ends the effect; then the
     * fetched user, or none, replaces it, and is stored when there is one.
     * Loading ends in every case.
     */
    method LoadIdentity(storage: LocalStorage, me: MeResult)
      modifies this`initials, this`role, this`isLoading, storage
      ensures !isLoading && isMobileMenuOpen == old(isMobileMenuOpen)
      ensures var stored := old(storage.GetItem(UserKey));
              var unparseable := stored.Some? && stored.value.PlainText? && stored.value.text != "";
              var shown := if stored.Some? && stored.value.UserJson? then Some(stored.value.user) else None;
              if unparseable then
                initials == old(initials) && role == old(role) && storage.items == old(storage.items)
              else if me.MeFailed? then
                (shown.Some? ==> initials == Initials(shown) && role == RoleOf(shown))
                && (shown.None? ==> initials == old(initials) && role == old(role))
                && storage.items == old(storage.items)
              else
                initials == Initials(me.user) && role == RoleOf(me.user)
                && storage.items == (if me.user.Some? then old(storage.items)[UserKey := UserJson(me.user.value)]
                                     else old(storage.items))
    {
      var stored := storage.GetItem(UserKey);
      if stored.Some? {
        match stored.value
        case UserJson(u) =>
          role := RoleOf(Some(u));
          initials := Initials(Some(u));
        case PlainText(t) =>
          if t != "" {
            isLoading := false;
            return;
          }
      }
      if me.MeOk? {
        role := RoleOf(me.user);
        initials := Initials(me.user);
        if me.user.Some? {
          storage.SetItem(UserKey, UserJson(me.user.value));
        }
      }
      isLoading := false;
    }

    /** `handleLogout`: whether the request succeeds or not, both keys are removed and the page goes to login. */
    method Logout(storage: LocalStorage, requestOk: bool) returns (navigatedTo: string)
      modifies storage
      ensures storage.items == old(storage.items) - {TokenKey, UserKey}
      ensures navigatedTo == "/login"
    {
      storage.RemoveItem(TokenKey);
      storage.RemoveItem(UserKey);
      navigatedTo := "/login";
    }

    method ToggleMobileMenu()
      modifies this`isMobileMenuOpen
      ensures isMobileMenuOpen == !old(isMobileMenuOpen)
    {
      isMobileMenuOpen := !isMobileMenuOpen;
    }

    method CloseMobileMenu()
      modifies this`isMobileMenuOpen
      ensures !isMobileMenuOpen
    {
      isMobileMenuOpen := false;
    }
  }
}
