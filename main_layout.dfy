/** The signed-in shell: the sidebar with its navigation, the avatar built
    from the stored user, and logout. */
module MainLayout {
  import opened Common
  import opened Strings
  import opened Session

  // ----- Pages ------------------------------------------------------------------------

  datatype Page = DashboardPage | WeeklyReviewPage | SettingsPage

  /** `renderPage`: the page for the active value; anything it does not
      know shows the dashboard. */
  function PageFor(active: string): (p: Page)
    ensures p == WeeklyReviewPage <==> active == "weeklyReview"
    ensures p == SettingsPage <==> active == "settings"
    ensures p == DashboardPage <==> active != "weeklyReview" && active != "settings"
  {
    if active == "dashboard" then DashboardPage
    else if active == "weeklyReview" then WeeklyReviewPage
    else if active == "settings" then SettingsPage
    else DashboardPage
  }

  /** The value the sidebar's buttons pass to `handleNavClick`. */
  function NavValue(p: Page): string {
    match p
    case DashboardPage => "dashboard"
    case WeeklyReviewPage => "weeklyReview"
    case SettingsPage => "settings"
  }

  /** Every sidebar button shows its own page, and the three values are
      distinct. */
  lemma NavValuesSelectTheirPage(p: Page, q: Page)
    ensures PageFor(NavValue(p)) == p
    ensures NavValue(p) == NavValue(q) ==> p == q
  {
  }

  // ----- Avatar text --------------------------------------------------------------

  /** `words.map(word => word[0]).join("")`: the first character of each
      word; an empty word gives `undefined`, which `join` writes as "". */
  function FirstLetters(words: seq<string>): (letters: string)
    ensures |letters| <= |words|
    decreases |words|
  {
    if |words| == 0 then ""
    else (if words[0] == "" then "" else [words[0][0]]) + FirstLetters(words[1..])
  }

  /** The characters of `s` that begin a word, read directly: a non-space
      at the start or right after a space. `atStart` says whether the
      character before `s` was a space (or there was none). */
  function WordStarts(s: string, atStart: bool): (starts: string)
    ensures ' ' !in starts
    decreases |s|
  {
    if |s| == 0 then ""
    else (if atStart && s[0] != ' ' then [s[0]] else "") + WordStarts(s[1..], s[0] == ' ')
  }

  /** Taking the first letter of each space-separated word gives exactly
      the characters that begin a word, in order. */
  lemma {:induction false} FirstLettersAreWordStarts(s: string, atStart: bool)
    ensures atStart ==> FirstLetters(Split(s, ' ')) == WordStarts(s, true)
    ensures !atStart ==> FirstLetters(Split(s, ' ')[1..]) == WordStarts(s, false)
    decreases |s|
  {
    if |s| > 0 {
      var rest := Split(s[1..], ' ');
      if s[0] == ' ' {
        FirstLettersAreWordStarts(s[1..], true);
        assert Split(s, ' ') == [""] + rest;
        assert (([""] + rest)[1..]) == rest;
      } else {
        FirstLettersAreWordStarts(s[1..], false);
        var parts := [[s[0]] + rest[0]] + rest[1..];
        assert Split(s, ' ') == parts;
        assert parts[1..] == rest[1..];
        assert parts[0][0] == s[0];
      }
    } else {
      assert Split(s, ' ') == [""];
    }
  }

  predicate NoLowercase(s: string) {
    forall i :: 0 <= i < |s| ==> !('a' <= s[i] <= 'z')
  }

  /** `getUserInitials`. */
  function UserInitials(user: Option<UserRecord>): (initials: string)
    ensures UserName(user).None? ==> initials == "U"
    ensures |initials| <= 2
    ensures NoLowercase(initials)
  {
    if UserName(user).None? then "U"
    else Take(ToUpper(FirstLetters(Split(UserName(user).value, ' '))), 2)
  }

  /** With a name, the initials are the upper-cased first characters of its
      first two words, in order; runs of spaces add nothing. */
  lemma InitialsAreFirstWordStarts(user: UserRecord)
    requires UserName(Some(user)).Some?
    ensures var starts := WordStarts(user["name"], true);
      var initials := UserInitials(Some(user));
      && |initials| == (if |starts| < 2 then |starts| else 2)
      && forall i :: 0 <= i < |initials| ==> initials[i] == UpperChar(starts[i])
  {
    FirstLettersAreWordStarts(user["name"], true);
  }

  /** `getUserFirstName`: "User" without a name, otherwise the text before
      the first space (empty when the name starts with one). */
  function UserFirstName(user: Option<UserRecord>): (first: string)
    ensures UserName(user).None? ==> first == "User"
    ensures UserName(user).Some? ==>
      var name := UserName(user).value;
      first <= name && ' ' !in first && (|first| == |name| || name[|first|] == ' ')
  {
    if UserName(user).None? then "User" else BeforeFirst(UserName(user).value, ' ')
  }

  /** The sidebar's email line: the local part with "@..." in place of the
      domain, or an invitation to sign in. */
  function MaskedEmail(user: Option<UserRecord>): (masked: string)
    ensures TextField(user, "email").None? ==> masked == "Sign in to continue"
    ensures TextField(user, "email").Some? ==>
      var email := TextField(user, "email").value;
      exists local :: masked == local + "@..." && local <= email && '@' !in local &&
        (|local| == |email| || email[|local|] == '@')
  {
    match TextField(user, "email")
    case None => "Sign in to continue"
    case Some(email) =>
      var local := BeforeFirst(email, '@');
      assert local <= email && '@' !in local && (|local| == |email| || email[|local|] == '@');
      local + "@..."
  }

  /** An address `local@domain` is shown as `local@...`, whatever the domain. */
  lemma MaskedEmailHidesDomain(user: UserRecord, local: string, domain: string)
    requires "email" in user && user["email"] == local + "@" + domain
    requires '@' !in local
    ensures MaskedEmail(Some(user)) == local + "@..."
  {
    BeforeFirstOf(local, domain, '@');
  }

  // ----- The component ---------------------------------------------------------------

  /** The MainLayout component's state hooks. */
  class MainLayoutView {
    var activePage: string
    var sidebarOpen: bool
    var user: Option<UserRecord>
    var loading: bool
    const storage: LocalStorage

    /** The mount effect: the stored user is read, a malformed one is
      ignored, and the loading screen ends. */
    constructor (storage: LocalStorage)
      ensures this.storage == storage
      ensures activePage == "dashboard" && !sidebarOpen && !loading
      ensures user == if UserKey in storage.items && storage.items[UserKey].UserJson?
        then Some(storage.items[UserKey].user) else None
    {
      this.storage := storage;
      activePage := "dashboard";
      sidebarOpen := false;
      var stored := storage.GetItem(UserKey);
      user := if stored.Some? && stored.value.UserJson? then Some(stored.value.user) else None;
      loading := false;
    }

    /** The page on screen. */
    function CurrentPage(): Page
      reads this
    {
      PageFor(activePage)
    }

    /** `handleNavClick`: the page changes and the sidebar closes. */
    method HandleNavClick(page: string)
      modifies this
      ensures activePage == page && !sidebarOpen
      ensures CurrentPage() == PageFor(page)
      ensures user == old(user) && loading == old(loading)
    {
      activePage := page;
      sidebarOpen := false;
    }

    /** The hamburger button. */
    method ToggleSidebar()
      modifies this
      ensures sidebarOpen == !old(sidebarOpen)
      ensures activePage == old(activePage) && user == old(user) && loading == old(loading)
    {
      sidebarOpen := !sidebarOpen;
    }

    /** `handleLogout`: the token and the user are removed, and nothing else. */
    method HandleLogout()
      modifies storage
      ensures storage.items == WithoutSession(old(storage.items))
      ensures !IsAuthenticated(storage.items)
    {
      ClearSession(storage);
      SessionLifecycle(old(storage.items), map[], "");
    }
  }
}
