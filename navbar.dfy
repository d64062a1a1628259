/** The navigation bar: active links, the account menu, the tier badge and logout. */
module Navbar {
  import opened Wrappers
  import opened Text

  /** `NavLink`'s test: the path is the link itself, or the link followed by `?` and anything. */
  function IsActive(pathname: string, href: string): (r: bool)
    ensures r <==> (pathname == href ||
      (|pathname| > |href| && pathname[..|href|] == href && pathname[|href|] == '?'))
  {
    pathname == href || StartsWith(pathname, href + "?")
  }

  /** A path below the link (not the link, not a query on it) does not mark the link active. */
  lemma SubPathNotActive(href: string, rest: string)
    requires rest != [] && rest[0] != '?'
    ensures !IsActive(href + rest, href)
  {
    assert (href + rest)[|href|] == rest[0];
    assert (href + "?")[|href|] == '?';
  }

  /**
   * Any query on the link's own path marks the link active. The pathname Next.js reports
   * never carries a query string, so in the running app this arm of the test never fires and
   * only the exact match decides.
   */
  lemma QueryIsActive(href: string, query: string)
    ensures IsActive(href + "?" + query, href)
  {
    assert (href + "?" + query)[..|href + "?"|] == href + "?";
  }

  /** The profile effect only calls the API with a signed-in user once authentication has settled. */
  predicate ShouldFetchProfile(hasUser: bool, authLoading: bool) {
    hasUser && !authLoading
  }

  /** The body of `/api/v1/users/me`. */
  datatype Profile = Profile(email: string, subscriptionTier: string)

  /** The shown account name: a non-empty profile email, otherwise the signed-in user's email. */
  function DisplayEmail(profile: Option<Profile>, userEmail: Option<string>): (r: Option<string>)
    ensures profile.Some? && profile.value.email != "" ==> r == Some(profile.value.email)
    ensures (profile.None? || profile.value.email == "") ==> r == userEmail
  {
    if profile.Some? && profile.value.email != "" then Some(profile.value.email) else userEmail
  }

  /** Whether the badge gets the emerald "Pro" colouring: exactly when the badge reads "Pro". */
  function IsProStyle(profile: Option<Profile>): (r: bool)
    ensures r <==> TierBadge(profile) == "Pro"
  {
    profile.Some? && profile.value.subscriptionTier == "Pro"
  }

  /** The badge text: the profile's tier, or "Free" when there is none. */
  function TierBadge(profile: Option<Profile>): (r: string)
    ensures r != ""
    ensures profile.Some? && profile.value.subscriptionTier != "" ==> r == profile.value.subscriptionTier
    ensures (profile.None? || profile.value.subscriptionTier == "") ==> r == "Free"
  {
    if profile.Some? && profile.value.subscriptionTier != "" then profile.value.subscriptionTier
    else "Free"
  }

  /**
   * The backend spells its tiers "FREE" and "PRO"; neither matches the "Pro" the badge tests for,
   * so a profile carrying a backend tier name never gets the Pro colouring.
   */
  lemma BackendTierNeverProStyled(email: string, tier: string)
    requires tier == "FREE" || tier == "PRO"
    ensures !IsProStyle(Some(Profile(email, tier)))
    ensures TierBadge(Some(Profile(email, tier))) == tier
  {
    assert tier[1] != "Pro"[1];
  }

  class NavbarState {
    var userMenuOpen: bool
    var mobileMenuOpen: bool
    var profile: Option<Profile>

    constructor ()
      ensures !userMenuOpen && !mobileMenuOpen && profile.None?
    {
      userMenuOpen, mobileMenuOpen, profile := false, false, None;
    }

    /** The account button toggles the account menu. */
    method ToggleUserMenu()
      modifies this`userMenuOpen
      ensures userMenuOpen == !old(userMenuOpen)
    {
      userMenuOpen := !userMenuOpen;
    }

    /** The burger button toggles the mobile menu. */
    method ToggleMobileMenu()
      modifies this`mobileMenuOpen
      ensures mobileMenuOpen == !old(mobileMenuOpen)
    {
      mobileMenuOpen := !mobileMenuOpen;
    }

    /** A route change closes the mobile menu and nothing else. */
    method OnRouteChange()
      modifies this`mobileMenuOpen
      ensures !mobileMenuOpen
    {
      mobileMenuOpen := false;
    }

    /** A mouse-down outside a menu closes that menu. */
    method ClickOutside(insideUserMenu: bool, insideMobileMenu: bool)
      modifies this`userMenuOpen, this`mobileMenuOpen
      ensures userMenuOpen == (old(userMenuOpen) && insideUserMenu)
      ensures mobileMenuOpen == (old(mobileMenuOpen) && insideMobileMenu)
    {
      if !insideUserMenu {
        userMenuOpen := false;
      }
      if !insideMobileMenu {
        mobileMenuOpen := false;
      }
    }

    /**
     * The profile effect. `response` is the API's answer (`None` when the request fails, which
     * leaves the profile as it was); `fetched` says whether the request was made at all.
     */
    method ProfileEffect(hasUser: bool, authLoading: bool, response: Option<Profile>)
      returns (fetched: bool)
      modifies this`profile
      ensures fetched <==> ShouldFetchProfile(hasUser, authLoading)
      ensures fetched && response.Some? ==> profile == response
      ensures !(fetched && response.Some?) ==> profile == old(profile)
    {
      fetched := ShouldFetchProfile(hasUser, authLoading);
      if fetched && response.Some? {
        profile := response;
      }
    }

    /**
     * `handleLogout`. `signedOut` is whether the provider's sign-out succeeded: after it, both
     * menus close, the profile is cleared and the app goes home; when it rejects, the handler
     * stops at the `await` and nothing changes.
     */
    method HandleLogout(signedOut: bool) returns (navigateTo: Option<string>)
      modifies this
      ensures signedOut ==> !userMenuOpen && !mobileMenuOpen && profile.None? && navigateTo == Some("/")
      ensures !signedOut ==>
        userMenuOpen == old(userMenuOpen) && mobileMenuOpen == old(mobileMenuOpen) &&
        profile == old(profile) && navigateTo.None?
    {
      if signedOut {
        userMenuOpen := false;
        mobileMenuOpen := false;
        profile := None;
        navigateTo := Some("/");
      } else {
        navigateTo := None;
      }
    }
  }
}
