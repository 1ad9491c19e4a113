/** The banner asking signed-in customers to add a phone number
    (src/components/PhoneAlert.tsx). */
module PhoneAlert {
  import opened Types

  /** The page where the phone number is entered, and the banner's link. */
  const OnboardingPath: string := "/onboarding"

  /** The banner's link when it shows: for a signed-in user without a phone,
      anywhere but the onboarding page itself. */
  function Banner(isAuthenticated: bool, user: Option<User>, pathname: string): (link: Option<string>)
    ensures link.Some? ==> link.value == OnboardingPath
    ensures link.None? <==>
      !isAuthenticated || user.None? || Truthy(user.value.phone) || pathname == OnboardingPath
  {
    if !isAuthenticated || user.None? || Truthy(user.value.phone) || pathname == OnboardingPath then None
    else Some(OnboardingPath)
  }

  /** The banner never shows on the page it links to, and saving a non-empty
      phone number takes it away everywhere. */
  lemma BannerGoesAway(isAuthenticated: bool, user: User, pathname: string, phone: string)
    requires phone != ""
    ensures var link := Banner(isAuthenticated, Some(user), pathname);
      link.Some? ==> pathname != link.value
    ensures Banner(isAuthenticated, Some(user.(phone := Some(phone))), pathname) == None
  {
  }
}
