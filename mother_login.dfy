/** The mother's sign-in page and the guard of her pages: any ten-character
    mobile number signs in, by writing a flag into session storage, and the
    guard admits exactly when that flag is there. */
module MotherLogin {

  const AuthKey := "mother_auth"
  const AuthValue := "authenticated"

  /** The mobile field passes when it is exactly ten characters long; which
      characters they are is not checked. */
  function LoginAccepted(mobile: string): (r: bool)
    ensures mobile == "" ==> !r
    ensures r <==> |mobile| == 10
  {
    mobile != "" && |mobile| == 10
  }

  /** Letters pass as well as digits. */
  lemma AnyTenCharacters()
    ensures LoginAccepted("abcdefghij")
  {
  }

  /** The browser's session storage. */
  class SessionStorage {
    var items: map<string, string>

    constructor ()
      ensures items == map[]
    {
      items := map[];
    }

    /** The guard of the mother's pages. */
    predicate Admits()
      reads this
    {
      AuthKey in items && items[AuthKey] == AuthValue
    }

    /** `handleLogin`: a rejected number writes nothing (the page shows an
        alert instead); an accepted one sets the flag, after which the guard
        admits. Returns whether the page navigates to the dashboard. */
    method HandleLogin(mobile: string) returns (navigated: bool)
      modifies this
      ensures navigated == LoginAccepted(mobile)
      ensures !navigated ==> items == old(items)
      ensures navigated ==> items == old(items)[AuthKey := AuthValue] && Admits()
    {
      if !LoginAccepted(mobile) {
        return false;
      }
      items := items[AuthKey := AuthValue];
      navigated := true;
    }

    /** Logging out removes the flag, after which the guard refuses. */
    method Logout()
      modifies this
      ensures items == old(items) - {AuthKey}
      ensures !Admits()
    {
      items := items - {AuthKey};
    }
  }
}
