/** src/components/partials/Navbar.jsx: the signed-in test and logout. */
module Navbar {
  import opened Wrappers
  import opened Browser
  import opened Ui
  import Http
  import Api

  /** The keys logout removes (Navbar.jsx:11-13). */
  const SessionKeys: set<string> := {AccessKey, RefreshKey, UsernameKey}

  /** `!!localStorage.getItem("access_token")`: a stored, non-empty access token. */
  function IsAuthenticated(storage: Storage): (r: bool)
    ensures r <==> AccessKey in storage && storage[AccessKey] != ""
  {
    var token := Item(storage, AccessKey);
    token.Some? && token.value != ""
  }

  /** The navbar shows the signed-in state exactly when the client would
      attach a bearer header to the next request. */
  lemma AuthenticatedIffBearer(storage: Storage, headers: Http.Headers)
    ensures IsAuthenticated(storage) ==>
              Api.WithBearer(storage, headers)[Api.Authorization] == Api.Bearer(storage[AccessKey])
    ensures !IsAuthenticated(storage) ==> Api.WithBearer(storage, headers) == headers
    ensures IsAuthenticated(storage) <==> Api.UsableToken(storage).Some?
  {
  }

  /** The store after logout: the three session keys are gone, every other
      key keeps its value, and nobody is signed in. */
  function SignedOut(storage: Storage): (r: Storage)
    ensures forall k :: k in r <==> k in storage && k !in SessionKeys
    ensures forall k :: k in r ==> r[k] == storage[k]
    ensures !IsAuthenticated(r)
  {
    storage - SessionKeys
  }

  /** Logging out twice leaves the store as logging out once. */
  lemma SignOutIdempotent(storage: Storage)
    ensures SignedOut(SignedOut(storage)) == SignedOut(storage)
  {
  }

  /** `handleLogout` (Navbar.jsx:10-16). */
  method Logout(window: Window) returns (toast: Toast)
    modifies window
    ensures window.storage == SignedOut(old(window.storage))
    ensures window.route == "/login" && window.href == old(window.href)
    ensures toast == SuccessToast("Logged out successfully!")
  {
    window.RemoveItem(AccessKey);
    window.RemoveItem(RefreshKey);
    window.RemoveItem(UsernameKey);
    toast := SuccessToast("Logged out successfully!");
    window.Navigate("/login");
  }
}
