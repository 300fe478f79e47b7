/** The session store: the signed-in user's profile, a flag telling whether
    the first load has finished, and a transient image selection. Its actions
    load the profile from the document database, and tear the session down on
    sign-out. The router is reduced to the name of the current route (an
    input) and the path an action navigates to (an output). */
module SessionStore {
  import opened Wrappers
  import opened JsValues

  /** The collection user profiles are read from. */
  const UsersCollection: string := "users"

  /** The route name of the sign-in page. */
  const AuthRouteName: string := "auth"

  const RootPath: string := "/"
  const AuthPath: string := "/auth"

  /** The payment link template, up to where the user id is interpolated. */
  const StripeLinkPrefix: string := "https://buy.stripe.com/{{apikey}}?client_reference_id="

  /** A profile document. The code reads only its `id` field; the other
      fields are carried unchanged. */
  datatype UserProfile = UserProfile(id: Option<string>, fields: map<string, string>)

  /** The empty object `{}` the store starts with: it has no `id`. */
  const EmptyProfile: UserProfile := UserProfile(None, map[])

  /** The signed-in identity the auth provider hands out. */
  datatype AuthUser = AuthUser(uid: string)

  /** Whatever the UI selects for an image variation; the store only holds it. */
  type ImageVariation = string

  /** A snapshot of the store's four state fields. */
  datatype SessionState = SessionState(
    usersCollection: string,
    user: UserProfile,
    initialLoadComplete: bool,
    imageVariation: Option<ImageVariation>)

  /** The state the store is created with and reset to. */
  const InitialState: SessionState := SessionState(UsersCollection, EmptyProfile, false, None)

  /** The document database: reading the document with a given id in a given
      collection resolves with its data or rejects. */
  type DocumentReader = (string, string) -> Result<UserProfile>

  /** The payment link for a user id, as the template literal builds it. */
  function StripeLinkFor(id: Option<string>): (link: string)
    ensures StripeLinkPrefix <= link
    ensures LinkSuffix(link) == Some(TemplateText(id))
  {
    StripeLinkPrefix + TemplateText(id)
  }

  /** The text after the fixed prefix of a link that starts with it. The id is
      interpolated without URL-encoding, so this is the raw text, not the
      query parameter a URL parser would read. */
  function LinkSuffix(link: string): Option<string>
  {
    if StripeLinkPrefix <= link then Some(link[|StripeLinkPrefix|..]) else None
  }

  /** The link of a user with an id ends in exactly that id's text, and two
      such users share a link only if they share the id. */
  lemma StripeLinkEndsInId(id: string, other: string)
    ensures LinkSuffix(StripeLinkFor(Some(id))) == Some(id)
    ensures StripeLinkFor(Some(id)) == StripeLinkFor(Some(other)) ==> id == other
  {
  }

  /** Without a profile id the link ends in the text "undefined". */
  lemma SignedOutStripeLink()
    ensures StripeLinkFor(InitialState.user.id) == StripeLinkPrefix + "undefined"
  {
  }

  /** The state after `fetchUser`. Only the profile can change, and only to the
      document read from the store's collection under the signed-in user's id;
      if either the auth lookup or the document read rejects, the error is
      swallowed and nothing changes. */
  function AfterFetchUser(s: SessionState, currentUser: Result<AuthUser>, getDoc: DocumentReader): (r: SessionState)
    ensures r.usersCollection == s.usersCollection
    ensures r.initialLoadComplete == s.initialLoadComplete
    ensures r.imageVariation == s.imageVariation
    ensures currentUser.Ok? && getDoc(s.usersCollection, currentUser.value.uid).Ok? ==>
      r.user == getDoc(s.usersCollection, currentUser.value.uid).value
    ensures currentUser.Rejected? || getDoc(s.usersCollection, currentUser.value.uid).Rejected? ==> r == s
  {
    match currentUser
    case Rejected => s
    case Ok(authUser) =>
      match getDoc(s.usersCollection, authUser.uid)
      case Rejected => s
      case Ok(profile) => s.(user := profile)
  }

  /** The state after `fetchInitialData`: the load is marked complete whether
      or not the profile could be fetched. */
  function AfterInitialLoad(s: SessionState, currentUser: Result<AuthUser>, getDoc: DocumentReader): (r: SessionState)
    ensures r.initialLoadComplete
    ensures r.user == AfterFetchUser(s, currentUser, getDoc).user
    ensures r.usersCollection == s.usersCollection
    ensures r.imageVariation == s.imageVariation
  {
    AfterFetchUser(s, currentUser, getDoc).(initialLoadComplete := true)
  }

  /** Where `fetchInitialData` navigates: to the root exactly when a user with
      an id has just signed in on the sign-in page. */
  function RedirectAfterLoad(user: UserProfile, routeName: string): (pushed: Option<string>)
    ensures pushed.Some? <==> Truthy(user.id) && routeName == AuthRouteName
    ensures pushed.Some? ==> pushed.value == RootPath
  {
    if Truthy(user.id) && routeName == AuthRouteName then Some(RootPath) else None
  }

  /** Fetching twice with the same outcomes is the same as fetching once: the
      collection the document is read from is never changed by the fetch. */
  lemma FetchUserIdempotent(s: SessionState, currentUser: Result<AuthUser>, getDoc: DocumentReader)
    ensures AfterFetchUser(AfterFetchUser(s, currentUser, getDoc), currentUser, getDoc)
         == AfterFetchUser(s, currentUser, getDoc)
  {
  }

  /** A first load whose profile fetch fails never leaves the sign-in page,
      starting from the initial state. */
  lemma FailedLoadStaysOnSignIn(currentUser: Result<AuthUser>, getDoc: DocumentReader, routeName: string)
    requires currentUser.Rejected? || getDoc(UsersCollection, currentUser.value.uid).Rejected?
    ensures RedirectAfterLoad(AfterInitialLoad(InitialState, currentUser, getDoc).user, routeName) == None
  {
  }

  /** The store itself, with the fields the actions assign in place. */
  class UserStore {
    var usersCollection: string
    var user: UserProfile
    var initialLoadComplete: bool
    var imageVariation: Option<ImageVariation>

    function State(): SessionState
      reads this
    {
      SessionState(usersCollection, user, initialLoadComplete, imageVariation)
    }

    constructor ()
      ensures State() == InitialState
    {
      usersCollection := UsersCollection;
      user := EmptyProfile;
      initialLoadComplete := false;
      imageVariation := None;
    }

    /** The `stripeLink` getter: derived from the profile id on every read. */
    function StripeLink(): (link: string)
      reads this
      ensures StripeLinkPrefix <= link
      ensures LinkSuffix(link) == Some(TemplateText(user.id))
    {
      StripeLinkFor(user.id)
    }

    /** `$reset()`: every field back to its initial value. */
    method Reset()
      modifies this
      ensures State() == InitialState
    {
      usersCollection := UsersCollection;
      user := EmptyProfile;
      initialLoadComplete := false;
      imageVariation := None;
    }

    /** `fetchUser()`: look up the signed-in user, read their profile and store
        it; a rejection anywhere is logged and swallowed. */
    method FetchUser(currentUser: Result<AuthUser>, getDoc: DocumentReader)
      modifies this
      ensures State() == AfterFetchUser(old(State()), currentUser, getDoc)
    {
      if currentUser.Rejected? {
        return;
      }
      var res := getDoc(usersCollection, currentUser.value.uid);
      if res.Rejected? {
        return;
      }
      user := res.value;
    }

    /** `fetchInitialData()`: fetch the profile, mark the first load complete,
        and leave the sign-in page once a user is known. */
    method FetchInitialData(currentUser: Result<AuthUser>, getDoc: DocumentReader, routeName: string)
      returns (pushed: Option<string>)
      modifies this
      ensures State() == AfterInitialLoad(old(State()), currentUser, getDoc)
      ensures pushed == RedirectAfterLoad(user, routeName)
    {
      FetchUser(currentUser, getDoc);
      initialLoadComplete := true;
      if Truthy(user.id) && routeName == AuthRouteName {
        pushed := Some(RootPath);
      } else {
        pushed := None;
      }
    }

    /** `logUserOut()`: sign out, reset, go to the sign-in page. A rejected
        sign-out is not caught: it reaches the caller before the reset and the
        navigation. */
    method LogUserOut(signOut: Outcome) returns (completion: Outcome, pushed: Option<string>)
      modifies this
      ensures completion == signOut
      ensures signOut.Succeeds? ==> State() == InitialState && pushed == Some(AuthPath)
      ensures signOut.Fails? ==> State() == old(State()) && pushed == None
    {
      if signOut.Fails? {
        return Fails, None;
      }
      Reset();
      completion, pushed := Succeeds, Some(AuthPath);
    }
  }
}
