/** The application shell: where the sign-in callback sends the browser, and
    how the shell starts when the authentication SDK or its settings are
    missing. A location is the path followed by its query string. */
module App {
  import opened Wrappers
  import opened Text

  /** A query value is used only when present and non-empty, as JavaScript's
      truthiness test on `get('redirect')` does. */
  predicate Given(v: Option<string>) {
    v.Some? && v.value != ""
  }

  /** `isAuthPage`: the location mentions one of the six authentication routes
      anywhere, query string included. */
  predicate IsAuthPage(currentPath: string) {
    Contains(currentPath, "/login") || Contains(currentPath, "/signup")
    || Contains(currentPath, "/callback") || Contains(currentPath, "/error")
    || Contains(currentPath, "/prompt-password") || Contains(currentPath, "/reset-password")
  }

  /** The test guarding the signed-out redirect: the location mentions one of
      the route names, without their leading slash. */
  predicate MentionsAuthWord(currentPath: string) {
    Contains(currentPath, "error") || Contains(currentPath, "signup")
    || Contains(currentPath, "login") || Contains(currentPath, "callback")
    || Contains(currentPath, "prompt-password") || Contains(currentPath, "reset-password")
  }

  /** The target of the sign-in callback, arm by arm as written, for a user
      present or not, the current location and the `redirect` query value. */
  function Target(signedIn: bool, currentPath: string, redirect: Option<string>): string {
    if signedIn then
      if Given(redirect) then redirect.value
      else if !IsAuthPage(currentPath) then
        if !Contains(currentPath, "/login") && !Contains(currentPath, "/signup") then currentPath
        else "/"
      else "/"
    else
      if !IsAuthPage(currentPath) then
        if Contains(currentPath, "/signup") then "/signup?redirect=" + currentPath
        else if Contains(currentPath, "/login") then "/login?redirect=" + currentPath
        else "/login"
      else if Given(redirect) then
        if !MentionsAuthWord(currentPath) then "/login?redirect=" + redirect.value
        else currentPath
      else if IsAuthPage(currentPath) then currentPath
      else "/login"
  }

  lemma DropSlash(w: string)
    ensures Contains("/" + w, w)
  {
    assert ("/" + w)[1..] == w;
    assert StartsWith(w, w);
  }

  lemma Unslash(s: string, w: string)
    requires Contains(s, "/" + w)
    ensures Contains(s, w)
  {
    DropSlash(w);
    ContainsTrans(s, "/" + w, w);
  }

  /** Every authentication route mentions its route name, so the signed-out
      arm that builds `/login?redirect=` from the redirect value is never
      taken. */
  lemma AuthPageMentionsWord(currentPath: string)
    requires IsAuthPage(currentPath)
    ensures MentionsAuthWord(currentPath)
  {
    if Contains(currentPath, "/login") {
      assert "/" + "login" == "/login";
      Unslash(currentPath, "login");
    } else if Contains(currentPath, "/signup") {
      assert "/" + "signup" == "/signup";
      Unslash(currentPath, "signup");
    } else if Contains(currentPath, "/callback") {
      assert "/" + "callback" == "/callback";
      Unslash(currentPath, "callback");
    } else if Contains(currentPath, "/error") {
      assert "/" + "error" == "/error";
      Unslash(currentPath, "error");
    } else if Contains(currentPath, "/prompt-password") {
      assert "/" + "prompt-password" == "/prompt-password";
      Unslash(currentPath, "prompt-password");
    } else {
      assert "/" + "reset-password" == "/reset-password";
      Unslash(currentPath, "reset-password");
    }
  }

  /** The five outcomes the callback actually reaches. A signed-in user follows
      a given redirect, otherwise stays put off the authentication pages and
      goes home from them. A signed-out user goes to the sign-in page from
      anywhere else and stays on an authentication page, redirect or not. */
  lemma TargetOutcomes(signedIn: bool, currentPath: string, redirect: Option<string>)
    ensures signedIn && Given(redirect) ==> Target(signedIn, currentPath, redirect) == redirect.value
    ensures signedIn && !Given(redirect) && !IsAuthPage(currentPath) ==>
      Target(signedIn, currentPath, redirect) == currentPath
    ensures signedIn && !Given(redirect) && IsAuthPage(currentPath) ==>
      Target(signedIn, currentPath, redirect) == "/"
    ensures !signedIn && !IsAuthPage(currentPath) ==> Target(signedIn, currentPath, redirect) == "/login"
    ensures !signedIn && IsAuthPage(currentPath) ==> Target(signedIn, currentPath, redirect) == currentPath
  {
    if !signedIn && IsAuthPage(currentPath) {
      AuthPageMentionsWord(currentPath);
    }
  }

  /** The browser state the shell keeps: whether start-up has finished, the
      last location it navigated to and the signed-in user. */
  class Shell<U> {
    var isInitialized: bool
    var navigatedTo: Option<string>
    var user: Option<U>

    constructor ()
      ensures !isInitialized && navigatedTo.None? && user.None?
    {
      isInitialized, navigatedTo, user := false, None, None;
    }

    /** `initializeApp`'s fallbacks: without the SDK, a project id or a public
        key the shell starts unauthenticated at `/login`; otherwise it waits for
        the SDK's callbacks and `started` holds. */
    method Initialize(sdkLoaded: bool, projectId: Option<string>, publicKey: Option<string>)
      returns (started: bool)
      modifies this
      ensures started <==> sdkLoaded && Given(projectId) && Given(publicKey)
      ensures !started ==> isInitialized && navigatedTo == Some("/login")
      ensures started ==> isInitialized == old(isInitialized) && navigatedTo == old(navigatedTo)
      ensures user == old(user)
    {
      if !sdkLoaded {
        isInitialized := true;
        navigatedTo := Some("/login");
        return false;
      }
      if !Given(projectId) || !Given(publicKey) {
        isInitialized := true;
        navigatedTo := Some("/login");
        return false;
      }
      return true;
    }

    /** The SDK's `onSuccess`: navigates to the chosen target and stores the
        user when one is present, clearing it otherwise. */
    method OnSuccess(signedInUser: Option<U>, currentPath: string, redirect: Option<string>)
      modifies this
      ensures isInitialized
      ensures navigatedTo == Some(Target(signedInUser.Some?, currentPath, redirect))
      ensures user == signedInUser
      ensures signedInUser.None? ==> navigatedTo == Some(if IsAuthPage(currentPath) then currentPath else "/login")
    {
      isInitialized := true;
      var target := Target(signedInUser.Some?, currentPath, redirect);
      navigatedTo := Some(target);
      if signedInUser.Some? {
        user := signedInUser;
      } else {
        user := None;
      }
      TargetOutcomes(signedInUser.Some?, currentPath, redirect);
    }

    /** The SDK's `onError`: start-up ends at `/login`. */
    method OnError()
      modifies this
      ensures isInitialized && navigatedTo == Some("/login") && user == old(user)
    {
      isInitialized := true;
      navigatedTo := Some("/login");
    }
  }
}
