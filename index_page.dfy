/**
 * The landing page: one `isLoggedIn` flag, set by the login form's
 * callback and cleared by the navigation bar's logout, and the choice of
 * page sections it drives.
 */
module IndexPage {
  /** The flag after `handleLogin(username, password)`. */
  function LoggedInAfterLogin(isLoggedIn: bool, username: string, password: string): (r: bool)
    ensures username != "" && password != "" ==> r
    ensures username == "" || password == "" ==> r == isLoggedIn
  {
    if username != "" && password != "" then true else isLoggedIn
  }

  /** The ids of the sections rendered, top to bottom. */
  function Sections(isLoggedIn: bool): (shown: seq<string>)
    ensures |shown| == 4 && shown[0] == "home" && shown[1] == "features" && shown[3] == "contact"
    ensures "login" in shown <==> !isLoggedIn
    ensures "evidence" in shown <==> isLoggedIn
  {
    ["home", "features"] + (if !isLoggedIn then ["login"] else ["evidence"]) + ["contact"]
  }

  /** Whatever the flag was, a login with both credentials replaces the login form by the evidence panel. */
  lemma LoginShowsEvidence(isLoggedIn: bool, username: string, password: string)
    requires username != "" && password != ""
    ensures var shown := Sections(LoggedInAfterLogin(isLoggedIn, username, password));
      "evidence" in shown && "login" !in shown
  {
  }

  /** A login attempt with a missing credential changes nothing that is shown. */
  lemma FailedLoginKeepsSections(isLoggedIn: bool, username: string, password: string)
    requires username == "" || password == ""
    ensures Sections(LoggedInAfterLogin(isLoggedIn, username, password)) == Sections(isLoggedIn)
  {
  }

  class Page {
    var isLoggedIn: bool

    constructor()
      ensures !isLoggedIn
    {
      isLoggedIn := false;
    }

    /** `handleLogin`: logs in when both fields are filled, otherwise leaves the flag as it was. */
    method Login(username: string, password: string)
      modifies this
      ensures isLoggedIn == LoggedInAfterLogin(old(isLoggedIn), username, password)
    {
      if username != "" && password != "" {
        isLoggedIn := true;
      }
    }

    /** `handleLogout`: always logs out. */
    method Logout()
      modifies this
      ensures !isLoggedIn
    {
      isLoggedIn := false;
    }

    /** The sections the page renders now. */
    method Render() returns (shown: seq<string>)
      ensures shown == Sections(isLoggedIn)
    {
      if !isLoggedIn {
        shown := ["home", "features", "login", "contact"];
      } else {
        shown := ["home", "features", "evidence", "contact"];
      }
    }
  }
}
