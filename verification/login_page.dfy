/** The login page's submit step: the trimmed-empty guard, the call to the
    session's `login`, the navigation home on success, and the `isLoading`
    flag around the call; and the predicate that disables the button. */
module LoginPage {
  import opened Js
  import opened CredentialStore
  import opened AuthTransport
  import opened SessionManager
  import RouteGuard

  /** The characters `String.prototype.trim` removes: JavaScript's
      WhiteSpace and LineTerminator code points. */
  const TrimmedChars: set<char> := {
    '\t', '\n', '\U{B}', '\U{C}', '\r', ' ', '\U{A0}', '\U{1680}',
    '\U{2000}', '\U{2001}', '\U{2002}', '\U{2003}', '\U{2004}', '\U{2005}',
    '\U{2006}', '\U{2007}', '\U{2008}', '\U{2009}', '\U{200A}',
    '\U{2028}', '\U{2029}', '\U{202F}', '\U{205F}', '\U{3000}', '\U{FEFF}'
  }

  predicate IsTrimmed(c: char) {
    c in TrimmedChars
  }

  predicate AllTrimmed(s: string) {
    forall i :: 0 <= i < |s| ==> IsTrimmed(s[i])
  }

  /** Where the kept text of `s` starts: the first position at or after
      `i` that is not white space, or `|s|` if there is none. */
  function FirstKept(s: string, i: nat): (k: nat)
    requires i <= |s|
    ensures i <= k <= |s|
    ensures forall m :: i <= m < k ==> IsTrimmed(s[m])
    ensures k < |s| ==> !IsTrimmed(s[k])
    decreases |s| - i
  {
    if i < |s| && IsTrimmed(s[i]) then FirstKept(s, i + 1) else i
  }

  /** Where the kept text of `s` ends: the last position `k` in `lo..j`
      such that `s[k - 1]` is not white space, or `lo` if there is none. */
  function LastKept(s: string, lo: nat, j: nat): (k: nat)
    requires lo <= j <= |s|
    ensures lo <= k <= j
    ensures forall m :: k <= m < j ==> IsTrimmed(s[m])
    ensures k > lo ==> !IsTrimmed(s[k - 1])
    decreases j
  {
    if j > lo && IsTrimmed(s[j - 1]) then LastKept(s, lo, j - 1) else j
  }

  /** Neither end of `r` is white space. */
  predicate KeptEnds(r: string) {
    r == [] || (!IsTrimmed(r[0]) && !IsTrimmed(r[|r| - 1]))
  }

  /** The kept text is empty exactly when every character is white
      space. */
  lemma TrimmedAwayIffBlank(s: string)
    ensures var lo := FirstKept(s, 0); LastKept(s, lo, |s|) == lo <==> AllTrimmed(s)
  {
    var lo := FirstKept(s, 0);
    var hi := LastKept(s, lo, |s|);
    if hi == lo {
      assert forall m :: 0 <= m < |s| ==> IsTrimmed(s[m]);
    } else {
      assert !IsTrimmed(s[hi - 1]);
    }
  }

  /** What lies before and after the kept text is all white space. */
  lemma TrimmedAround(s: string)
    ensures var lo := FirstKept(s, 0); var hi := LastKept(s, lo, |s|);
      AllTrimmed(s[..lo]) && AllTrimmed(s[hi..])
  {
    var lo := FirstKept(s, 0);
    var hi := LastKept(s, lo, |s|);
    forall m | 0 <= m < lo ensures IsTrimmed(s[..lo][m]) {
      assert s[..lo][m] == s[m];
    }
    forall m | 0 <= m < |s| - hi ensures IsTrimmed(s[hi..][m]) {
      assert s[hi..][m] == s[hi + m];
    }
  }

  /** `s.trim()`: `s` is white space, then the result, then white space,
      and the result neither starts nor ends with white space; it is empty
      exactly when `s` is all white space. */
  function Trim(s: string): (r: string)
    ensures var i := FirstKept(s, 0); i + |r| <= |s| && r == s[i..i + |r|]
    ensures var i := FirstKept(s, 0); i + |r| <= |s| && AllTrimmed(s[..i]) && AllTrimmed(s[i + |r|..])
    ensures KeptEnds(r)
    ensures r == [] <==> AllTrimmed(s)
  {
    TrimmedAwayIffBlank(s);
    TrimmedAround(s);
    var lo := FirstKept(s, 0);
    s[lo..LastKept(s, lo, |s|)]
  }

  /** The submit guard: both fields are non-empty after trimming. */
  predicate CanSubmit(username: string, password: string) {
    Trim(username) != "" && Trim(password) != ""
  }

  /** `disabled={isLoading || !username.trim() || !password.trim()}` */
  predicate SubmitDisabled(isLoading: bool, username: string, password: string) {
    isLoading || Trim(username) == "" || Trim(password) == ""
  }

  /** The button is disabled exactly while loading or when a field is all
      white space; an enabled button means the submit guard passes. */
  lemma SubmitDisabledMatchesGuard(isLoading: bool, username: string, password: string)
    ensures SubmitDisabled(isLoading, username, password)
            <==> isLoading || AllTrimmed(username) || AllTrimmed(password)
    ensures !SubmitDisabled(isLoading, username, password) ==> CanSubmit(username, password)
    ensures !isLoading ==> (SubmitDisabled(isLoading, username, password) <==> !CanSubmit(username, password))
  {
  }

  /** The credentials `handleSubmit` hands to `login`. */
  datatype Credentials = Credentials(username: string, password: string)

  /** A call to `navigate(to, { replace })`. */
  datatype Navigation = Navigation(to: string, replace: bool)

  /** The login form's state. */
  class LoginForm {
    const auth: Session
    var username: string
    var password: string
    var isLoading: bool

    constructor (auth: Session)
      ensures this.auth == auth
      ensures username == "" && password == "" && !isLoading
    {
      this.auth := auth;
      username := "";
      password := "";
      isLoading := false;
    }

    /** `handleSubmit`: with a blank field, nothing happens; otherwise
        `login` receives the trimmed username and the password as typed,
        success navigates home replacing the history entry, and
        `isLoading` is false again when the step ends. `reply` is the
        completion of the remote login call. */
    method HandleSubmit(reply: Completion<LoginResponse>) returns (sent: Option<Credentials>, nav: Option<Navigation>)
      requires auth.Valid()
      modifies this`isLoading, auth, auth.store
      ensures auth.Valid()
      ensures sent.None? <==> !CanSubmit(username, password)
      ensures sent.None? ==>
        && nav == None && isLoading == old(isLoading)
        && unchanged(auth) && unchanged(auth.store)
      ensures sent.Some? ==>
        && sent.value == Credentials(Trim(username), password)
        && !isLoading && !auth.loading
        && (nav.Some? <==> reply.Normal?)
        && (nav.Some? ==> nav.value == Navigation(RouteGuard.HomePath, true))
      ensures sent.Some? && reply.Normal? ==>
        && auth.store.items == WithUser(WithTokens(old(auth.store.items), reply.value.accessToken, reply.value.refreshToken), reply.value.user)
        && auth.user == Some(reply.value.user) && auth.isAuthenticated
      ensures sent.Some? && reply.Threw? ==>
        && auth.store.items == old(auth.store.items)
        && auth.user == old(auth.user) && auth.isAuthenticated == old(auth.isAuthenticated)
    {
      if Trim(username) == "" || Trim(password) == "" {
        return None, None;
      }
      isLoading := true;
      sent := Some(Credentials(Trim(username), password));
      var result := auth.Login(reply);
      nav := None;
      if result.success {
        nav := Some(Navigation(RouteGuard.HomePath, true));
      }
      isLoading := false;
    }
  }
}
