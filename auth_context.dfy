/**
 * The authentication context's session state: the signed-in user, the admin flag and the
 * loading flag, as demo mode sets them directly and as the live listener sets them from
 * the identity service. The service's own calls are parameters: what a live call resolves
 * or rejects with is passed in.
 */
module Auth {
  import opened Common

  /** The admin rule: an email in this domain denotes an administrator. */
  const AdminSuffix := "@allin-production.com"

  const RejectNoUser := "No user logged in"

  const GoogleDemoEmail := "demo.user@gmail.com"

  /** The part of the user object the context relies on. */
  datatype User = User(uid: string, email: Option<string>, emailVerified: bool,
                       displayName: Option<string>, providerIds: seq<string>)

  /** `!import.meta.env.VITE_FIREBASE_API_KEY`: demo mode unless a non-empty key is configured. */
  function IsDemoMode(apiKey: Option<string>): (demo: bool)
    ensures demo <==> apiKey.None? || apiKey == Some("")
  {
    !Truthy(apiKey)
  }

  /**
   * The client-side admin rule, `email.endsWith('@allin-production.com')`: the email is some
   * local part followed by the admin domain, so it holds an `@`.
   */
  function IsAdminEmail(email: string): (admin: bool)
    ensures admin <==> exists local: string :: local + AdminSuffix == email
    ensures admin ==> '@' in email
  {
    EndsWithIsConcatenation(email, AdminSuffix);
    var admin := EndsWith(email, AdminSuffix);
    assert admin ==> email[|email| - |AdminSuffix|] == AdminSuffix[0];
    admin
  }

  /** The display name of a demo user: `email.split('@')[0]`. */
  function DisplayNameOf(email: string): (r: string)
    ensures r <= email && '@' !in r
    ensures |r| < |email| ==> email[|r|] == '@'
  {
    PrefixBefore(email, '@')
  }

  /** The mock user of a demo sign-up or log-in, created at clock reading `now`. */
  function DemoUser(email: string, now: nat): (u: User)
    ensures u.email == Some(email) && u.emailVerified
    ensures u.displayName == Some(DisplayNameOf(email))
  {
    User("demo-user-" + Decimal(now), Some(email), true, Some(DisplayNameOf(email)), [])
  }

  /** The mock user of a demo Google sign-in, created at clock reading `now`. */
  function DemoGoogleUser(now: nat): (u: User)
    ensures u.email == Some(GoogleDemoEmail) && u.providerIds == ["google.com"]
  {
    User("demo-google-user-" + Decimal(now), Some(GoogleDemoEmail), true, Some("Demo Google User"), ["google.com"])
  }

  /** The live listener's rule: admin only for a present user with a truthy email that ends in the admin suffix. */
  function AdminOf(user: Option<User>): (admin: bool)
    ensures admin ==> user.Some? && user.value.email.Some? && IsAdminEmail(user.value.email.value)
    ensures user.Some? && user.value.email.Some? && IsAdminEmail(user.value.email.value) ==> admin
  {
    if user.Some? && Truthy(user.value.email) then IsAdminEmail(user.value.email.value) else false
  }

  /** The demo display name is everything before the first `@`, e.g. "jane" for "jane@allin-production.com". */
  lemma DisplayNameExample()
    ensures DisplayNameOf("jane@allin-production.com") == "jane"
    ensures DisplayNameOf("a@b@c") == "a"
    ensures DisplayNameOf("nobody") == "nobody"
  {
    assert "jane@allin-production.com" == "jane" + "@allin-production.com";
    PrefixBeforeOfConcat("jane", "@allin-production.com");
    assert "a@b@c" == "a" + "@b@c";
    PrefixBeforeOfConcat("a", "@b@c");
    assert "nobody" == "nobody" + "";
    PrefixBeforeOfConcat("nobody", "");
  }

  /** The display name of `p + rest`, when `p` has no `@` and `rest` is empty or starts with one, is `p`. */
  lemma {:induction false} PrefixBeforeOfConcat(p: string, rest: string)
    requires '@' !in p
    requires rest == [] || rest[0] == '@'
    ensures PrefixBefore(p + rest, '@') == p
  {
    if p != [] {
      assert (p + rest)[1..] == p[1..] + rest;
      PrefixBeforeOfConcat(p[1..], rest);
    }
  }

  /** The demo and live admin rules agree on demo users; the Google demo user is never an admin. */
  lemma AdminRulesAgree(email: string, now: nat)
    ensures AdminOf(Some(DemoUser(email, now))) == IsAdminEmail(email)
    ensures !AdminOf(Some(DemoGoogleUser(now))) && !IsAdminEmail(GoogleDemoEmail)
  {
  }

  /** The `AuthProvider` component's state. */
  class AuthProvider {
    const demoMode: bool
    var currentUser: Option<User>
    var loading: bool
    var isAdmin: bool

    /** Mounting with the configured API key (absent when not set). */
    constructor (apiKey: Option<string>)
      ensures demoMode == IsDemoMode(apiKey)
      ensures demoMode <==> apiKey.None? || apiKey == Some("")
      ensures currentUser.None? && loading && !isAdmin
    {
      demoMode := IsDemoMode(apiKey);
      currentUser := None;
      loading := true;
      isAdmin := false;
    }

    /** The mount effect: demo mode skips the listener and stops loading at once; live mode waits for it. */
    method Mount()
      modifies this
      ensures demoMode ==> !loading
      ensures !demoMode ==> loading == old(loading)
      ensures currentUser == old(currentUser) && isAdmin == old(isAdmin)
    {
      if demoMode {
        loading := false;
      }
    }

    /** The live auth-state listener (registered only outside demo mode). */
    method OnAuthStateChanged(user: Option<User>)
      requires !demoMode
      modifies this
      ensures currentUser == user && isAdmin == AdminOf(user) && !loading
    {
      currentUser := user;
      if user.Some? && Truthy(user.value.email) {
        isAdmin := IsAdminEmail(user.value.email.value);
      } else {
        isAdmin := false;
      }
      loading := false;
    }

    /**
     * Sign-up. Demo mode signs the mock user in and leaves the admin flag as it was; live mode
     * resolves as the identity service does (`service`) and leaves the state to the listener.
     */
    method Signup(email: string, password: string, now: nat, service: Result<User, string>)
      returns (r: Result<User, string>)
      modifies this
      ensures demoMode ==> r == Success(DemoUser(email, now)) && currentUser == Some(DemoUser(email, now))
      ensures !demoMode ==> r == service && currentUser == old(currentUser)
      ensures isAdmin == old(isAdmin) && loading == old(loading)
    {
      if demoMode {
        var user := DemoUser(email, now);
        currentUser := Some(user);
        r := Success(user);
      } else {
        r := service;
      }
    }

    /** Log-in. Demo mode signs the mock user in and applies the admin rule to `email`. */
    method Login(email: string, password: string, now: nat, service: Result<User, string>)
      returns (r: Result<User, string>)
      modifies this
      ensures demoMode ==>
        r == Success(DemoUser(email, now)) && currentUser == Some(DemoUser(email, now))
        && isAdmin == IsAdminEmail(email)
      ensures !demoMode ==> r == service && currentUser == old(currentUser) && isAdmin == old(isAdmin)
      ensures loading == old(loading)
    {
      if demoMode {
        var user := DemoUser(email, now);
        currentUser := Some(user);
        isAdmin := IsAdminEmail(email);
        r := Success(user);
      } else {
        r := service;
      }
    }

    /** Log-out. Demo mode clears the user and the admin flag. */
    method Logout(service: Result<(), string>) returns (r: Result<(), string>)
      modifies this
      ensures demoMode ==> r == Success(()) && currentUser.None? && !isAdmin
      ensures !demoMode ==> r == service && currentUser == old(currentUser) && isAdmin == old(isAdmin)
      ensures loading == old(loading)
    {
      if demoMode {
        currentUser := None;
        isAdmin := false;
        r := Success(());
      } else {
        r := service;
      }
    }

    /** Google sign-in. Demo mode signs in the fixed Google mock user, never as an admin. */
    method GoogleSignIn(now: nat, service: Result<User, string>) returns (r: Result<User, string>)
      modifies this
      ensures demoMode ==>
        r == Success(DemoGoogleUser(now)) && currentUser == Some(DemoGoogleUser(now)) && !isAdmin
      ensures !demoMode ==> r == service && currentUser == old(currentUser) && isAdmin == old(isAdmin)
      ensures loading == old(loading)
    {
      if demoMode {
        var user := DemoGoogleUser(now);
        currentUser := Some(user);
        isAdmin := false;
        r := Success(user);
      } else {
        r := service;
      }
    }

    /** Sending the verification email: rejected when nobody is signed in, else as the service answers. */
    method VerifyEmail(service: Result<(), string>) returns (r: Result<(), string>)
      ensures currentUser.None? ==> r == Failure(RejectNoUser)
      ensures currentUser.Some? ==> r == service
    {
      if currentUser.Some? {
        r := service;
      } else {
        r := Failure(RejectNoUser);
      }
    }

    /** Changing the display name: rejected when nobody is signed in, else as the service answers. */
    method UpdateUserProfile(displayName: string, service: Result<(), string>) returns (r: Result<(), string>)
      ensures currentUser.None? ==> r == Failure(RejectNoUser)
      ensures currentUser.Some? ==> r == service
    {
      if currentUser.Some? {
        r := service;
      } else {
        r := Failure(RejectNoUser);
      }
    }
  }

  /**
   * A demo session: log in, then log out. While logged in the admin flag follows the admin
   * rule; afterwards nobody is signed in, the flag is off and profile calls are rejected.
   */
  method DemoSession(email: string, now: nat) returns (adminWhileIn: bool, adminAfter: bool, verify: Result<(), string>)
    ensures adminWhileIn == IsAdminEmail(email)
    ensures !adminAfter && verify == Failure(RejectNoUser)
  {
    var auth := new AuthProvider(None);
    auth.Mount();
    var _ := auth.Login(email, "secret", now, Failure("unused"));
    adminWhileIn := auth.isAdmin;
    var _ := auth.Logout(Failure("unused"));
    adminAfter := auth.isAdmin;
    verify := auth.VerifyEmail(Success(()));
  }
}
