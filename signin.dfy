/**
 * The sign-in page: email and password checked against the two demo
 * accounts, then a one-time code, then the stored user and a redirect. The
 * page is a `class` whose fields are the component's state, the browser's
 * storage and the router's history of pushed paths; the simulated one-second
 * delay of each handler is not modelled, so a handler runs to completion.
 */
module SignIn {
  import opened Storage

  datatype DemoAccount = DemoAccount(password: string, name: string)

  /** `mockUsers`. */
  const MockUsers: map<string, DemoAccount> := map[
    "admin@ohanadoc.com" := DemoAccount("admin123", "Admin User"),
    "demo@ohanadoc.com" := DemoAccount("demo123", "Demo User")]

  /** The one code every account accepts. */
  const DemoOtp := "123456"

  const InvalidCredentials := "Invalid email or password"
  const InvalidOtp := "Invalid OTP. Please try again."

  /** `user && user.password === password`. */
  predicate Accepted(email: string, password: string) {
    email in MockUsers && MockUsers[email].password == password
  }

  /** `user?.name || 'User'`: the demo name, or `User` for an address that is no demo account. */
  function NameFor(email: string): (name: string)
    ensures email in MockUsers ==> name == MockUsers[email].name
    ensures email !in MockUsers ==> name == "User"
  {
    if email in MockUsers && MockUsers[email].name != "" then MockUsers[email].name else "User"
  }

  /** Only the two demo pairs are accepted. */
  lemma AcceptedPairs(email: string, password: string)
    ensures Accepted(email, password) <==>
              (email == "admin@ohanadoc.com" && password == "admin123") ||
              (email == "demo@ohanadoc.com" && password == "demo123")
  {
  }

  class SignInPage {
    var email: string
    var password: string
    var showOTP: bool
    var otp: string
    var loading: bool
    var error: string
    /** The browser's storage. */
    var store: Store
    /** The paths pushed to the router, oldest first. */
    var pushes: seq<string>

    /** The code form is on screen only after the current email and password were accepted. */
    ghost predicate Valid()
      reads this
    {
      showOTP ==> Accepted(email, password)
    }

    /** The verify button is enabled: not loading, and exactly six characters typed. */
    predicate VerifyEnabled()
      reads this
    {
      !loading && |otp| == 6
    }

    /** The page as first rendered over the given storage. */
    constructor(store: Store)
      ensures Valid()
      ensures this.store == store && pushes == []
      ensures email == "" && password == "" && otp == "" && error == ""
      ensures !showOTP && !loading
    {
      email, password, otp, error := "", "", "", "";
      showOTP, loading := false, false;
      this.store := store;
      pushes := [];
    }

    /** The mount effect: an existing session goes straight to the dashboard. */
    method Mount()
      modifies this`pushes
      ensures pushes == old(pushes) + (if SignedIn(store) then ["/dashboard"] else [])
    {
      if Present(store, "user") && Present(store, "organization") {
        pushes := pushes + ["/dashboard"];
      }
    }

    /** Typing in the email field, which only the first form shows. */
    method EnterEmail(value: string)
      requires Valid() && !showOTP
      modifies this`email
      ensures Valid() && email == value
    {
      email := value;
    }

    /** Typing in the password field, which only the first form shows. */
    method EnterPassword(value: string)
      requires Valid() && !showOTP
      modifies this`password
      ensures Valid() && password == value
    {
      password := value;
    }

    /** Typing in the code field: `maxLength={6}` keeps the first six characters. */
    method EnterOtp(value: string)
      modifies this`otp
      ensures otp == if |value| <= 6 then value else value[..6]
    {
      otp := if |value| <= 6 then value else value[..6];
    }

    /** The back button of the code form. */
    method Back()
      requires Valid()
      modifies this`showOTP
      ensures Valid() && !showOTP
    {
      showOTP := false;
    }

    /** `handleSignIn`: an accepted pair opens the code form; anything else shows the error. */
    method HandleSignIn()
      requires Valid()
      modifies this`showOTP, this`error, this`loading
      ensures Valid() && !loading
      ensures Accepted(email, password) ==> showOTP && error == ""
      ensures !Accepted(email, password) ==> showOTP == old(showOTP) && error == InvalidCredentials
    {
      error := "";
      loading := true;
      if email in MockUsers && MockUsers[email].password == password {
        showOTP := true;
      } else {
        error := InvalidCredentials;
      }
      loading := false;
    }

    /**
     * `handleOTPVerify`: the demo code stores the user and goes on to the
     * dashboard, or to onboarding when no organization is stored; any other
     * code shows the error and stores nothing.
     */
    method HandleOTPVerify()
      requires Valid()
      modifies this`store, this`pushes, this`error, this`loading
      ensures Valid() && !loading
      ensures otp == DemoOtp ==>
                && store == old(store)["user" := UserJson(email, NameFor(email))]
                && pushes == old(pushes) + [if Present(old(store), "organization") then "/dashboard" else "/onboarding"]
                && error == ""
      ensures otp != DemoOtp ==> store == old(store) && pushes == old(pushes) && error == InvalidOtp
      ensures otp == DemoOtp && showOTP ==> SignedIn(store) == Present(old(store), "organization")
      ensures otp == DemoOtp && showOTP ==> NameFor(email) == MockUsers[email].name
    {
      error := "";
      loading := true;
      if otp == DemoOtp {
        store := store["user" := UserJson(email, NameFor(email))];
        if !Present(store, "organization") {
          pushes := pushes + ["/onboarding"];
        } else {
          pushes := pushes + ["/dashboard"];
        }
      } else {
        error := InvalidOtp;
      }
      loading := false;
    }
  }

  /**
   * A first visit with the admin account and the demo code stores the admin
   * user and sends the browser to onboarding, since no organization exists yet.
   */
  method FirstSignIn() returns (pushed: seq<string>, stored: Store, sawCodeForm: bool)
    ensures sawCodeForm
    ensures stored == map["user" := UserJson("admin@ohanadoc.com", "Admin User")]
    ensures pushed == ["/onboarding"]
  {
    var page := new SignInPage(map[]);
    page.Mount();
    page.EnterEmail("admin@ohanadoc.com");
    page.EnterPassword("admin123");
    page.HandleSignIn();
    sawCodeForm := page.showOTP;
    page.EnterOtp("123456");
    page.HandleOTPVerify();
    pushed, stored := page.pushes, page.store;
  }

  /** A wrong password never reaches the code form, and a wrong code never stores a user. */
  method WrongInputsStoreNothing(orgStored: bool) returns (afterPassword: bool, afterCode: Store, message: string)
    ensures !afterPassword
    ensures "user" !in afterCode
    ensures message == InvalidOtp
  {
    var store: Store := if orgStored then map["organization" := "{}"] else map[];
    var page := new SignInPage(store);
    page.EnterEmail("demo@ohanadoc.com");
    page.EnterPassword("admin123");
    page.HandleSignIn();
    afterPassword := page.showOTP;
    page.EnterPassword("demo123");
    page.HandleSignIn();
    page.EnterOtp("654321");
    page.HandleOTPVerify();
    afterCode, message := page.store, page.error;
  }

  /** A stored session skips the form entirely: mounting pushes the dashboard. */
  method ReturningVisitor(user: string, org: string) returns (pushed: seq<string>)
    requires user != "" && org != ""
    ensures pushed == ["/dashboard"]
  {
    var page := new SignInPage(map["user" := user, "organization" := org]);
    page.Mount();
    pushed := page.pushes;
  }

  /**
   * The verify button waits for a full code: five characters leave it
   * disabled, and a longer paste is cut to six, which enables it.
   */
  method VerifyNeedsSixCharacters(store: Store) returns (shortEnabled: bool, pastedEnabled: bool, kept: string)
    ensures !shortEnabled && pastedEnabled && kept == "123456"
  {
    var page := new SignInPage(store);
    page.EnterOtp("12345");
    shortEnabled := page.VerifyEnabled();
    page.EnterOtp("1234567");
    pastedEnabled, kept := page.VerifyEnabled(), page.otp;
  }
}
