/** The sign-in form (`src/components/auth/LoginForm.tsx`): the guard on
    empty fields, the loading flag around a submission, and the demo rule
    that infers a role from the email address. */
module Auth {
  import opened Text
  import opened Wrappers

  /** The role `handleSubmit` assigns: "admin" when the email includes
      "admin", otherwise "manager" when it includes "manager", otherwise
      "agent". Matching is case-sensitive, as `includes` is. */
  function InferRole(email: string): (r: string)
    ensures r in {"admin", "manager", "agent"}
    ensures Contains(email, "admin") ==> r == "admin"
  {
    if Contains(email, "admin") then "admin"
    else if Contains(email, "manager") then "manager"
    else "agent"
  }

  /** The three outcomes of role inference, each as an if-and-only-if; so the
      role is always one of the three and "admin" wins over "manager". */
  lemma InferRoleCases(email: string)
    ensures InferRole(email) in {"admin", "manager", "agent"}
    ensures InferRole(email) == "admin" <==> Contains(email, "admin")
    ensures InferRole(email) == "manager" <==> !Contains(email, "admin") && Contains(email, "manager")
    ensures InferRole(email) == "agent" <==> !Contains(email, "admin") && !Contains(email, "manager")
  {
  }

  /** Putting text around an address that already names a role never
      downgrades an admin. */
  lemma AdminSurvivesAffixes(pre: string, email: string, post: string)
    requires InferRole(email) == "admin"
    ensures InferRole(pre + email + post) == "admin"
  {
    ContainsIff(email, "admin");
    var i :| OccursAt(email, "admin", i);
    var s := pre + email + post;
    assert s[|pre| + i..|pre| + i + 5] == email[i..i + 5];
    assert OccursAt(s, "admin", |pre| + i);
    ContainsIff(s, "admin");
  }

  /** The three demo accounts get the three roles. */
  lemma AdminDemoRole(email: string)
    requires email == "admin@bank.com"
    ensures InferRole(email) == "admin"
  {
    assert IsPrefix("admin", email);
  }

  lemma ManagerDemoRole(email: string)
    requires email == "manager@bank.com"
    ensures InferRole(email) == "manager"
  {
    MissingChar(email, "admin", 1);
    assert IsPrefix("manager", email);
  }

  lemma AgentDemoRole(email: string)
    requires email == "agent@bank.com"
    ensures InferRole(email) == "agent"
  {
    MissingChar(email, "admin", 1);
    MissingChar(email, "manager", 6);
  }

  /** "admin" never occurs in "Admin@bank.com": the only 'd' follows a capital 'A'. */
  lemma CapitalisedAdminLacksAdmin(s: string)
    requires s == "Admin@bank.com"
    ensures !Contains(s, "admin")
  {
    forall i | 0 <= i <= |s| - 5 ensures !OccursAt(s, "admin", i) {
      if s[i] == 'a' {
        assert s[i..i + 5][1] == s[i + 1] != 'd';
      } else {
        assert s[i..i + 5][0] == s[i];
      }
    }
    ContainsIff(s, "admin");
  }

  /** Matching is case-sensitive: a capitalised "Admin" gives no admin rights. */
  lemma CapitalisedAdminIsAgent(email: string)
    requires email == "Admin@bank.com"
    ensures InferRole(email) == "agent"
  {
    CapitalisedAdminLacksAdmin(email);
    MissingChar(email, "manager", 6);
  }

  /** `!email || !password`: an empty string is falsy. */
  predicate MissingCredentials(email: string, password: string)
  {
    email == "" || password == ""
  }

  datatype Credentials = Credentials(email: string, password: string)

  /** The arguments of `onLogin(email, password, role)`. */
  datatype LoginCall = LoginCall(email: string, password: string, role: string)

  class LoginForm {
    var email: string
    var password: string
    var showPassword: bool
    var isLoading: bool

    constructor()
      ensures email == "" && password == "" && !showPassword && !isLoading
    {
      email := "";
      password := "";
      showPassword := false;
      isLoading := false;
    }

    method SetEmail(value: string)
      modifies this`email
      ensures email == value
    {
      email := value;
    }

    method SetPassword(value: string)
      modifies this`password
      ensures password == value
    {
      password := value;
    }

    /** The eye button. */
    method ToggleShowPassword()
      modifies this`showPassword
      ensures showPassword == !old(showPassword)
    {
      showPassword := !showPassword;
    }

    /** The submit button is disabled while a sign-in is in progress. */
    function SubmitEnabled(): (r: bool)
      reads this
      ensures r <==> !isLoading
    {
      !isLoading
    }

    /** The synchronous part of `handleSubmit`: with an empty field it stops
        (after a toast) and nothing changes; otherwise it starts loading and
        hands on the credentials the rest of the submission works with. */
    method BeginSubmit() returns (started: Option<Credentials>)
      modifies this`isLoading
      ensures started.None? <==> MissingCredentials(email, password)
      ensures started.None? ==> isLoading == old(isLoading)
      ensures started.Some? ==> isLoading && started.value == Credentials(email, password)
    {
      if email == "" || password == "" {
        return None;
      }
      isLoading := true;
      started := Some(Credentials(email, password));
    }

    /** The part of `handleSubmit` after the artificial delay: infers the
        role, produces the `onLogin` call with email and password unchanged,
        and clears the loading flag (the `finally` block). */
    method FinishSubmit(c: Credentials) returns (call: LoginCall)
      modifies this`isLoading
      ensures call.email == c.email && call.password == c.password
      ensures call.role == InferRole(c.email)
      ensures !isLoading
    {
      var role := "agent";
      if Contains(c.email, "admin") {
        role := "admin";
      } else if Contains(c.email, "manager") {
        role := "manager";
      }
      call := LoginCall(c.email, c.password, role);
      isLoading := false;
    }
  }

  /** Typing the admin demo account and submitting signs in as admin, and the
      form is usable again afterwards. */
  method SignInAsAdmin() returns (call: LoginCall)
    ensures call == LoginCall("admin@bank.com", "secret", "admin")
  {
    var form := new LoginForm();
    form.SetEmail("admin@bank.com");
    form.SetPassword("secret");
    var started := form.BeginSubmit();
    assert !form.SubmitEnabled();
    AdminDemoRole(form.email);
    call := form.FinishSubmit(started.value);
    assert form.SubmitEnabled();
  }

  /** Submitting with the password left empty never starts a sign-in. */
  method SubmitWithoutPassword() returns (started: Option<Credentials>)
    ensures started.None?
  {
    var form := new LoginForm();
    form.SetEmail("agent@bank.com");
    started := form.BeginSubmit();
    assert form.SubmitEnabled();
  }
}
