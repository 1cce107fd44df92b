/** The `SignUp` component of src/pages/Register.jsx as an object whose
    fields are its React state, its local storage, the toasts it has shown and
    the navigations it has handed to a timer. Every handler also appends the
    Events it performs to the ghost log `effects`, so that its contract can be
    stated against the pure model in module Submission. */
module SignUpPage {
  import opened FormDraft
  import opened Submission

  class SignUp {
    var formData: Draft
    var showPassword: bool
    var showConfirmPassword: bool
    var error: string
    var loading: bool
    var storage: map<string, string>
    var notifications: seq<Notification>
    var pendingNav: seq<Navigation>

    /** Everything the handlers have done, in order. */
    ghost var effects: seq<Event>

    /** The component's state as a value. */
    function Snapshot(): Form
      reads this
    {
      Form(formData, showPassword, showConfirmPassword, error, loading, storage, notifications, pendingNav)
    }

    /** The initial `useState` values, with the browser's local storage as
        it is when the page opens. */
    constructor (store: map<string, string>)
      ensures Snapshot() == Form(EmptyDraft, false, false, "", false, store, [], [])
      ensures effects == []
    {
      formData := EmptyDraft;
      showPassword, showConfirmPassword := false, false;
      error, loading := "", false;
      storage := store;
      notifications, pendingNav := [], [];
      effects := [];
    }

    /** `handleChange`: the named field takes the new value. */
    method HandleChange(field: Field, value: string)
      modifies this`formData
      ensures formData == WithField(old(formData), field, value)
      ensures Snapshot() == old(Snapshot()).(draft := formData)
    {
      formData := WithField(formData, field, value);
    }

    /** The eye button of the password input. */
    method TogglePassword()
      modifies this`showPassword
      ensures Snapshot() == old(Snapshot()).(showPassword := !old(showPassword))
    {
      showPassword := !showPassword;
    }

    /** The eye button of the confirmation input. */
    method ToggleConfirmPassword()
      modifies this`showConfirmPassword
      ensures Snapshot() == old(Snapshot()).(showConfirmPassword := !old(showConfirmPassword))
    {
      showConfirmPassword := !showConfirmPassword;
    }

    /** The `try`/`catch` block and trailing `setLoading(false)` both handlers
        share; `outcome` is how the awaited provider call settled. Each
        statement appends its Event to `effects` right after it runs. */
    method Attempt(p: Path, call: ProviderCall, outcome: Outcome)
      modifies this`error, this`loading, this`storage, this`notifications, this`pendingNav, this`effects
      ensures effects == old(effects) + AttemptEffects(p, call, outcome)
      ensures Snapshot() == Run(old(Snapshot()), AttemptEffects(p, call, outcome))
      ensures !loading
    {
      ghost var before := Snapshot();
      error := "";
      effects := effects + [ErrorSet("")];
      loading := true;
      effects := effects + [LoadingSet(true)];
      effects := effects + [Called(call)];
      ghost var afterCall := effects;
      ghost var opening: seq<Event> := [ErrorSet(""), LoadingSet(true), Called(call)];
      assert afterCall == old(effects) + opening;
      assert Snapshot() == before.(error := "", loading := true);
      Settle(p, outcome);
      ghost var settled := Snapshot();
      loading := false;
      effects := effects + [LoadingSet(false)];
      assert Snapshot() == settled.(loading := false);
      ConcatAssoc(old(effects), opening, OutcomeEffects(p, outcome), [LoadingSet(false)]);
      AttemptRuns(before, p, call, outcome);
    }

    /** What the handlers do once the awaited call settles: the rest of the
        `try` block on success, the `catch` block on failure. Each statement
        appends its Event to `effects` right after it runs. */
    method Settle(p: Path, outcome: Outcome)
      modifies this`error, this`storage, this`notifications, this`pendingNav, this`effects
      ensures effects == old(effects) + OutcomeEffects(p, outcome)
      ensures Snapshot() == Run(old(Snapshot()), OutcomeEffects(p, outcome))
    {
      OutcomeRuns(Snapshot(), p, outcome);
      match outcome {
        case Success =>
          storage := storage[AuthKey := AuthValue];
          effects := effects + [StoreSet(AuthKey, AuthValue)];
          storage := storage - {ExploringKey};
          effects := effects + [StoreRemoved(ExploringKey)];
          var note := Notification(SuccessToast, SuccessMessage(p), ToastDuration);
          notifications := notifications + [note];
          effects := effects + [Notified(note)];
          var nav := Navigation(HomeRoute, NavigationDelay);
          pendingNav := pendingNav + [nav];
          effects := effects + [Scheduled(nav)];
        case Failure(message) =>
          var errorMessage := FailureMessage(message, DefaultFailureMessage(p));
          error := errorMessage;
          effects := effects + [ErrorSet(errorMessage)];
          var note := Notification(ErrorToast, errorMessage, ToastDuration);
          notifications := notifications + [note];
          effects := effects + [Notified(note)];
      }
    }

    /** `handleSubmit`. `!loading` stands for the submit button being
        disabled while an attempt is in flight. */
    method HandleSubmit(outcome: Outcome)
      requires !loading
      modifies this`error, this`loading, this`storage, this`notifications, this`pendingNav, this`effects
      ensures effects == old(effects) + SubmitEffects(old(formData), outcome)
      ensures Snapshot() == Run(old(Snapshot()), SubmitEffects(old(formData), outcome))
      ensures !loading
    {
      match Validate(formData) {
        case Invalid(reason) =>
          ghost var before := Snapshot();
          error := reason;
          effects := effects + [ErrorSet(reason)];
          SubmitRejected(before, formData, outcome);
        case Valid =>
          Attempt(EmailSignup, CreateAccount(formData.email, formData.password, formData.displayName), outcome);
      }
    }

    /** `handleGoogleSignup`: the draft is neither validated nor read. */
    method HandleGoogleSignup(outcome: Outcome)
      requires !loading
      modifies this`error, this`loading, this`storage, this`notifications, this`pendingNav, this`effects
      ensures effects == old(effects) + GoogleEffects(outcome)
      ensures Snapshot() == Run(old(Snapshot()), GoogleEffects(outcome))
      ensures !loading
    {
      Attempt(GoogleSignup, FederatedGoogle, outcome);
    }
  }

  lemma ConcatAssoc<T>(a: seq<T>, b: seq<T>, c: seq<T>, d: seq<T>)
    ensures a + b + c + d == a + (b + c + d)
  {
  }

  /** A client's view: a mismatched pair is reported as a mismatch, and
      nothing but the inline error changes. */
  method MismatchScenario()
  {
    var page := new SignUp(map[]);
    page.HandleChange(Password, "abcdef");
    page.HandleChange(ConfirmPassword, "abcxyz");
    SubmitRejected(page.Snapshot(), page.formData, Success);
    page.HandleSubmit(Success);
    assert page.error == MismatchReason && !page.loading;
    assert page.notifications == [] && page.pendingNav == [] && page.storage == map[];
  }

  /** A client's view: a short matching pair is reported as too short. */
  method ShortPasswordScenario()
  {
    var page := new SignUp(map[]);
    page.HandleChange(Password, "ab");
    page.HandleChange(ConfirmPassword, "ab");
    SubmitRejected(page.Snapshot(), page.formData, Success);
    page.HandleSubmit(Success);
    assert page.error == TooShortReason;
  }

  /** A client's view: a rejection without a message surfaces the default,
      a later success sets the session flags and queues one navigation. */
  method RetryScenario(password: string)
    requires |password| >= MinPasswordLength
  {
    var page := new SignUp(map[ExploringKey := "true"]);
    page.HandleChange(Password, password);
    page.HandleChange(ConfirmPassword, password);
    SubmitAccepted(page.Snapshot(), page.formData, Failure(""));
    page.HandleSubmit(Failure(""));
    assert page.error == DefaultFailureMessage(EmailSignup);
    assert page.storage == map[ExploringKey := "true"] && page.pendingNav == [];

    SubmitAccepted(page.Snapshot(), page.formData, Success);
    page.HandleSubmit(Success);
    assert page.error == "" && !page.loading;
    assert page.storage == map[AuthKey := AuthValue];
    assert page.pendingNav == [Navigation(HomeRoute, NavigationDelay)];
  }
}
