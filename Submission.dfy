/** The submission logic of src/pages/Register.jsx as data: every
    statement `handleSubmit` and `handleGoogleSignup` execute is an Event, an
    attempt is the sequence of Events it performs, and `Run` gives the
    component state those Events leave behind. */
module Submission {
  import opened FormDraft

  /** How the awaited provider call (`signup` or `loginWithGoogle`) settles.
      `Failure("")` stands for an error whose `message` is empty or missing. */
  datatype Outcome = Success | Failure(message: string)

  /** The two ways to authenticate from this page. */
  datatype Path = EmailSignup | GoogleSignup

  /** A call into the identity provider, with its arguments in call order. */
  datatype ProviderCall =
    | CreateAccount(email: string, password: string, displayName: string)
    | FederatedGoogle

  datatype ToastKind = SuccessToast | ErrorToast

  /** What the notification sink is asked to show (styling and position left out). */
  datatype Notification = Notification(kind: ToastKind, message: string, duration: nat)

  /** A navigation handed to a timer: `navigate(route)` after `delay` ms. */
  datatype Navigation = Navigation(route: string, delay: nat)

  /** One observable step of a handler, in the order the handler takes it. */
  datatype Event =
    | ErrorSet(message: string)           // setError
    | LoadingSet(on: bool)                // setLoading
    | Called(call: ProviderCall)          // await signup(...) / loginWithGoogle()
    | StoreSet(key: string, value: string) // localStorage.setItem
    | StoreRemoved(key: string)           // localStorage.removeItem
    | Notified(note: Notification)        // toast.success / toast.error
    | Scheduled(nav: Navigation)          // setTimeout(() => navigate(...), delay)

  /** A snapshot of the component's state: the draft, the two reveal toggles,
      the inline error, the loading flag, local storage, the notifications shown
      so far and the navigations waiting on a timer. */
  datatype Form = Form(
    draft: Draft,
    showPassword: bool,
    showConfirmPassword: bool,
    error: string,
    loading: bool,
    storage: map<string, string>,
    notifications: seq<Notification>,
    pendingNav: seq<Navigation>)

  const ToastDuration: nat := 5000
  const NavigationDelay: nat := 1500
  const HomeRoute: string := "/home"
  const AuthKey: string := "isAuthenticated"
  const AuthValue: string := "true"
  const ExploringKey: string := "isExploring"

  /** The text of the success toast; it is never empty. */
  function SuccessMessage(p: Path): (m: string)
    ensures m != ""
  {
    match p
    case EmailSignup => "Pendaftaran berhasil! Selamat datang di Nutrijel!"
    case GoogleSignup => "Berhasil masuk dengan Google! Selamat datang di Nutrijel!"
  }

  function DefaultFailureMessage(p: Path): (m: string)
    ensures m != ""
  {
    match p
    case EmailSignup => "Gagal membuat akun. Silakan coba lagi."
    case GoogleSignup => "Gagal masuk dengan Google. Silakan coba lagi."
  }

  /** `error.message || fallback`: the provider's message when it is truthy
      (non-empty), the fallback otherwise. */
  function FailureMessage(provided: string, fallback: string): (m: string)
    ensures provided != "" ==> m == provided
    ensures provided == "" ==> m == fallback
    ensures fallback != "" ==> m != ""
  {
    if provided != "" then provided else fallback
  }

  /** The message a failed attempt on path `p` surfaces, inline and as a toast. */
  function ErrorMessage(p: Path, o: Outcome): (m: string)
    requires o.Failure?
    ensures m != ""
    ensures o.message != "" ==> m == o.message
    ensures o.message == "" ==> m == DefaultFailureMessage(p)
  {
    FailureMessage(o.message, DefaultFailureMessage(p))
  }

  /** The state after one Event: each Event updates the one piece of state
      its statement writes and nothing else. */
  function Apply(f: Form, e: Event): (r: Form)
  {
    match e
    case ErrorSet(m) => f.(error := m)
    case LoadingSet(b) => f.(loading := b)
    case Called(_) => f
    case StoreSet(k, v) => f.(storage := f.storage[k := v])
    case StoreRemoved(k) => f.(storage := f.storage - {k})
    case Notified(n) => f.(notifications := f.notifications + [n])
    case Scheduled(nav) => f.(pendingNav := f.pendingNav + [nav])
  }

  /** The state after a sequence of Events. No Event touches the draft or
      the reveal toggles. */
  function Run(f: Form, es: seq<Event>): (r: Form)
    ensures r.draft == f.draft
    ensures r.showPassword == f.showPassword && r.showConfirmPassword == f.showConfirmPassword
    decreases |es|
  {
    if es == [] then f else Run(Apply(f, es[0]), es[1..])
  }

  /** What happens once the provider call settles, in source order: on
      success the two storage writes, the success toast and the timer; on
      failure the inline error and an error toast carrying the same message. */
  function OutcomeEffects(p: Path, o: Outcome): (es: seq<Event>)
  {
    match o
    case Success =>
      [ StoreSet(AuthKey, AuthValue),
        StoreRemoved(ExploringKey),
        Notified(Notification(SuccessToast, SuccessMessage(p), ToastDuration)),
        Scheduled(Navigation(HomeRoute, NavigationDelay)) ]
    case Failure(_) =>
      [ ErrorSet(ErrorMessage(p, o)),
        Notified(Notification(ErrorToast, ErrorMessage(p, o), ToastDuration)) ]
  }

  /** The `try`/`catch` block both handlers share, followed by the trailing
      `setLoading(false)`, in source order: the error is cleared and `loading`
      set before the provider call, the outcome's Events follow, and `loading`
      is reset last. */
  function AttemptEffects(p: Path, call: ProviderCall, o: Outcome): (es: seq<Event>)
  {
    [ErrorSet(""), LoadingSet(true), Called(call)] + OutcomeEffects(p, o) + [LoadingSet(false)]
  }

  /** `handleSubmit`: `Validate` first; a rejected draft only sets the
      inline error, an accepted one calls `signup(email, password,
      displayName)` after clearing the error and setting `loading`. */
  function SubmitEffects(d: Draft, o: Outcome): (es: seq<Event>)
  {
    match Validate(d)
    case Invalid(reason) => [ErrorSet(reason)]
    case Valid => AttemptEffects(EmailSignup, CreateAccount(d.email, d.password, d.displayName), o)
  }

  /** `handleGoogleSignup`: no draft, no validation; the federated call comes
      right after the error is cleared and `loading` set, and the attempt has as
      many Events as an accepted e-mail sign-up with the same outcome. */
  function GoogleEffects(o: Outcome): (es: seq<Event>)
  {
    AttemptEffects(GoogleSignup, FederatedGoogle, o)
  }

  // ---------------------------------------------------------------------------
  // Selecting one kind of Event from a log

  /** The parts of a log that `sel` picks out, in order. */
  function Pick<T>(es: seq<Event>, sel: Event -> seq<T>): seq<T>
    decreases |es|
  {
    if es == [] then [] else sel(es[0]) + Pick(es[1..], sel)
  }

  function CallOf(e: Event): seq<ProviderCall>
  {
    if e.Called? then [e.call] else []
  }

  function LoadingOf(e: Event): seq<bool>
  {
    if e.LoadingSet? then [e.on] else []
  }

  function StorageWriteOf(e: Event): seq<Event>
  {
    if e.StoreSet? || e.StoreRemoved? then [e] else []
  }

  function NoteOf(e: Event): seq<Notification>
  {
    if e.Notified? then [e.note] else []
  }

  function NavOf(e: Event): seq<Navigation>
  {
    if e.Scheduled? then [e.nav] else []
  }

  // ---------------------------------------------------------------------------
  // Lemmas

  lemma {:induction false} RunAppend(f: Form, a: seq<Event>, b: seq<Event>)
    ensures Run(f, a + b) == Run(Run(f, a), b)
    decreases |a|
  {
    if a == [] {
      assert a + b == b;
    } else {
      assert (a + b)[0] == a[0];
      assert (a + b)[1..] == a[1..] + b;
      RunAppend(Apply(f, a[0]), a[1..], b);
    }
  }

  lemma {:induction false} PickAppend<T>(a: seq<Event>, b: seq<Event>, sel: Event -> seq<T>)
    ensures Pick(a + b, sel) == Pick(a, sel) + Pick(b, sel)
    decreases |a|
  {
    if a == [] {
      assert a + b == b;
    } else {
      assert (a + b)[0] == a[0];
      assert (a + b)[1..] == a[1..] + b;
      PickAppend(a[1..], b, sel);
    }
  }

  lemma {:induction false} RunStep(f: Form, es: seq<Event>, k: nat)
    requires k < |es|
    ensures Run(f, es[..k + 1]) == Apply(Run(f, es[..k]), es[k])
  {
    assert es[..k + 1] == es[..k] + [es[k]];
    RunAppend(f, es[..k], [es[k]]);
  }

  lemma RunFrom(f: Form, es: seq<Event>, i: nat)
    requires i < |es|
    ensures Run(f, es[i..]) == Run(Apply(f, es[i]), es[i + 1..])
  {
    assert es[i..][0] == es[i];
    assert es[i..][1..] == es[i + 1..];
  }

  lemma RunOne(f: Form, a: Event)
    ensures Run(f, [a]) == Apply(f, a)
  {
    assert [a][1..] == [];
  }

  lemma RunTwo(f: Form, a: Event, b: Event)
    ensures Run(f, [a, b]) == Apply(Apply(f, a), b)
  {
    var es := [a, b];
    RunFrom(f, es, 0);
    RunFrom(Apply(f, a), es, 1);
    assert es[2..] == [];
  }

  lemma RunThree(f: Form, a: Event, b: Event, c: Event)
    ensures Run(f, [a, b, c]) == Apply(Apply(Apply(f, a), b), c)
  {
    var es := [a, b, c];
    RunFrom(f, es, 0);
    RunFrom(Apply(f, a), es, 1);
    RunFrom(Apply(Apply(f, a), b), es, 2);
    assert es[3..] == [];
  }

  lemma RunFour(f: Form, a: Event, b: Event, c: Event, d: Event)
    ensures Run(f, [a, b, c, d]) == Apply(Apply(Apply(Apply(f, a), b), c), d)
  {
    var es := [a, b, c, d];
    RunFrom(f, es, 0);
    RunFrom(Apply(f, a), es, 1);
    RunFrom(Apply(Apply(f, a), b), es, 2);
    RunFrom(Apply(Apply(Apply(f, a), b), c), es, 3);
    assert es[4..] == [];
  }

  /** An attempt runs its opening Events, then the outcome's, then the
      trailing `setLoading(false)`. */
  lemma AttemptRuns(f: Form, p: Path, call: ProviderCall, o: Outcome)
    ensures Run(f, AttemptEffects(p, call, o))
         == Run(f.(error := "", loading := true), OutcomeEffects(p, o)).(loading := false)
  {
    var opening: seq<Event> := [ErrorSet(""), LoadingSet(true), Called(call)];
    RunAppend(f, opening + OutcomeEffects(p, o), [LoadingSet(false)]);
    RunAppend(f, opening, OutcomeEffects(p, o));
    RunThree(f, ErrorSet(""), LoadingSet(true), Called(call));
    RunOne(Run(f, opening + OutcomeEffects(p, o)), LoadingSet(false));
  }

  /** The state the outcome's Events leave: on success the session flags are
      set and a toast and a navigation are queued; on failure the message is
      shown inline and in a toast. */
  function Settled(f: Form, p: Path, o: Outcome): Form
  {
    match o
    case Success =>
      f.(storage := f.storage[AuthKey := AuthValue] - {ExploringKey},
         notifications := f.notifications + [Notification(SuccessToast, SuccessMessage(p), ToastDuration)],
         pendingNav := f.pendingNav + [Navigation(HomeRoute, NavigationDelay)])
    case Failure(_) =>
      f.(error := ErrorMessage(p, o),
         notifications := f.notifications + [Notification(ErrorToast, ErrorMessage(p, o), ToastDuration)])
  }

  /** The state a whole attempt leaves: the outcome's state over the opened
      one (error cleared, `loading` set), with `loading` reset. */
  function Attempted(f: Form, p: Path, o: Outcome): Form
  {
    Settled(f.(error := "", loading := true), p, o).(loading := false)
  }

  lemma OutcomeRuns(f: Form, p: Path, o: Outcome)
    ensures Run(f, OutcomeEffects(p, o)) == Settled(f, p, o)
  {
    if o.Success? { SuccessRuns(f, p); } else { FailureRuns(f, p, o); }
  }

  lemma SuccessRuns(f: Form, p: Path)
    ensures Run(f, OutcomeEffects(p, Success)) == Settled(f, p, Success)
  {
    var es := OutcomeEffects(p, Success);
    RunFour(f, es[0], es[1], es[2], es[3]);
    assert es == [es[0], es[1], es[2], es[3]];
  }

  lemma FailureRuns(f: Form, p: Path, o: Outcome)
    requires o.Failure?
    ensures Run(f, OutcomeEffects(p, o)) == Settled(f, p, o)
  {
    var es := OutcomeEffects(p, o);
    RunTwo(f, es[0], es[1]);
    assert es == [es[0], es[1]];
  }

  /** A successful attempt clears the error, sets the session flags, shows
      one success toast, queues one navigation to the home route and ends with
      `loading` false; nothing else changes. */
  lemma AttemptSucceeds(f: Form, p: Path, call: ProviderCall)
    ensures Run(f, AttemptEffects(p, call, Success))
         == f.(error := "",
               loading := false,
               storage := f.storage[AuthKey := AuthValue] - {ExploringKey},
               notifications := f.notifications + [Notification(SuccessToast, SuccessMessage(p), ToastDuration)],
               pendingNav := f.pendingNav + [Navigation(HomeRoute, NavigationDelay)])
  {
    AttemptRuns(f, p, call, Success);
    OutcomeRuns(f.(error := "", loading := true), p, Success);
  }

  /** A failed attempt shows the same message inline and in one error toast,
      ends with `loading` false, and leaves storage and pending navigations
      alone. */
  lemma AttemptFails(f: Form, p: Path, call: ProviderCall, o: Outcome)
    requires o.Failure?
    ensures Run(f, AttemptEffects(p, call, o))
         == f.(error := ErrorMessage(p, o),
               loading := false,
               notifications := f.notifications + [Notification(ErrorToast, ErrorMessage(p, o), ToastDuration)])
  {
    AttemptRuns(f, p, call, o);
    OutcomeRuns(f.(error := "", loading := true), p, o);
  }

  lemma PickFrom<T>(es: seq<Event>, i: nat, sel: Event -> seq<T>)
    requires i < |es|
    ensures Pick(es[i..], sel) == sel(es[i]) + Pick(es[i + 1..], sel)
  {
    assert es[i..][0] == es[i];
    assert es[i..][1..] == es[i + 1..];
  }

  lemma PickOne<T>(a: Event, sel: Event -> seq<T>)
    ensures Pick([a], sel) == sel(a)
  {
    assert [a][1..] == [];
  }

  lemma PickTwo<T>(a: Event, b: Event, sel: Event -> seq<T>)
    ensures Pick([a, b], sel) == sel(a) + sel(b)
  {
    var es := [a, b];
    PickFrom(es, 0, sel);
    PickFrom(es, 1, sel);
    assert es[2..] == [];
  }

  lemma PickThree<T>(a: Event, b: Event, c: Event, sel: Event -> seq<T>)
    ensures Pick([a, b, c], sel) == sel(a) + sel(b) + sel(c)
  {
    var es := [a, b, c];
    PickFrom(es, 0, sel);
    PickFrom(es, 1, sel);
    PickFrom(es, 2, sel);
    assert es[3..] == [];
  }

  lemma PickFour<T>(a: Event, b: Event, c: Event, d: Event, sel: Event -> seq<T>)
    ensures Pick([a, b, c, d], sel) == sel(a) + sel(b) + sel(c) + sel(d)
  {
    var es := [a, b, c, d];
    PickFrom(es, 0, sel);
    PickFrom(es, 1, sel);
    PickFrom(es, 2, sel);
    PickFrom(es, 3, sel);
    assert es[4..] == [];
  }

  /** Picking from an attempt: the opening three Events, the outcome's, the
      trailing one. */
  lemma PickAttempt<T>(p: Path, call: ProviderCall, o: Outcome, sel: Event -> seq<T>)
    ensures Pick(AttemptEffects(p, call, o), sel)
         == sel(ErrorSet("")) + sel(LoadingSet(true)) + sel(Called(call))
            + Pick(OutcomeEffects(p, o), sel) + sel(LoadingSet(false))
  {
    var opening: seq<Event> := [ErrorSet(""), LoadingSet(true), Called(call)];
    PickAppend(opening + OutcomeEffects(p, o), [LoadingSet(false)], sel);
    PickAppend(opening, OutcomeEffects(p, o), sel);
    PickThree(ErrorSet(""), LoadingSet(true), Called(call), sel);
    PickOne(LoadingSet(false), sel);
  }

  lemma PickOutcome<T>(p: Path, o: Outcome, sel: Event -> seq<T>)
    ensures var es := OutcomeEffects(p, o);
      Pick(es, sel) == if o.Success? then sel(es[0]) + sel(es[1]) + sel(es[2]) + sel(es[3])
                       else sel(es[0]) + sel(es[1])
  {
    var es := OutcomeEffects(p, o);
    if o.Success? {
      PickFour(es[0], es[1], es[2], es[3], sel);
      assert es == [es[0], es[1], es[2], es[3]];
    } else {
      PickTwo(es[0], es[1], sel);
      assert es == [es[0], es[1]];
    }
  }

  /** Every attempt calls the provider exactly once, with the given
      arguments, and writes `loading` exactly twice: true, then false. */
  lemma AttemptCallsOnce(p: Path, call: ProviderCall, o: Outcome)
    ensures Pick(AttemptEffects(p, call, o), CallOf) == [call]
    ensures Pick(AttemptEffects(p, call, o), LoadingOf) == [true, false]
  {
    OutcomeQuiet(p, o);
    AroundQuiet(call, OutcomeEffects(p, o));
  }

  /** The opening three Events and the trailing reset around Events that
      neither call the provider nor touch `loading`. */
  lemma AroundQuiet(call: ProviderCall, mid: seq<Event>)
    requires Pick(mid, CallOf) == [] && Pick(mid, LoadingOf) == []
    ensures var es := [ErrorSet(""), LoadingSet(true), Called(call)] + mid + [LoadingSet(false)];
      Pick(es, CallOf) == [call] && Pick(es, LoadingOf) == [true, false]
  {
    var opening: seq<Event> := [ErrorSet(""), LoadingSet(true), Called(call)];
    PickAppend(opening + mid, [LoadingSet(false)], CallOf);
    PickAppend(opening, mid, CallOf);
    PickThree(ErrorSet(""), LoadingSet(true), Called(call), CallOf);
    PickOne(LoadingSet(false), CallOf);
    PickAppend(opening + mid, [LoadingSet(false)], LoadingOf);
    PickAppend(opening, mid, LoadingOf);
    PickThree(ErrorSet(""), LoadingSet(true), Called(call), LoadingOf);
    PickOne(LoadingSet(false), LoadingOf);
  }

  /** The Events after the call neither call the provider again nor touch
      `loading`. */
  lemma OutcomeQuiet(p: Path, o: Outcome)
    ensures Pick(OutcomeEffects(p, o), CallOf) == []
    ensures Pick(OutcomeEffects(p, o), LoadingOf) == []
  {
    if o.Success? {
      var a, b := StoreSet(AuthKey, AuthValue), StoreRemoved(ExploringKey);
      var c := Notified(Notification(SuccessToast, SuccessMessage(p), ToastDuration));
      var d := Scheduled(Navigation(HomeRoute, NavigationDelay));
      assert OutcomeEffects(p, o) == [a, b, c, d];
      PickFour(a, b, c, d, CallOf);
      PickFour(a, b, c, d, LoadingOf);
    } else {
      var a := ErrorSet(ErrorMessage(p, o));
      var b := Notified(Notification(ErrorToast, ErrorMessage(p, o), ToastDuration));
      assert OutcomeEffects(p, o) == [a, b];
      PickTwo(a, b, CallOf);
      PickTwo(a, b, LoadingOf);
    }
  }

  /** Every attempt shows exactly one notification: the success toast, or an
      error toast carrying the surfaced message. */
  lemma AttemptNotifiesOnce(p: Path, call: ProviderCall, o: Outcome)
    ensures Pick(AttemptEffects(p, call, o), NoteOf)
         == if o.Success? then [Notification(SuccessToast, SuccessMessage(p), ToastDuration)]
            else [Notification(ErrorToast, ErrorMessage(p, o), ToastDuration)]
  {
    PickAttempt(p, call, o, NoteOf);
    PickOutcome(p, o, NoteOf);
  }

  /** A navigation is queued only when the provider call succeeds, and then
      exactly once. */
  lemma AttemptNavigatesOnlyOnSuccess(p: Path, call: ProviderCall, o: Outcome)
    ensures Pick(AttemptEffects(p, call, o), NavOf)
         == if o.Success? then [Navigation(HomeRoute, NavigationDelay)] else []
  {
    PickAttempt(p, call, o, NavOf);
    PickOutcome(p, o, NavOf);
  }

  /** Local storage is written only when the provider call succeeds: the
      authenticated flag is set, then the exploring flag removed. */
  lemma AttemptStoresOnlyOnSuccess(p: Path, call: ProviderCall, o: Outcome)
    ensures Pick(AttemptEffects(p, call, o), StorageWriteOf)
         == if o.Success? then [StoreSet(AuthKey, AuthValue), StoreRemoved(ExploringKey)] else []
  {
    PickAttempt(p, call, o, StorageWriteOf);
    PickOutcome(p, o, StorageWriteOf);
  }

  /** On success the navigation is queued only after the success toast was
      shown; both are single Events of the attempt. */
  lemma NavigationAfterNotification(p: Path, call: ProviderCall)
    ensures var es := AttemptEffects(p, call, Success);
      && es[5] == Notified(Notification(SuccessToast, SuccessMessage(p), ToastDuration))
      && es[6] == Scheduled(Navigation(HomeRoute, NavigationDelay))
      && forall i, j :: 0 <= i < |es| && 0 <= j < |es| && es[i].Notified? && es[j].Scheduled? ==> i == 5 && j == 6
  {
  }

  lemma {:induction false} LoadingStays(f: Form, es: seq<Event>, i: nat, k: nat)
    requires i <= k <= |es|
    requires Run(f, es[..i]).loading
    requires forall j :: i <= j < k ==> !es[j].LoadingSet?
    ensures Run(f, es[..k]).loading
    decreases k - i
  {
    if i < k {
      RunStep(f, es, i);
      LoadingStays(f, es, i + 1, k);
    }
  }

  /** `loading` is on from the moment it is set until the trailing reset:
      while the provider is called and while its outcome is handled. After
      the attempt it is off. */
  lemma LoadingDuringAttempt(f: Form, p: Path, call: ProviderCall, o: Outcome)
    ensures var es := AttemptEffects(p, call, o);
      && es[2] == Called(call)
      && (forall k :: 2 <= k < |es| ==> Run(f, es[..k]).loading)
      && !Run(f, es).loading
  {
    var es := AttemptEffects(p, call, o);
    RunStep(f, es, 0);
    RunStep(f, es, 1);
    assert es[..0] == [];
    forall k | 2 <= k < |es|
      ensures Run(f, es[..k]).loading
    {
      LoadingStays(f, es, 2, k);
    }
    if o.Success? { AttemptSucceeds(f, p, call); } else { AttemptFails(f, p, call, o); }
  }

  /** Each Event updates the one piece of state its statement writes and
      nothing else. */
  lemma ApplyFrame(f: Form, e: Event)
    ensures var r := Apply(f, e);
      && r.draft == f.draft
      && r.showPassword == f.showPassword && r.showConfirmPassword == f.showConfirmPassword
      && r.error == (if e.ErrorSet? then e.message else f.error)
      && r.loading == (if e.LoadingSet? then e.on else f.loading)
      && (!(e.StoreSet? || e.StoreRemoved?) ==> r.storage == f.storage)
      && r.notifications == f.notifications + NoteOf(e)
      && r.pendingNav == f.pendingNav + NavOf(e)
  {
  }

  /** The outcome's Events in source order: on success the two storage
      writes, the success toast and the timer; on failure the inline error and
      an error toast carrying the same message. */
  lemma OutcomeOrder(p: Path, o: Outcome)
    ensures var es := OutcomeEffects(p, o);
      && |es| == (if o.Success? then 4 else 2)
      && (o.Success? ==>
            && es[0] == StoreSet(AuthKey, AuthValue) && es[1] == StoreRemoved(ExploringKey)
            && es[2].Notified? && es[2].note.kind == SuccessToast
            && es[3] == Scheduled(Navigation(HomeRoute, NavigationDelay)))
      && (o.Failure? ==>
            && es[0] == ErrorSet(ErrorMessage(p, o))
            && es[1] == Notified(Notification(ErrorToast, es[0].message, ToastDuration)))
  {
  }

  /** An attempt's Events in source order: the error is cleared and `loading`
      set before the provider call, the outcome's Events follow, and `loading`
      is reset last. */
  lemma AttemptOrder(p: Path, call: ProviderCall, o: Outcome)
    ensures var es := AttemptEffects(p, call, o);
      && |es| == |OutcomeEffects(p, o)| + 4
      && es[0] == ErrorSet("") && es[1] == LoadingSet(true) && es[2] == Called(call)
      && es[3..|es| - 1] == OutcomeEffects(p, o)
      && es[|es| - 1] == LoadingSet(false)
  {
  }

  /** `handleSubmit`'s Events: a rejected draft only sets the error; an
      accepted one clears it, sets `loading` and calls `signup(email, password,
      displayName)`. */
  lemma SubmitOrder(d: Draft, o: Outcome)
    ensures var es := SubmitEffects(d, o);
      && (Validate(d).Invalid? ==> es == [ErrorSet(Validate(d).reason)])
      && (Validate(d) == Valid ==>
            && |es| >= 6 && es[0] == ErrorSet("") && es[1] == LoadingSet(true)
            && es[2] == Called(CreateAccount(d.email, d.password, d.displayName)))
  {
  }

  /** `handleGoogleSignup`'s Events: the federated call right after clearing
      the error and setting `loading`, and as many Events as an accepted e-mail
      sign-up with the same outcome. */
  lemma GoogleOrder(o: Outcome)
    ensures var es := GoogleEffects(o);
      && |es| == (if o.Success? then 8 else 6)
      && es[..3] == [ErrorSet(""), LoadingSet(true), Called(FederatedGoogle)]
  {
  }

  // ---------------------------------------------------------------------------
  // The two handlers

  /** A draft `Validate` rejects only sets the inline error: no provider
      call, no `loading` change, no storage write, no toast, no navigation. */
  lemma SubmitRejected(f: Form, d: Draft, o: Outcome)
    requires Validate(d).Invalid?
    ensures SubmitEffects(d, o) == [ErrorSet(Validate(d).reason)]
    ensures Run(f, SubmitEffects(d, o)) == f.(error := Validate(d).reason)
  {
  }

  /** An accepted draft calls `signup(email, password, displayName)` once and
      ends in the success or failure state of the e-mail path. */
  lemma SubmitAccepted(f: Form, d: Draft, o: Outcome)
    requires Validate(d) == Valid
    ensures Pick(SubmitEffects(d, o), CallOf) == [CreateAccount(d.email, d.password, d.displayName)]
    ensures Run(f, SubmitEffects(d, o)) == Attempted(f, EmailSignup, o)
  {
    AttemptCallsOnce(EmailSignup, CreateAccount(d.email, d.password, d.displayName), o);
    if o.Success? {
      AttemptSucceeds(f, EmailSignup, CreateAccount(d.email, d.password, d.displayName));
    } else {
      AttemptFails(f, EmailSignup, CreateAccount(d.email, d.password, d.displayName), o);
    }
  }

  /** The Google path has the same shape without validation: one federated
      call, then the success or failure state of the Google path. */
  lemma GoogleAttempt(f: Form, o: Outcome)
    ensures Pick(GoogleEffects(o), CallOf) == [FederatedGoogle]
    ensures Run(f, GoogleEffects(o)) == Attempted(f, GoogleSignup, o)
  {
    AttemptCallsOnce(GoogleSignup, FederatedGoogle, o);
    if o.Success? {
      AttemptSucceeds(f, GoogleSignup, FederatedGoogle);
    } else {
      AttemptFails(f, GoogleSignup, FederatedGoogle, o);
    }
  }
}
