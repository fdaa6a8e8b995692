/** The first-visit dialog that asks a signed-in caller without a profile
    to create one. */
module ProfileSetup {
  import opened Wrappers
  import opened Backend
  import opened Queries
  import opened ProfileForm

  /** The caller-profile query's `data`: `undefined` until it first
      settles, then the profile or `null`. */
  datatype QueryData = NotLoaded | Loaded(profile: Option<UserProfile>)

  /** `showProfileSetup`: the comparison with `null` is strict, so data that
      has not been loaded does not open the dialog. */
  predicate ShowProfileSetup(isAuthenticated: bool, profileLoading: bool, isFetched: bool, data: QueryData) {
    isAuthenticated && !profileLoading && isFetched && data == Loaded(None)
  }

  /** The dialog opens only for a signed-in caller whose settled query found
      no profile; a caller who has a profile never sees it. */
  lemma ShowProfileSetupIff(isAuthenticated: bool, profileLoading: bool, isFetched: bool, data: QueryData)
    ensures ShowProfileSetup(isAuthenticated, profileLoading, isFetched, data)
            <==> isAuthenticated && !profileLoading && isFetched && data.Loaded? && data.profile.None?
    ensures data.NotLoaded? || data.profile.Some? ==> !ShowProfileSetup(isAuthenticated, profileLoading, isFetched, data)
  {
  }

  const SetupSuccess: string := "Profile created successfully! Welcome to Artisan!"
  const SetupFallback: string := "Failed to create profile. Please try again."

  /** The text shown for a failed save: the error's message, or a fixed
      text when what was thrown is not an `Error`. */
  function SetupErrorText(t: Thrown): (m: string)
    ensures t.Error? ==> m == t.message
    ensures t.NonError? ==> m == SetupFallback
  {
    if t.Error? then t.message else SetupFallback
  }

  /** The form's state. */
  datatype SetupForm = SetupForm(name: string, bio: string, isArtist: bool, errorDetails: Option<string>)

  /** The form and toast after a submit whose save, when one was made,
      ended with `saved`. */
  function AfterSubmit(f: SetupForm, saved: Option<Result<(), Thrown>>): (SetupForm, Toast) {
    match saved
    case None => (f.(errorDetails := None), ErrorToast(NameRequired))
    case Some(Ok(_)) => (SetupForm("", "", false, None), SuccessToast(SetupSuccess))
    case Some(Err(t)) => (f.(errorDetails := Some(SetupErrorText(t))), ErrorToast(SetupErrorText(t)))
  }

  /** After a submit the form shows an error exactly when a save was made
      and failed; a success empties the form, and a blank name or a failure
      keeps what was typed, so submitting again sends the same profile. */
  lemma AfterSubmitShowsFailure(f: SetupForm, saved: Option<Result<(), Thrown>>)
    ensures var (g, toast) := AfterSubmit(f, saved);
            (g.errorDetails.Some? <==> saved.Some? && saved.value.Err?)
            && (toast.SuccessToast? <==> saved.Some? && saved.value.Ok?)
            && (g.errorDetails.Some? ==> toast == ErrorToast(g.errorDetails.value))
            && (saved.Some? && saved.value.Ok? ==> g == SetupForm("", "", false, None))
            && (!(saved.Some? && saved.value.Ok?) ==>
                  SubmittedProfile(g.name, g.bio, g.isArtist) == SubmittedProfile(f.name, f.bio, f.isArtist))
  {
  }

  class ProfileSetupModal {
    const actor: Actor?
    var name: string
    var bio: string
    var isArtist: bool
    var errorDetails: Option<string>

    function Form(): SetupForm
      reads this
    {
      SetupForm(name, bio, isArtist, errorDetails)
    }

    constructor (actor: Actor?)
      ensures this.actor == actor && Form() == SetupForm("", "", false, None)
    {
      this.actor := actor;
      name, bio, isArtist, errorDetails := "", "", false, None;
    }

    /** The effect that clears the error when the dialog is hidden. */
    method OnVisibilityChange(show: bool)
      modifies this
      ensures Form() == if show then old(Form()) else old(Form()).(errorDetails := None)
    {
      if !show {
        errorDetails := None;
      }
    }

    /** `handleSubmit`: the error is cleared first; a blank name raises a
        toast and calls nothing; otherwise the trimmed profile is saved. */
    method HandleSubmit() returns (toast: Toast)
      modifies this, actor
      ensures var p := SubmittedProfile(old(name), old(bio), old(isArtist));
              p.None? ==> (Form(), toast) == AfterSubmit(old(Form()), None)
                          && (actor != null ==> actor.calls == old(actor.calls))
      ensures var p := SubmittedProfile(old(name), old(bio), old(isArtist));
              p.Some? && actor == null ==> (Form(), toast) == AfterSubmit(old(Form()), Some(SaveProfileResult(false, Resolved(""))))
      ensures var p := SubmittedProfile(old(name), old(bio), old(isArtist));
              p.Some? && actor != null ==>
                var c := Call.SaveCallerUserProfile(p.value);
                actor.calls == old(actor.calls) + [c]
                && (Form(), toast) == AfterSubmit(old(Form()), Some(SaveProfileResult(true, actor.respond(old(actor.calls), c))))
    {
      errorDetails := None;
      var p := SubmittedProfile(name, bio, isArtist);
      if p.None? {
        return ErrorToast(NameRequired);
      }
      var r := Queries.SaveCallerUserProfile(actor, p.value);
      match r
      case Ok(_) =>
        toast := SuccessToast(SetupSuccess);
        name, bio, isArtist := "", "", false;
      case Err(t) =>
        errorDetails := Some(SetupErrorText(t));
        toast := ErrorToast(SetupErrorText(t));
    }
  }
}
