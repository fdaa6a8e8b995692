/** The page on which a signed-in caller edits their profile. */
module EditProfile {
  import opened Wrappers
  import opened Backend
  import opened Queries
  import opened ProfileForm

  datatype View = AccessDenied | Loading | Form

  /** Signed-out callers are turned away before the loading state is
      looked at. */
  function PageView(isAuthenticated: bool, profileLoading: bool): (v: View)
    ensures v == AccessDenied <==> !isAuthenticated
    ensures v == Loading <==> isAuthenticated && profileLoading
    ensures v == Form <==> isAuthenticated && !profileLoading
  {
    if !isAuthenticated then AccessDenied
    else if profileLoading then Loading
    else Form
  }

  const EditSuccess: string := "Profile updated successfully!"
  const EditFailure: string := "Failed to update profile. Please try again."
  const BrowsePath: string := "/browse"

  /** The toast and the navigation after a submit whose save, when one was
      made, ended with `saved`. */
  function SubmitOutcome(saved: Option<Result<(), Thrown>>): (Toast, Option<string>) {
    match saved
    case None => (ErrorToast(NameRequired), None)
    case Some(Ok(_)) => (SuccessToast(EditSuccess), Some(BrowsePath))
    case Some(Err(_)) => (ErrorToast(EditFailure), None)
  }

  /** The page leaves for the browse page exactly when the save succeeded;
      every failure, whatever was thrown, shows the same fixed text. */
  lemma NavigatesIffSaved(saved: Option<Result<(), Thrown>>)
    ensures var (toast, to) := SubmitOutcome(saved);
            (to.Some? <==> saved.Some? && saved.value.Ok?)
            && (to.Some? ==> to.value == BrowsePath)
            && (toast.SuccessToast? <==> to.Some?)
            && (saved.Some? && saved.value.Err? ==> toast == ErrorToast(EditFailure))
  {
  }

  class EditProfilePage {
    const actor: Actor?
    var name: string
    var bio: string
    var isArtist: bool

    constructor (actor: Actor?)
      ensures this.actor == actor && name == "" && bio == "" && !isArtist
    {
      this.actor := actor;
      name, bio, isArtist := "", "", false;
    }

    /** The effect that copies a loaded profile into the form; with no
        profile the form is left as it is. */
    method SyncFromProfile(profile: Option<UserProfile>)
      modifies this
      ensures profile.Some? ==> name == profile.value.name && bio == profile.value.bio && isArtist == profile.value.isArtist
      ensures profile.None? ==> name == old(name) && bio == old(bio) && isArtist == old(isArtist)
    {
      if profile.Some? {
        name, bio, isArtist := profile.value.name, profile.value.bio, profile.value.isArtist;
      }
    }

    /** `handleSubmit`: a blank name raises a toast and calls nothing;
        otherwise the trimmed profile is saved. The form is not changed. */
    method HandleSubmit() returns (toast: Toast, navigateTo: Option<string>)
      modifies actor
      ensures var p := SubmittedProfile(name, bio, isArtist);
              p.None? ==> (toast, navigateTo) == SubmitOutcome(None)
                          && (actor != null ==> actor.calls == old(actor.calls))
      ensures var p := SubmittedProfile(name, bio, isArtist);
              p.Some? && actor == null ==> (toast, navigateTo) == SubmitOutcome(Some(SaveProfileResult(false, Resolved(""))))
      ensures var p := SubmittedProfile(name, bio, isArtist);
              p.Some? && actor != null ==>
                var c := Call.SaveCallerUserProfile(p.value);
                actor.calls == old(actor.calls) + [c]
                && (toast, navigateTo) == SubmitOutcome(Some(SaveProfileResult(true, actor.respond(old(actor.calls), c))))
    {
      var p := SubmittedProfile(name, bio, isArtist);
      if p.None? {
        return ErrorToast(NameRequired), None;
      }
      var r := Queries.SaveCallerUserProfile(actor, p.value);
      if r.Ok? {
        toast, navigateTo := SuccessToast(EditSuccess), Some(BrowsePath);
      } else {
        toast, navigateTo := ErrorToast(EditFailure), None;
      }
    }
  }
}
