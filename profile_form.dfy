/** What the two profile forms share: the profile a submit sends, and the
    toasts they raise. */
module ProfileForm {
  import opened Wrappers
  import opened Backend
  import opened Text

  datatype Toast = SuccessToast(text: string) | ErrorToast(text: string)

  const NameRequired: string := "Please enter your name"

  /** The profile a submit sends: nothing when the name is blank, otherwise
      the name and bio with their surrounding white space removed. */
  function SubmittedProfile(name: string, bio: string, isArtist: bool): (r: Option<UserProfile>)
    ensures r.None? <==> AllSpace(name)
    ensures r.Some? ==> r.value == UserProfile(Trim(bio), isArtist, Trim(name))
    ensures r.Some? ==> r.value.isArtist == isArtist && r.value.name != []
                        && !IsSpace(r.value.name[0]) && !IsSpace(r.value.name[|r.value.name| - 1])
    ensures r.Some? ==> r.value.bio == [] || (!IsSpace(r.value.bio[0]) && !IsSpace(r.value.bio[|r.value.bio| - 1]))
  {
    TrimEmptyIff(name);
    TrimShape(name);
    TrimShape(bio);
    if Trim(name) == [] then None
    else Some(UserProfile(Trim(bio), isArtist, Trim(name)))
  }

  /** Submitting a profile that was itself submitted sends it again
      unchanged: loading a saved profile into a form and saving it without
      edits is a round trip. */
  lemma ResubmitIsIdentity(name: string, bio: string, isArtist: bool)
    requires SubmittedProfile(name, bio, isArtist).Some?
    ensures var p := SubmittedProfile(name, bio, isArtist).value;
            SubmittedProfile(p.name, p.bio, p.isArtist) == Some(p)
  {
    TrimIdempotent(name);
    TrimIdempotent(bio);
  }
}
