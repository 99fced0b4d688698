/**
 * The profile editor: the validation schema for username and bio, the form
 * defaults taken from the stored profile, and the submit that sends the
 * values with an empty bio turned into null.
 */
module EditProfilePage {
  import opened Common
  import opened Text

  /** The form's values; `bio` is optional in the schema. */
  datatype ProfileValues = ProfileValues(username: string, bio: Option<string>)

  /** The schema's messages, in the order the checks run. */
  datatype Issue = UsernameTooShort | UsernameTooLong | UsernameCharacters | BioTooLong

  const MinUsername := 3
  const MaxUsername := 30
  const MaxBio := 150

  /** `[a-zA-Z0-9_]`. */
  predicate UsernameChar(c: char) {
    ('a' <= c <= 'z') || ('A' <= c <= 'Z') || ('0' <= c <= '9') || c == '_'
  }

  /** `/^[a-zA-Z0-9_]+$/.test(s)`. */
  predicate UsernamePattern(s: string) {
    s != [] && forall i :: 0 <= i < |s| ==> UsernameChar(s[i])
  }

  /**
   * Every issue the schema reports, in order: each username check runs and
   * reports on its own, then the bio length when a bio is given. Lengths
   * are counted in UTF-16 code units, as JavaScript counts them.
   */
  function ProfileIssues(v: ProfileValues): (issues: seq<Issue>)
    ensures UsernameTooShort in issues <==> Utf16Length(v.username) < MinUsername
    ensures UsernameTooLong in issues <==> Utf16Length(v.username) > MaxUsername
    ensures UsernameCharacters in issues <==> !UsernamePattern(v.username)
    ensures BioTooLong in issues <==> v.bio.Some? && Utf16Length(v.bio.value) > MaxBio
  {
    (if Utf16Length(v.username) < MinUsername then [UsernameTooShort] else [])
    + (if Utf16Length(v.username) > MaxUsername then [UsernameTooLong] else [])
    + (if !UsernamePattern(v.username) then [UsernameCharacters] else [])
    + (if v.bio.Some? && Utf16Length(v.bio.value) > MaxBio then [BioTooLong] else [])
  }

  /** The values pass the schema. */
  predicate ProfileValid(v: ProfileValues) {
    ProfileIssues(v) == []
  }

  lemma {:induction false} AsciiLengthIsCodeUnits(s: string)
    requires forall i :: 0 <= i < |s| ==> UsernameChar(s[i])
    ensures Utf16Length(s) == |s|
  {
    if s != [] {
      AsciiLengthIsCodeUnits(s[1..]);
    }
  }

  /**
   * Valid values are exactly these: a username of 3 to 30 letters, digits
   * and underscores, and a bio that is absent or at most 150 code units.
   */
  lemma ProfileValidIff(v: ProfileValues)
    ensures ProfileValid(v) <==>
      && MinUsername <= |v.username| <= MaxUsername
      && (forall i :: 0 <= i < |v.username| ==> UsernameChar(v.username[i]))
      && (v.bio.Some? ==> Utf16Length(v.bio.value) <= MaxBio)
  {
    if forall i :: 0 <= i < |v.username| ==> UsernameChar(v.username[i]) {
      AsciiLengthIsCodeUnits(v.username);
    }
    var issues := ProfileIssues(v);
    if issues != [] {
      assert issues[0] in issues;
    }
  }

  /** A row of the `profiles` table (`null` columns are `None`). */
  datatype ProfileRow = ProfileRow(username: Option<string>, bio: Option<string>, avatarUrl: Option<string>)

  /** The values sent to `updateProfile`. */
  datatype ProfileUpdate = ProfileUpdate(username: string, bio: Option<string>)

  /** `form.reset({ username: username || "", bio: bio || "" })`. */
  function FormDefaults(row: ProfileRow): (v: ProfileValues)
    ensures v.bio.Some?
    ensures v.username == "" <==> row.username.None? || row.username == Some("")
  {
    ProfileValues(row.username.GetOr(""), Some(row.bio.GetOr("")))
  }

  /** `{ username, bio: bio || null }`. */
  function SubmittedUpdate(v: ProfileValues): (u: ProfileUpdate)
    ensures u.username == v.username
    ensures u.bio != Some("")
    ensures v.bio.Some? && v.bio.value != "" ==> u.bio == v.bio
  {
    ProfileUpdate(v.username, if v.bio.None? || v.bio.value == "" then None else v.bio)
  }

  /**
   * Saving a loaded profile unedited writes back its username and bio,
   * except that an empty stored bio is written as null; a profile without
   * a username cannot be saved unedited, since "" is too short.
   */
  lemma UneditedProfileRoundTrip(row: ProfileRow)
    ensures SubmittedUpdate(FormDefaults(row)) ==
      ProfileUpdate(row.username.GetOr(""), if row.bio == Some("") then None else row.bio)
    ensures row.username.None? ==> !ProfileValid(FormDefaults(row))
  {
    if row.username.None? {
      assert UsernameTooShort in ProfileIssues(FormDefaults(row));
    }
  }

  /** The page's loading and saving state and the form values. */
  class EditProfileForm {
    var isLoading: bool
    var isSaving: bool
    var profileData: Option<ProfileRow>
    var values: ProfileValues

    constructor()
      ensures isLoading && !isSaving && profileData.None? && values == ProfileValues("", Some(""))
    {
      isLoading := true;
      isSaving := false;
      profileData := None;
      values := ProfileValues("", Some(""));
    }

    /**
     * The fetch effect: without a user id nothing happens (so the page
     * keeps loading); otherwise a fetched row resets the form to its
     * defaults, a failure keeps the form, and loading ends.
     */
    method FetchProfile(userId: Option<string>, response: Result<ProfileRow, string>)
      modifies this
      ensures userId.None? || userId.value == "" ==>
        isLoading == old(isLoading) && profileData == old(profileData) && values == old(values)
      ensures userId.Some? && userId.value != "" ==> !isLoading
      ensures userId.Some? && userId.value != "" && response.Ok? ==>
        profileData == Some(response.value) && values == FormDefaults(response.value)
      ensures userId.Some? && userId.value != "" && response.Err? ==>
        profileData == old(profileData) && values == old(values)
      ensures isSaving == old(isSaving)
    {
      if userId.None? || userId.value == "" {
        return;
      }
      if response.Ok? {
        profileData := Some(response.value);
        values := FormDefaults(response.value);
      }
      isLoading := false;
    }

    /**
     * Submit: the schema runs first and invalid values send nothing;
     * without a user nothing is sent either. Otherwise the update is sent
     * and saving ends whether it succeeded or not.
     */
    method Submit(user: Option<string>, v: ProfileValues) returns (sent: Option<ProfileUpdate>)
      modifies this
      ensures sent.Some? <==> ProfileValid(v) && user.Some?
      ensures sent.Some? ==> sent.value == SubmittedUpdate(v) && !isSaving
      ensures sent.None? ==> isSaving == old(isSaving)
      ensures isLoading == old(isLoading) && profileData == old(profileData) && values == old(values)
    {
      if !ProfileValid(v) || user.None? {
        return None;
      }
      isSaving := true;
      sent := Some(SubmittedUpdate(v));
      isSaving := false;
    }
  }
}
