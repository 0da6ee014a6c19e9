/** `UserProfileEditViewModel` (View/UserProfile/UserProfileEditViewModel.swift):
    the profile editor. The stored user is passed in (`null` when the store
    holds none) and is updated in place when the backend accepts the
    change. */
module UserProfileEdit {
  import opened Wrappers
  import opened Dto
  import opened StoredUsers
  import UE = UserErrors
  import UserEndpoints

  /** `Action`; the picked image is reduced to whether there is one. */
  datatype Action = UpdateProfile(name: string, nickname: string, hasImage: bool)

  /** A profile update for the member with the given id. */
  datatype ProfileRequest = ProfileRequest(id: int, dto: UpdateMemberProfileDto)

  /** The profile fields sent: the typed names, and the stored image link
      unless a new image was picked, which is sent as an empty link. */
  function ProfileDto(storedProfile: Option<string>, name: string, nickname: string, hasImage: bool): (d: UpdateMemberProfileDto)
    ensures d.name == Some(name) && d.nickname == Some(nickname)
    ensures hasImage ==> d.profile == Some("")
    ensures !hasImage ==> d.profile == storedProfile
  {
    UpdateMemberProfileDto(if hasImage then Some("") else storedProfile, Some(name), Some(nickname))
  }

  /** `UserService.updateProfile`: the profile fields as a member update,
      without email or password. */
  function AsMemberUpdate(d: UpdateMemberProfileDto): (u: UpdateMemberDto)
    ensures u.email.None? && u.password.None?
    ensures u.name == d.name && u.nickname == d.nickname && u.profile == d.profile
  {
    UpdateMemberDto(None, None, d.name, d.nickname, d.profile)
  }

  /** The body the profile edit finally sends: both names, the profile link
      when there is one to send, and never the email or the password. */
  lemma ProfileBody(storedProfile: Option<string>, name: string, nickname: string, hasImage: bool)
    ensures var body := UserEndpoints.UpdateBody(AsMemberUpdate(ProfileDto(storedProfile, name, nickname, hasImage)));
      && body["name"] == JString(name) && body["nickname"] == JString(nickname)
      && ("profile" in body <==> hasImage || storedProfile.Some?)
      && (hasImage ==> body["profile"] == JString(""))
      && "email" !in body && "password" !in body
      && body.Keys == {"name", "nickname"} + (if hasImage || storedProfile.Some? then {"profile"} else {})
  {
    var body := UserEndpoints.UpdateBody(AsMemberUpdate(ProfileDto(storedProfile, name, nickname, hasImage)));
    assert "name" in body && "nickname" in body;
  }

  class ProfileEditModel {
    var isLoading: bool
    var error: Option<UE.UserError>
    var isSuccessful: bool

    constructor ()
      ensures !isLoading && error == None && !isSuccessful
    {
      isLoading, error, isSuccessful := false, None, false;
    }

    /** `send(action:)`: the one action is the profile update. */
    method Send(action: Action, user: StoredUser?) returns (request: Option<ProfileRequest>)
      modifies this`isLoading, this`error
      ensures user == null ==> request == None && error == Some(UE.MemberNotFound) && isLoading == old(isLoading)
      ensures user != null ==>
        && isLoading && error == old(error)
        && request == Some(ProfileRequest(user.id, ProfileDto(user.profileImage, action.name, action.nickname, action.hasImage)))
    {
      match action {
        case UpdateProfile(name, nickname, hasImage) =>
          request := UpdateProfileRequest(name, nickname, hasImage, user);
      }
    }

    /** `updateProfile` up to the request: with no stored user the error is
        `memberNotFound` and nothing is sent; otherwise the editor is loading
        and the request targets the stored user. */
    method UpdateProfileRequest(name: string, nickname: string, hasImage: bool, user: StoredUser?) returns (request: Option<ProfileRequest>)
      modifies this`isLoading, this`error
      ensures user == null ==> request == None && error == Some(UE.MemberNotFound) && isLoading == old(isLoading)
      ensures user != null ==>
        && isLoading && error == old(error)
        && request == Some(ProfileRequest(user.id, ProfileDto(user.profileImage, name, nickname, hasImage)))
    {
      if user == null {
        error := Some(UE.MemberNotFound);
        return None;
      }
      isLoading := true;
      var profileImageUrl := user.profileImage;
      if hasImage {
        profileImageUrl := Some("");
      }
      request := Some(ProfileRequest(user.id, UpdateMemberProfileDto(profileImageUrl, Some(name), Some(nickname))));
    }

    /** The sink: a returned member's names and image replace the stored
        user's and mark success; a failure is kept as the error and the
        stored user is untouched. Either way loading ends. */
    method Complete(user: StoredUser, outcome: Result<Member, UE.UserError>)
      modifies this`isLoading, this`error, this`isSuccessful, user
      ensures !isLoading
      ensures user.email == old(user.email)
      ensures outcome.Success? ==>
        && user.name == Some(outcome.value.name) && user.nickname == Some(outcome.value.nickname)
        && user.profileImage == outcome.value.profile
        && isSuccessful && error == old(error)
      ensures outcome.Success? && outcome.value.id == user.id && outcome.value.email == user.email ==>
        user.AsMember() == outcome.value
      ensures outcome.Failure? ==>
        && user.name == old(user.name) && user.nickname == old(user.nickname)
        && user.profileImage == old(user.profileImage)
        && isSuccessful == old(isSuccessful) && error == Some(outcome.error)
    {
      match outcome {
        case Success(member) =>
          user.name := Some(member.name);
          user.nickname := Some(member.nickname);
          user.profileImage := member.profile;
          isSuccessful := true;
        case Failure(e) =>
          error := Some(e);
      }
      isLoading := false;
    }
  }
}
