/** The signed-in user the app keeps in its local store: the record the
    view-models fetch and, for the profile editor, update in place. Its
    fields are those of `User` (Model/User.swift) without the tokens, which
    live in the keychain. */
module StoredUsers {
  import opened Wrappers
  import opened Dto

  class StoredUser {
    const id: int
    var email: string
    var name: Option<string>
    var nickname: Option<string>
    var profileImage: Option<string>

    constructor (id: int, email: string, name: Option<string>, nickname: Option<string>, profileImage: Option<string>)
      ensures this.id == id && this.email == email && this.name == name
      ensures this.nickname == nickname && this.profileImage == profileImage
    {
      this.id, this.email, this.name := id, email, name;
      this.nickname, this.profileImage := nickname, profileImage;
    }

    /** The `Member` built from the stored user, missing names read as
        empty. */
    function AsMember(): (m: Member)
      reads this
      ensures m.id == id && m.email == email && m.profile == profileImage
      ensures m.name == (if name.Some? then name.value else "")
      ensures m.nickname == (if nickname.Some? then nickname.value else "")
    {
      Member(id, email, name.GetOr(""), nickname.GetOr(""), profileImage)
    }
  }
}
