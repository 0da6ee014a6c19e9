/** The records exchanged with the backend (`GratitudeDTO.swift`,
    `UserDTO.swift`), the HTTP method tag and the JSON values an endpoint
    body holds. */
module Dto {
  import opened Wrappers

  /** `Visibility`; its raw values are what the backend receives. */
  datatype Visibility = Private | Public

  function VisibilityRawValue(v: Visibility): (r: string)
    ensures r == "isPrivate" <==> v == Private
    ensures r == "isPublic" <==> v == Public
  {
    match v
    case Private => "isPrivate"
    case Public => "isPublic"
  }

  /** `PostType`, the list filter; each raw value is the case name. */
  datatype PostType = FromMe | FromOther | ToOther

  function PostTypeRawValue(p: PostType): string {
    match p
    case FromMe => "fromMe"
    case FromOther => "fromOther"
    case ToOther => "toOther"
  }

  /** `Member` as the backend returns it. */
  datatype Member = Member(id: int, email: string, name: string, nickname: string, profile: Option<string>)

  /** One gratitude message (`GratitudeResponse`). */
  datatype GratitudeResponse = GratitudeResponse(
    id: int, contents: string, recipient: Member, author: Member,
    isAnonymous: bool, visibility: Visibility)

  datatype CreateGratitudeDto = CreateGratitudeDto(
    recipientId: int, authorId: int, contents: string, isAnonymous: bool, visibility: Visibility)

  datatype UpdateGratitudeDto = UpdateGratitudeDto(
    recipientId: Option<int>, authorId: Option<int>, contents: Option<string>,
    isAnonymous: Option<bool>, visibility: Option<Visibility>)

  /** A request for one page of messages. */
  datatype GetGratitudeDto = GetGratitudeDto(
    memberId: int, postType: Option<PostType>, cursor: Option<string>, order: seq<string>, take: int)

  /** One page of messages and the cursor of the page after it. */
  datatype GetGratitudeResponseDto = GetGratitudeResponseDto(
    gratitudeList: seq<GratitudeResponse>, nextCursor: Option<string>, count: int)

  datatype UpdateMemberDto = UpdateMemberDto(
    email: Option<string>, password: Option<string>, name: Option<string>,
    nickname: Option<string>, profile: Option<string>)

  datatype UpdateMemberProfileDto = UpdateMemberProfileDto(
    profile: Option<string>, name: Option<string>, nickname: Option<string>)

  /** A request for one page of member search results. */
  datatype SearchMemberDto = SearchMemberDto(
    search: Option<string>, cursor: Option<string>, order: seq<string>, take: int)

  datatype SearchMemberResponseDto = SearchMemberResponseDto(
    members: seq<Member>, nextCursor: Option<string>, count: int)

  /** `HTTPMethod`. */
  datatype HttpMethod = Get | Post | Put | Delete | Patch

  /** The values an endpoint puts in a `[String: Any]` body. */
  datatype JsonValue = JInt(i: int) | JString(s: string) | JBool(b: bool)

  /** The `&cursor=` segment, present when the cursor is given and not empty. */
  function CursorSegment(cursor: Option<string>): (r: string)
    ensures r != [] <==> cursor.Some? && cursor.value != []
    ensures r != [] ==> r == "&cursor=" + cursor.value
  {
    if cursor.Some? && cursor.value != [] then "&cursor=" + cursor.value else ""
  }

  type Body = map<string, JsonValue>
  type Headers = map<string, string>
}
