/** `UserEndpoint` (Service/User/UserEndpoint.swift): the member requests, as
    path with query, HTTP method, JSON body and headers. */
module UserEndpoints {
  import opened Wrappers
  import opened Text
  import opened Dto

  datatype UserEndpoint =
    | FindAllMembers
    | FindOneMember(id: int)
    | UpdateMember(id: int, updateDto: UpdateMemberDto, accessToken: string)
    | RemoveMember(id: int, accessToken: string)
    | SearchMembers(searchDto: SearchMemberDto)

  /** The `&search=` segment: present whenever a search text is given, even an
      empty one. */
  function SearchSegment(search: Option<string>): (r: string)
    ensures r != [] <==> search.Some?
  {
    if search.Some? then "&search=" + search.value else ""
  }

  /** The path with query of a search: page size and comma-joined order, then
      the search text, then the cursor. */
  function SearchPath(dto: SearchMemberDto): string {
    "/member?take=" + IntToDecimal(dto.take) + "&order=" + Join(dto.order, ",")
      + SearchSegment(dto.search) + CursorSegment(dto.cursor)
  }

  /** The search `path`, built by appending to a variable as the source does. */
  method BuildSearchPath(dto: SearchMemberDto) returns (pathWithQuery: string)
    ensures pathWithQuery == SearchPath(dto)
  {
    pathWithQuery := "/member?take=" + IntToDecimal(dto.take);
    var orderString := Join(dto.order, ",");
    pathWithQuery := pathWithQuery + "&order=" + orderString;
    if dto.search.Some? {
      pathWithQuery := pathWithQuery + "&search=" + dto.search.value;
    }
    if dto.cursor.Some? && dto.cursor.value != [] {
      pathWithQuery := pathWithQuery + "&cursor=" + dto.cursor.value;
    }
  }

  /** A given search text, empty or not, adds its segment before the cursor;
      a cursor adds its segment last, and only when it is not empty. */
  lemma SearchPathSegments(dto: SearchMemberDto)
    ensures var bare := SearchPath(dto.(search := None, cursor := None));
      && (dto.search.Some? ==> SearchPath(dto.(cursor := None)) == bare + "&search=" + dto.search.value)
      && (dto.cursor.Some? && dto.cursor.value != [] ==>
            SearchPath(dto) == SearchPath(dto.(cursor := None)) + "&cursor=" + dto.cursor.value)
      && (SearchPath(dto) == SearchPath(dto.(cursor := None)) <==> dto.cursor.None? || dto.cursor.value == [])
  {
  }

  /** `/member/<id>`, the path of one member. */
  function MemberPath(id: int): string {
    "/member/" + IntToDecimal(id)
  }

  /** `path`: `findOne`, `update` and `remove` share the member's path. */
  function Path(e: UserEndpoint): (r: string)
    ensures e.FindAllMembers? ==> r == "/member/all"
    ensures e.FindOneMember? || e.UpdateMember? || e.RemoveMember? ==> r == MemberPath(e.id)
    ensures e.SearchMembers? ==> r == SearchPath(e.searchDto)
  {
    match e
    case FindAllMembers => "/member/all"
    case FindOneMember(id) => "/member/" + IntToDecimal(id)
    case UpdateMember(id, _, _) => "/member/" + IntToDecimal(id)
    case RemoveMember(id, _) => "/member/" + IntToDecimal(id)
    case SearchMembers(dto) => SearchPath(dto)
  }

  /** The list of all members is not mistaken for a member's own path: `all`
      is not a decimal id. */
  lemma AllMembersPathIsNoMemberPath(id: int)
    ensures Path(FindAllMembers) != MemberPath(id)
  {
    var d := IntToDecimal(id);
    assert MemberPath(id)[8] == d[0];
    assert d[0] == '-' || IsDigit(d[0]);
  }

  /** `method`. */
  function Method(e: UserEndpoint): (r: HttpMethod)
    ensures r == Get <==> e.FindAllMembers? || e.FindOneMember? || e.SearchMembers?
    ensures r == Put <==> e.UpdateMember?
    ensures r == Delete <==> e.RemoveMember?
  {
    match e
    case FindAllMembers | FindOneMember(_) | SearchMembers(_) => Get
    case UpdateMember(_, _, _) => Put
    case RemoveMember(_, _) => Delete
  }

  /** The value a given update field contributes, if any. */
  function UpdateField(dto: UpdateMemberDto, key: string): Option<JsonValue> {
    if key == "email" && dto.email.Some? then Some(JString(dto.email.value))
    else if key == "password" && dto.password.Some? then Some(JString(dto.password.value))
    else if key == "name" && dto.name.Some? then Some(JString(dto.name.value))
    else if key == "nickname" && dto.nickname.Some? then Some(JString(dto.nickname.value))
    else if key == "profile" && dto.profile.Some? then Some(JString(dto.profile.value))
    else None
  }

  /** The update body: one entry per field that is given, and no other. */
  function UpdateBody(dto: UpdateMemberDto): (r: Body)
    ensures "email" in r <==> dto.email.Some?
    ensures "password" in r <==> dto.password.Some?
    ensures "name" in r <==> dto.name.Some?
    ensures "nickname" in r <==> dto.nickname.Some?
    ensures "profile" in r <==> dto.profile.Some?
    ensures r.Keys <= {"email", "password", "name", "nickname", "profile"}
    ensures dto.email.Some? ==> r["email"] == JString(dto.email.value)
    ensures dto.password.Some? ==> r["password"] == JString(dto.password.value)
    ensures dto.name.Some? ==> r["name"] == JString(dto.name.value)
    ensures dto.nickname.Some? ==> r["nickname"] == JString(dto.nickname.value)
    ensures dto.profile.Some? ==> r["profile"] == JString(dto.profile.value)
  {
    map k | k in {"email", "password", "name", "nickname", "profile"} && UpdateField(dto, k).Some?
      :: UpdateField(dto, k).value
  }

  /** The update body, filled in place as the source fills it. */
  method BuildUpdateBody(dto: UpdateMemberDto) returns (body: Body)
    ensures body == UpdateBody(dto)
  {
    body := map[];
    if dto.email.Some? { body := body["email" := JString(dto.email.value)]; }
    if dto.password.Some? { body := body["password" := JString(dto.password.value)]; }
    if dto.name.Some? { body := body["name" := JString(dto.name.value)]; }
    if dto.nickname.Some? { body := body["nickname" := JString(dto.nickname.value)]; }
    if dto.profile.Some? { body := body["profile" := JString(dto.profile.value)]; }
  }

  /** `body`: present exactly for `update`. */
  function Body(e: UserEndpoint): (r: Option<Body>)
    ensures r.Some? <==> e.UpdateMember?
    ensures e.UpdateMember? ==> r == Some(UpdateBody(e.updateDto))
  {
    match e
    case UpdateMember(_, dto, _) => Some(UpdateBody(dto))
    case _ => None
  }

  /** `headers`: a bearer token for `update` and `remove`, nil otherwise. */
  function Headers(e: UserEndpoint): (r: Option<Headers>)
    ensures r.Some? <==> e.UpdateMember? || e.RemoveMember?
    ensures r.Some? ==> r.value == map["Authorization" := "Bearer " + e.accessToken]
  {
    match e
    case UpdateMember(_, _, accessToken) => Some(map["Authorization" := "Bearer " + accessToken])
    case RemoveMember(_, accessToken) => Some(map["Authorization" := "Bearer " + accessToken])
    case _ => None
  }

  /** `headers`, filled in place: an empty dictionary becomes nil. */
  method BuildHeaders(e: UserEndpoint) returns (r: Option<Headers>)
    ensures r == Headers(e)
  {
    var headers: Headers := map[];
    match e {
      case UpdateMember(_, _, accessToken) =>
        headers := headers["Authorization" := "Bearer " + accessToken];
      case RemoveMember(_, accessToken) =>
        headers := headers["Authorization" := "Bearer " + accessToken];
      case _ =>
    }
    r := if |headers| == 0 then None else Some(headers);
  }
}
