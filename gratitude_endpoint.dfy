/** `GratitudeEndpoint` (Service/Gratitude/GratitudeEndpoint.swift): the
    requests for gratitude messages, as path with query, HTTP method, JSON body
    and headers. */
module GratitudeEndpoints {
  import opened Wrappers
  import opened Text
  import opened Dto

  datatype GratitudeEndpoint =
    | CreateGratitude(createDto: CreateGratitudeDto, accessToken: string)
    | UpdateGratitude(id: int, updateDto: UpdateGratitudeDto, accessToken: string)
    | DeleteGratitude(id: int, accessToken: string)
    | GetGratitudeList(listDto: GetGratitudeDto, accessToken: string)
    | ToggleGratitudeLike(id: int, accessToken: string)
    | GetGratitudeLikeCount(id: int, accessToken: string)

  const ListPrefix: string := "/gratitude?memberId="

  /** The `&postType=` segment, present when a filter is given. */
  function PostTypeSegment(postType: Option<PostType>): string {
    if postType.Some? then "&postType=" + PostTypeRawValue(postType.value) else ""
  }

  /** The path with query of a list request: member id, page size and
      comma-joined order, then the filter, then the cursor. */
  function ListPath(dto: GetGratitudeDto): string {
    ListPrefix + IntToDecimal(dto.memberId) + "&take=" + IntToDecimal(dto.take)
      + "&order=" + Join(dto.order, ",") + PostTypeSegment(dto.postType) + CursorSegment(dto.cursor)
  }

  /** The query after the member id: page size, comma-joined order, filter
      and cursor. */
  function ListQueryAfterMemberId(dto: GetGratitudeDto): (r: string)
    ensures r != [] && r[0] == '&'
  {
    "&take=" + IntToDecimal(dto.take) + "&order=" + Join(dto.order, ",")
      + PostTypeSegment(dto.postType) + CursorSegment(dto.cursor)
  }

  /** The list `path`, built as the source builds it, by appending to a
      variable. */
  method BuildListPath(dto: GetGratitudeDto) returns (pathWithQuery: string)
    ensures pathWithQuery == ListPath(dto)
  {
    pathWithQuery := "/gratitude?memberId=" + IntToDecimal(dto.memberId) + "&take=" + IntToDecimal(dto.take);
    var orderString := Join(dto.order, ",");
    pathWithQuery := pathWithQuery + "&order=" + orderString;
    if dto.postType.Some? {
      pathWithQuery := pathWithQuery + "&postType=" + PostTypeRawValue(dto.postType.value);
    }
    if dto.cursor.Some? && dto.cursor.value != [] {
      pathWithQuery := pathWithQuery + "&cursor=" + dto.cursor.value;
    }
  }

  /** The cursor segment comes last, and only a non-empty cursor adds one: an
      empty cursor gives the same path as no cursor. */
  lemma ListPathCursor(dto: GetGratitudeDto)
    ensures var noCursor := ListPath(dto.(cursor := None));
      && (dto.cursor.Some? && dto.cursor.value != [] ==> ListPath(dto) == noCursor + "&cursor=" + dto.cursor.value)
      && (ListPath(dto) == noCursor <==> dto.cursor.None? || dto.cursor.value == [])
  {
  }

  /** The filter segment comes right after the order and before any cursor. */
  lemma ListPathPostType(dto: GetGratitudeDto, p: PostType)
    ensures ListPath(dto.(postType := Some(p)))
      == ListPath(dto.(postType := None, cursor := None)) + "&postType=" + PostTypeRawValue(p) + CursorSegment(dto.cursor)
  {
  }

  lemma {:induction false} FieldBeforeDecimal(i: int, rest: string)
    requires rest != [] && rest[0] == '&'
    ensures FieldBefore(IntToDecimal(i) + rest, '&') == IntToDecimal(i)
  {
    var d := IntToDecimal(i);
    FieldBeforeNoSep(d, rest, '&');
  }

  lemma ListPathSplitsAtMemberId(dto: GetGratitudeDto)
    ensures ListPath(dto) == ListPrefix + (IntToDecimal(dto.memberId) + ListQueryAfterMemberId(dto))
  {
    Regroup(ListPrefix, IntToDecimal(dto.memberId), "&take=", IntToDecimal(dto.take), "&order=",
      Join(dto.order, ","), PostTypeSegment(dto.postType), CursorSegment(dto.cursor));
  }

  lemma Regroup(a: string, b: string, c: string, d: string, e: string, f: string, g: string, h: string)
    ensures a + b + c + d + e + f + g + h == a + (b + (c + d + e + f + g + h))
  {
  }

  /** The member id can be read back from a list path: it is the text between
      the fixed prefix and the next `&`. */
  lemma ListPathMemberId(dto: GetGratitudeDto)
    ensures var p := ListPath(dto);
      && |p| > |ListPrefix| && p[..|ListPrefix|] == ListPrefix
      && ParseInt(FieldBefore(p[|ListPrefix|..], '&')) == Some(dto.memberId)
  {
    var p := ListPath(dto);
    var rest := ListQueryAfterMemberId(dto);
    ListPathSplitsAtMemberId(dto);
    assert p[|ListPrefix|..] == IntToDecimal(dto.memberId) + rest;
    FieldBeforeDecimal(dto.memberId, rest);
    IntToDecimalRoundTrip(dto.memberId);
  }

  /** `/gratitude/<id>`, the path of one message. */
  function ItemPath(id: int): string {
    "/gratitude/" + IntToDecimal(id)
  }

  /** `path`. */
  function Path(e: GratitudeEndpoint): (r: string)
    ensures e.CreateGratitude? ==> r == "/gratitude"
    ensures e.GetGratitudeList? ==> r == ListPath(e.listDto)
    ensures e.UpdateGratitude? || e.DeleteGratitude? ==> r == ItemPath(e.id)
    ensures e.ToggleGratitudeLike? ==> r == ItemPath(e.id) + "/like"
    ensures e.GetGratitudeLikeCount? ==> r == ItemPath(e.id) + "/like/count"
  {
    match e
    case CreateGratitude(_, _) => "/gratitude"
    case UpdateGratitude(id, _, _) => "/gratitude/" + IntToDecimal(id)
    case DeleteGratitude(id, _) => "/gratitude/" + IntToDecimal(id)
    case GetGratitudeList(dto, _) => ListPath(dto)
    case ToggleGratitudeLike(id, _) => "/gratitude/" + IntToDecimal(id) + "/like"
    case GetGratitudeLikeCount(id, _) => "/gratitude/" + IntToDecimal(id) + "/like/count"
  }

  /** Different messages have different paths. */
  lemma ItemPathInjective(a: int, b: int)
    ensures ItemPath(a) == ItemPath(b) ==> a == b
  {
    if ItemPath(a) == ItemPath(b) {
      assert IntToDecimal(a) == ItemPath(a)[|"/gratitude/"|..];
      IntToDecimalInjective(a, b);
    }
  }

  /** `method`. */
  function Method(e: GratitudeEndpoint): (r: HttpMethod)
    ensures r == Post <==> e.CreateGratitude? || e.ToggleGratitudeLike?
    ensures r == Put <==> e.UpdateGratitude?
    ensures r == Delete <==> e.DeleteGratitude?
    ensures r == Get <==> e.GetGratitudeList? || e.GetGratitudeLikeCount?
  {
    match e
    case CreateGratitude(_, _) => Post
    case UpdateGratitude(_, _, _) => Put
    case DeleteGratitude(_, _) => Delete
    case GetGratitudeList(_, _) | GetGratitudeLikeCount(_, _) => Get
    case ToggleGratitudeLike(_, _) => Post
  }

  /** The create body: all five fields, the visibility as its raw value. */
  function CreateBody(dto: CreateGratitudeDto): (r: Body)
    ensures r.Keys == {"recipientId", "authorId", "contents", "isAnonymous", "visibility"}
    ensures r["recipientId"] == JInt(dto.recipientId) && r["authorId"] == JInt(dto.authorId)
    ensures r["contents"] == JString(dto.contents) && r["isAnonymous"] == JBool(dto.isAnonymous)
    ensures r["visibility"] == JString(VisibilityRawValue(dto.visibility))
  {
    map["recipientId" := JInt(dto.recipientId),
        "authorId" := JInt(dto.authorId),
        "contents" := JString(dto.contents),
        "isAnonymous" := JBool(dto.isAnonymous),
        "visibility" := JString(VisibilityRawValue(dto.visibility))]
  }

  /** The update body: one entry per field that is given, and no other. */
  function UpdateBody(dto: UpdateGratitudeDto): (r: Body)
    ensures "recipientId" in r <==> dto.recipientId.Some?
    ensures "authorId" in r <==> dto.authorId.Some?
    ensures "contents" in r <==> dto.contents.Some?
    ensures "isAnonymous" in r <==> dto.isAnonymous.Some?
    ensures "visibility" in r <==> dto.visibility.Some?
    ensures r.Keys <= {"recipientId", "authorId", "contents", "isAnonymous", "visibility"}
    ensures dto.recipientId.Some? ==> r["recipientId"] == JInt(dto.recipientId.value)
    ensures dto.authorId.Some? ==> r["authorId"] == JInt(dto.authorId.value)
    ensures dto.contents.Some? ==> r["contents"] == JString(dto.contents.value)
    ensures dto.isAnonymous.Some? ==> r["isAnonymous"] == JBool(dto.isAnonymous.value)
    ensures dto.visibility.Some? ==> r["visibility"] == JString(VisibilityRawValue(dto.visibility.value))
  {
    map k | k in {"recipientId", "authorId", "contents", "isAnonymous", "visibility"} && UpdateField(dto, k).Some?
      :: UpdateField(dto, k).value
  }

  /** The value a given update field contributes, if any. */
  function UpdateField(dto: UpdateGratitudeDto, key: string): Option<JsonValue> {
    if key == "recipientId" && dto.recipientId.Some? then Some(JInt(dto.recipientId.value))
    else if key == "authorId" && dto.authorId.Some? then Some(JInt(dto.authorId.value))
    else if key == "contents" && dto.contents.Some? then Some(JString(dto.contents.value))
    else if key == "isAnonymous" && dto.isAnonymous.Some? then Some(JBool(dto.isAnonymous.value))
    else if key == "visibility" && dto.visibility.Some? then Some(JString(VisibilityRawValue(dto.visibility.value)))
    else None
  }

  /** The update body, filled in place as the source fills it. */
  method BuildUpdateBody(dto: UpdateGratitudeDto) returns (body: Body)
    ensures body == UpdateBody(dto)
  {
    body := map[];
    if dto.recipientId.Some? { body := body["recipientId" := JInt(dto.recipientId.value)]; }
    if dto.authorId.Some? { body := body["authorId" := JInt(dto.authorId.value)]; }
    if dto.contents.Some? { body := body["contents" := JString(dto.contents.value)]; }
    if dto.isAnonymous.Some? { body := body["isAnonymous" := JBool(dto.isAnonymous.value)]; }
    if dto.visibility.Some? { body := body["visibility" := JString(VisibilityRawValue(dto.visibility.value))]; }
  }

  /** An update that changes nothing still sends a body, an empty one. */
  lemma EmptyUpdateBody()
    ensures UpdateBody(UpdateGratitudeDto(None, None, None, None, None)) == map[]
  {
  }

  /** `body`: present exactly for create and update. */
  function Body(e: GratitudeEndpoint): (r: Option<Body>)
    ensures r.Some? <==> e.CreateGratitude? || e.UpdateGratitude?
    ensures e.CreateGratitude? ==> r == Some(CreateBody(e.createDto))
    ensures e.UpdateGratitude? ==> r == Some(UpdateBody(e.updateDto))
  {
    match e
    case CreateGratitude(dto, _) => Some(CreateBody(dto))
    case UpdateGratitude(_, dto, _) => Some(UpdateBody(dto))
    case _ => None
  }

  /** `queryParameters`: the query travels in the path. */
  function QueryParameters(e: GratitudeEndpoint): Option<Body> {
    None
  }

  lemma QueryParametersAbsent(e: GratitudeEndpoint)
    ensures QueryParameters(e).None?
  {
  }

  /** `headers`, filled in place: every request carries the bearer token, so
      the result is never nil. */
  method BuildHeaders(e: GratitudeEndpoint) returns (r: Option<Headers>)
    ensures r == Some(map["Authorization" := "Bearer " + e.accessToken])
  {
    var headers: Headers := map[];
    match e {
      case CreateGratitude(_, accessToken) =>
        headers := headers["Authorization" := "Bearer " + accessToken];
      case UpdateGratitude(_, _, accessToken) =>
        headers := headers["Authorization" := "Bearer " + accessToken];
      case DeleteGratitude(_, accessToken) =>
        headers := headers["Authorization" := "Bearer " + accessToken];
      case GetGratitudeList(_, accessToken) =>
        headers := headers["Authorization" := "Bearer " + accessToken];
      case ToggleGratitudeLike(_, accessToken) =>
        headers := headers["Authorization" := "Bearer " + accessToken];
      case GetGratitudeLikeCount(_, accessToken) =>
        headers := headers["Authorization" := "Bearer " + accessToken];
    }
    r := if |headers| == 0 then None else Some(headers);
  }
}
