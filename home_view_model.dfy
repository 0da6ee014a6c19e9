/** `HomeViewModel` (View/Home/HomeViewModel.swift): three independently
    paginated message streams, one per `MessageType`, sharing one error
    message. Each `load…Messages` call is split in two steps: issuing the
    request (the method returns the query it sends, or `None` when it sends
    nothing) and completing it with the page or the failure the service
    delivered. */
module HomeViewModel {
  import opened Wrappers
  import opened Dto
  import opened MessageTypes

  /** `defaultTake`: the page size of every stream. */
  const DefaultTake: int := 5

  /** The fixed sort order of every page request. */
  const ListOrder: seq<string> := ["createdAt:desc"]

  /** The list filter each stream asks the backend for. */
  function PostTypeFor(t: MessageType): (p: PostType)
    ensures t == FromSelfToSelf <==> p == FromMe
    ensures t == FromSelfToOther <==> p == ToOther
    ensures t == FromOtherToSelf <==> p == FromOther
  {
    match t
    case FromSelfToSelf => FromMe
    case FromSelfToOther => ToOther
    case FromOtherToSelf => FromOther
  }

  /** The request a stream sends for the page after `cursor`. */
  function Query(memberId: int, t: MessageType, cursor: Option<string>): (q: GetGratitudeDto)
    ensures q.memberId == memberId && q.postType == Some(PostTypeFor(t)) && q.cursor == cursor
    ensures q.order == ["createdAt:desc"] && q.take == 5
  {
    GetGratitudeDto(memberId, Some(PostTypeFor(t)), cursor, ListOrder, DefaultTake)
  }

  /** Two streams never send the same request. */
  lemma QueriesOfStreamsDiffer(memberId: int, t: MessageType, u: MessageType, c: Option<string>, d: Option<string>)
    requires t != u
    ensures Query(memberId, t, c) != Query(memberId, u, d)
  {
  }

  /** One stream (its list, loading flag and cursor) as a value. */
  datatype StreamState = StreamState(messages: seq<GratitudeResponse>, isLoading: bool, nextCursor: Option<string>)

  const EmptyStream := StreamState([], false, None)

  /** The state once a load has been asked for. A stream already loading
      ignores the call; otherwise a forced refresh first drops the list and
      the cursor, and the stream is then loading. */
  function Start(s: StreamState, forceRefresh: bool): (r: StreamState)
    ensures s.isLoading ==> r == s
    ensures !s.isLoading ==> r.isLoading
    ensures !s.isLoading && forceRefresh ==> r.messages == [] && r.nextCursor == None
    ensures !forceRefresh ==> r.messages == s.messages && r.nextCursor == s.nextCursor
  {
    if s.isLoading then s
    else if forceRefresh then StreamState([], true, None)
    else s.(isLoading := true)
  }

  /** The state once the request has completed with `outcome`: a page is
      appended and its cursor kept; a failure keeps list and cursor. Either
      way the stream stops loading. */
  function Finish(s: StreamState, outcome: Result<GetGratitudeResponseDto, string>): (r: StreamState)
    ensures !r.isLoading
    ensures outcome.Success? ==> r.nextCursor == outcome.value.nextCursor
    ensures outcome.Success? ==> |r.messages| == |s.messages| + |outcome.value.gratitudeList|
    ensures outcome.Success? ==> r.messages[..|s.messages|] == s.messages
    ensures outcome.Success? ==> r.messages[|s.messages|..] == outcome.value.gratitudeList
    ensures outcome.Failure? ==> r.messages == s.messages && r.nextCursor == s.nextCursor
  {
    match outcome
    case Success(page) => StreamState(s.messages + page.gratitudeList, false, page.nextCursor)
    case Failure(_) => s.(isLoading := false)
  }

  /** While a request is in flight, a second load sends nothing: at most one
      request per stream is outstanding. */
  lemma OneRequestInFlight(s: StreamState, first: bool, second: bool)
    requires !s.isLoading
    ensures Start(Start(s, first), second) == Start(s, first)
  {
  }

  /** A failed load leaves the stream as it was before the load, save for a
      forced refresh, which has already emptied it. */
  lemma FailedLoadRestores(s: StreamState, message: string)
    requires !s.isLoading
    ensures Finish(Start(s, false), Failure(message)) == s
    ensures Finish(Start(s, true), Failure(message)) == EmptyStream
  {
  }

  /** All the messages of a run of pages, in page order. */
  function Concat(pages: seq<GetGratitudeResponseDto>): (r: seq<GratitudeResponse>)
    ensures pages == [] ==> r == []
  {
    if pages == [] then []
    else Concat(pages[..|pages| - 1]) + pages[|pages| - 1].gratitudeList
  }

  /** The stream after loading `pages` one after another, each load
      unforced and each completing with its page. */
  function Paginate(s: StreamState, pages: seq<GetGratitudeResponseDto>): StreamState {
    if pages == [] then s
    else Finish(Start(Paginate(s, pages[..|pages| - 1]), false), Success(pages[|pages| - 1]))
  }

  /** Successive pages are appended in order, nothing is dropped or
      reordered, and the cursor is the last page's. */
  lemma {:induction false} PaginateAppends(s: StreamState, pages: seq<GetGratitudeResponseDto>)
    requires !s.isLoading
    ensures Paginate(s, pages).messages == s.messages + Concat(pages)
    ensures !Paginate(s, pages).isLoading
    ensures pages != [] ==> Paginate(s, pages).nextCursor == pages[|pages| - 1].nextCursor
  {
    if pages != [] {
      var init := pages[..|pages| - 1];
      PaginateAppends(s, init);
      var before := Paginate(s, init);
      assert Paginate(s, pages) == Finish(Start(before, false), Success(pages[|pages| - 1]));
      assert s.messages + Concat(init) + pages[|pages| - 1].gratitudeList
          == s.messages + (Concat(init) + pages[|pages| - 1].gratitudeList);
    }
  }

  /** After a forced refresh whose page arrives, followed by further pages,
      the stream holds exactly those pages' messages. */
  lemma RefreshThenPaginate(s: StreamState, first: GetGratitudeResponseDto, more: seq<GetGratitudeResponseDto>)
    requires !s.isLoading
    ensures Paginate(Finish(Start(s, true), Success(first)), more).messages == Concat([first] + more)
  {
    var refreshed := Finish(Start(s, true), Success(first));
    PaginateAppends(refreshed, more);
    ConcatAppend([first], more);
    assert Concat([first]) == Concat([]) + first.gratitudeList;
  }

  /** Concatenation distributes over joined runs of pages. */
  lemma {:induction false} ConcatAppend(p: seq<GetGratitudeResponseDto>, q: seq<GetGratitudeResponseDto>)
    ensures Concat(p + q) == Concat(p) + Concat(q)
  {
    if q == [] {
      assert p + q == p;
    } else {
      ConcatAppend(p, q[..|q| - 1]);
      assert (p + q)[..|p + q| - 1] == p + q[..|q| - 1];
    }
  }

  /** `isLastItem`: the item has the id of the list's last element. */
  function IsLastItem(item: GratitudeResponse, messages: seq<GratitudeResponse>): (r: bool)
    ensures r <==> messages != [] && messages[|messages| - 1].id == item.id
    ensures messages == [] ==> !r
  {
    if messages == [] then false else item.id == messages[|messages| - 1].id
  }

  /** `loadMoreIfNeeded`'s test: the item is last and a next page is known. */
  function ShouldLoadMore(s: StreamState, item: GratitudeResponse): (r: bool)
    ensures r ==> s.nextCursor.Some? && s.messages != []
  {
    IsLastItem(item, s.messages) && s.nextCursor.Some?
  }

  /** Once the last page (the one without a next cursor) has arrived,
      scrolling to the end starts no further load. */
  lemma LastPageStopsLoadMore(s: StreamState, pages: seq<GetGratitudeResponseDto>, item: GratitudeResponse)
    requires !s.isLoading && pages != [] && pages[|pages| - 1].nextCursor.None?
    ensures !ShouldLoadMore(Paginate(s, pages), item)
  {
    PaginateAppends(s, pages);
  }

  /** One stream of the home screen. */
  class MessageStream {
    /** The stream's `MessageType`; the request filter follows from it. */
    const kind: MessageType
    var messages: seq<GratitudeResponse>
    var isLoading: bool
    var nextCursor: Option<string>

    function State(): StreamState
      reads this
    {
      StreamState(messages, isLoading, nextCursor)
    }

    constructor (kind: MessageType)
      ensures this.kind == kind && State() == EmptyStream
    {
      this.kind := kind;
      messages, isLoading, nextCursor := [], false, None;
    }

    /** `load…Messages(forceRefresh:)` up to the request: returns the query
        sent, or `None` when the stream is already loading. */
    method Load(memberId: int, forceRefresh: bool) returns (request: Option<GetGratitudeDto>)
      modifies this
      ensures State() == Start(old(State()), forceRefresh)
      ensures request.None? <==> old(isLoading)
      ensures request.Some? ==> request.value == Query(memberId, kind, nextCursor)
    {
      if isLoading {
        return None;
      }
      if forceRefresh {
        messages := [];
        nextCursor := None;
      }
      isLoading := true;
      request := Some(Query(memberId, kind, nextCursor));
    }

    /** The sink's two callbacks: a received page is appended and its cursor
        kept; completion clears the loading flag. A failure is returned for
        the view-model to show. */
    method Complete(outcome: Result<GetGratitudeResponseDto, string>) returns (failure: Option<string>)
      modifies this
      ensures State() == Finish(old(State()), outcome)
      ensures failure.Some? <==> outcome.Failure?
      ensures outcome.Failure? ==> failure == Some(outcome.error)
    {
      if outcome.Success? {
        messages := messages + outcome.value.gratitudeList;
        nextCursor := outcome.value.nextCursor;
      }
      isLoading := false;
      failure := if outcome.Failure? then Some(outcome.error) else None;
    }
  }

  /** The home screen's view-model. */
  class HomeModel {
    const selfToSelf: MessageStream
    const selfToOther: MessageStream
    const otherToSelf: MessageStream
    var currentUserId: int
    var errorMessage: Option<string>

    /** Three distinct streams, each of its own kind. */
    ghost predicate Valid()
      reads this, selfToSelf, selfToOther, otherToSelf
    {
      && selfToSelf != selfToOther && selfToSelf != otherToSelf && selfToOther != otherToSelf
      && selfToSelf.kind == FromSelfToSelf
      && selfToOther.kind == FromSelfToOther
      && otherToSelf.kind == FromOtherToSelf
    }

    /** The stream that serves `t`. */
    function Stream(t: MessageType): (s: MessageStream)
      ensures t == FromSelfToSelf ==> s == selfToSelf
      ensures t == FromSelfToOther ==> s == selfToOther
      ensures t == FromOtherToSelf ==> s == otherToSelf
    {
      match t
      case FromSelfToSelf => selfToSelf
      case FromSelfToOther => selfToOther
      case FromOtherToSelf => otherToSelf
    }

    /** The state of the stream serving `t`. */
    function StateOf(t: MessageType): StreamState
      reads this, selfToSelf, selfToOther, otherToSelf
    {
      Stream(t).State()
    }

    lemma StreamKind(t: MessageType)
      requires Valid()
      ensures Stream(t).kind == t
      ensures forall u :: u != t ==> Stream(u) != Stream(t)
    {
    }

    constructor ()
      ensures Valid() && fresh(selfToSelf) && fresh(selfToOther) && fresh(otherToSelf)
      ensures currentUserId == 0 && errorMessage == None
      ensures forall t :: StateOf(t) == EmptyStream
    {
      selfToSelf := new MessageStream(FromSelfToSelf);
      selfToOther := new MessageStream(FromSelfToOther);
      otherToSelf := new MessageStream(FromOtherToSelf);
      currentUserId := 0;
      errorMessage := None;
    }

    /** `load…Messages(forceRefresh:)` for the stream of type `t`: only that
        stream changes, and the query carries the current user. */
    method LoadMessages(t: MessageType, forceRefresh: bool) returns (request: Option<GetGratitudeDto>)
      requires Valid()
      modifies Stream(t)
      ensures Valid()
      ensures StateOf(t) == Start(old(StateOf(t)), forceRefresh)
      ensures forall u :: u != t ==> StateOf(u) == old(StateOf(u))
      ensures request.None? <==> old(StateOf(t).isLoading)
      ensures request.Some? ==> request.value == Query(currentUserId, t, StateOf(t).nextCursor)
    {
      StreamKind(t);
      request := Stream(t).Load(currentUserId, forceRefresh);
    }

    /** The completion of `t`'s outstanding request; a failure's description
        becomes the shared `errorMessage`. */
    method CompleteLoad(t: MessageType, outcome: Result<GetGratitudeResponseDto, string>)
      requires Valid()
      modifies this`errorMessage, Stream(t)
      ensures Valid()
      ensures StateOf(t) == Finish(old(StateOf(t)), outcome)
      ensures forall u :: u != t ==> StateOf(u) == old(StateOf(u))
      ensures errorMessage == if outcome.Failure? then Some(outcome.error) else old(errorMessage)
    {
      StreamKind(t);
      var failure := Stream(t).Complete(outcome);
      if failure.Some? {
        errorMessage := failure;
      }
    }

    /** `loadMoreIfNeeded(for:currentItem:)`: an unforced load of `t`'s
        stream, when the item is its last and a cursor is known. */
    method LoadMoreIfNeeded(t: MessageType, item: GratitudeResponse) returns (request: Option<GetGratitudeDto>)
      requires Valid()
      modifies Stream(t)
      ensures Valid()
      ensures forall u :: u != t ==> StateOf(u) == old(StateOf(u))
      ensures ShouldLoadMore(old(StateOf(t)), item) ==> StateOf(t) == Start(old(StateOf(t)), false)
      ensures !ShouldLoadMore(old(StateOf(t)), item) ==> StateOf(t) == old(StateOf(t)) && request.None?
      ensures request.Some? <==> ShouldLoadMore(old(StateOf(t)), item) && !old(StateOf(t).isLoading)
      ensures request.Some? ==> request.value == Query(currentUserId, t, old(StateOf(t).nextCursor))
    {
      StreamKind(t);
      var s := Stream(t);
      if IsLastItem(item, s.messages) && s.nextCursor.Some? {
        request := LoadMessages(t, false);
      } else {
        request := None;
      }
    }

    /** `refreshAll`: a forced load of each stream in turn; a stream still
        loading is skipped and keeps its list. */
    method RefreshAll() returns (a: Option<GetGratitudeDto>, b: Option<GetGratitudeDto>, c: Option<GetGratitudeDto>)
      requires Valid()
      modifies selfToSelf, selfToOther, otherToSelf
      ensures Valid()
      ensures forall t :: StateOf(t) == Start(old(StateOf(t)), true)
      ensures a.Some? <==> !old(selfToSelf.isLoading)
      ensures b.Some? <==> !old(selfToOther.isLoading)
      ensures c.Some? <==> !old(otherToSelf.isLoading)
      ensures a.Some? ==> a.value == Query(currentUserId, FromSelfToSelf, None)
      ensures b.Some? ==> b.value == Query(currentUserId, FromSelfToOther, None)
      ensures c.Some? ==> c.value == Query(currentUserId, FromOtherToSelf, None)
    {
      a := LoadMessages(FromSelfToSelf, true);
      b := LoadMessages(FromSelfToOther, true);
      c := LoadMessages(FromOtherToSelf, true);
    }

    /** `isLoading(for:)`. */
    function IsLoading(t: MessageType): (r: bool)
      reads this, selfToSelf, selfToOther, otherToSelf
      ensures r == StateOf(t).isLoading
    {
      Stream(t).isLoading
    }

    /** `messages(for:)`. */
    function Messages(t: MessageType): (r: seq<GratitudeResponse>)
      reads this, selfToSelf, selfToOther, otherToSelf
      ensures r == StateOf(t).messages
    {
      Stream(t).messages
    }
  }
}
