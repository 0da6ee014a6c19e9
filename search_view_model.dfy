/** `SearchViewModel` (View/Search/SearchViewModel.swift): one paginated list
    of members found for a keyword. As on the home screen, each
    `searchMember` call is split into issuing the request and completing
    it. */
module SearchViewModel {
  import opened Wrappers
  import opened Dto

  /** `defaultTake`: the page size, and the least page length that lets
      more pages follow. */
  const DefaultTake: int := 10

  const SearchOrder: seq<string> := ["createdAt_DESC"]

  /** The request for the page after `cursor`; an empty keyword searches
      without a filter. */
  function SearchQuery(keyword: string, cursor: Option<string>): (q: SearchMemberDto)
    ensures q.search.None? <==> keyword == []
    ensures q.search.Some? ==> q.search.value == keyword
    ensures q.cursor == cursor && q.order == ["createdAt_DESC"] && q.take == 10
  {
    SearchMemberDto(if keyword == [] then None else Some(keyword), cursor, SearchOrder, DefaultTake)
  }

  /** The view-model's pagination state as a value. */
  datatype SearchState = SearchState(
    members: seq<Member>, isLoading: bool, nextCursor: Option<string>,
    hasMoreData: bool, currentKeyword: string)

  const Initial := SearchState([], false, None, true, "")

  /** `hasNext`. */
  function HasNext(s: SearchState): (r: bool)
    ensures r <==> s.hasMoreData && s.nextCursor.Some?
  {
    s.hasMoreData && s.nextCursor != None
  }

  /** Whether `searchMember` gets past its two guards: nothing loading, and
      more data to fetch unless the refresh is forced. The keyword is not
      consulted. */
  function Proceeds(s: SearchState, keyword: string, forceRefresh: bool): (r: bool)
    ensures r ==> !s.isLoading
    ensures !s.hasMoreData && !forceRefresh ==> !r
  {
    !s.isLoading && (s.hasMoreData || forceRefresh)
  }

  /** The state `searchMember` leaves before the response: unchanged when a
      guard stops it; otherwise reset for a new keyword or a forced refresh,
      then loading. */
  function Begin(s: SearchState, keyword: string, forceRefresh: bool): (r: SearchState)
    ensures !Proceeds(s, keyword, forceRefresh) ==> r == s
    ensures Proceeds(s, keyword, forceRefresh) ==> r.isLoading && r.currentKeyword == keyword && r.hasMoreData
    ensures Proceeds(s, keyword, forceRefresh) && (keyword != s.currentKeyword || forceRefresh) ==>
      r.members == [] && r.nextCursor == None
    ensures keyword == s.currentKeyword && !forceRefresh ==> r.members == s.members && r.nextCursor == s.nextCursor
  {
    if !Proceeds(s, keyword, forceRefresh) then s
    else if s.currentKeyword != keyword || forceRefresh then SearchState([], true, None, true, keyword)
    else s.(isLoading := true)
  }

  /** The state after the response: a page is appended and its cursor kept,
      and more data is expected only when a cursor came back with a full
      page; a failure keeps the list, the cursor and the flag. */
  function Finish(s: SearchState, outcome: Result<SearchMemberResponseDto, string>): (r: SearchState)
    ensures !r.isLoading && r.currentKeyword == s.currentKeyword
    ensures outcome.Success? ==> r.members == s.members + outcome.value.members
    ensures outcome.Success? ==> r.nextCursor == outcome.value.nextCursor
    ensures outcome.Success? ==>
      (r.hasMoreData <==> outcome.value.nextCursor.Some? && |outcome.value.members| >= 10)
    ensures outcome.Failure? ==> r == s.(isLoading := false)
  {
    match outcome
    case Success(page) =>
      var more := page.nextCursor != None && !(page.members == [] || |page.members| < DefaultTake);
      SearchState(s.members + page.members, false, page.nextCursor, more, s.currentKeyword)
    case Failure(_) => s.(isLoading := false)
  }

  /** `isLastItem`: the item has the id of the last member shown. */
  function IsLastItem(s: SearchState, item: Member): (r: bool)
    ensures r <==> s.members != [] && s.members[|s.members| - 1].id == item.id
  {
    if s.members == [] then false else s.members[|s.members| - 1].id == item.id
  }

  /** The guard order as written: once a short page has arrived, a search
      for a different keyword is ignored unless forced, and the old results
      stay on screen. */
  lemma NewKeywordIgnoredAfterShortPage(s: SearchState, page: SearchMemberResponseDto, keyword: string)
    requires s.isLoading && |page.members| < 10 && keyword != s.currentKeyword
    ensures var after := Finish(s, Success(page));
      && !Proceeds(after, keyword, false)
      && Begin(after, keyword, false) == after
      && Begin(after, keyword, false).members == s.members + page.members
  {
  }

  /** A concrete run: the unfiltered listing returns three members, and the
      keyword typed next starts no search. */
  lemma NewKeywordIgnoredExample()
    ensures var m := Member(1, "a@b.co", "Kim", "kim", None);
      var listed := Finish(Begin(Initial, "", false), Success(SearchMemberResponseDto([m, m, m], None, 3)));
      && Begin(listed, "kim", false) == listed
      && listed.currentKeyword == "" && |listed.members| == 3
  {
    var m := Member(1, "a@b.co", "Kim", "kim", None);
    var listed := Finish(Begin(Initial, "", false), Success(SearchMemberResponseDto([m, m, m], None, 3)));
    assert !listed.hasMoreData;
    assert !Proceeds(listed, "kim", false);
  }

  /** Whether a search gets past the guards in the order the comments
      describe: nothing loading, and more data to fetch unless the keyword
      is new or the refresh is forced. */
  function ProceedsIntended(s: SearchState, keyword: string, forceRefresh: bool): (r: bool)
    ensures r <==> Proceeds(s, keyword, forceRefresh) || (!s.isLoading && keyword != s.currentKeyword)
  {
    !s.isLoading && (keyword != s.currentKeyword || forceRefresh || s.hasMoreData)
  }

  /** The guard order the comments describe: a new keyword (or a forced
      refresh) resets the list first, and only then does the absence of
      further data stop a repeated search for the same keyword. */
  function BeginIntended(s: SearchState, keyword: string, forceRefresh: bool): (r: SearchState)
    ensures !ProceedsIntended(s, keyword, forceRefresh) ==> r == s
    ensures ProceedsIntended(s, keyword, forceRefresh) ==> r.isLoading && r.currentKeyword == keyword && r.hasMoreData
    ensures ProceedsIntended(s, keyword, forceRefresh) && (keyword != s.currentKeyword || forceRefresh) ==>
      r.members == [] && r.nextCursor == None
    ensures keyword == s.currentKeyword && !forceRefresh ==> r == Begin(s, keyword, false)
    ensures forceRefresh ==> r == Begin(s, keyword, true)
  {
    if s.isLoading then s
    else if s.currentKeyword != keyword || forceRefresh then SearchState([], true, None, true, keyword)
    else if !s.hasMoreData then s
    else s.(isLoading := true)
  }

  /** With the intended order, a new keyword always starts a fresh search
      when nothing is loading. */
  lemma IntendedNewKeywordSearches(s: SearchState, keyword: string)
    requires !s.isLoading && keyword != s.currentKeyword
    ensures BeginIntended(s, keyword, false) == SearchState([], true, None, true, keyword)
  {
  }

  /** The two orders differ only where a new keyword meets an exhausted
      list. */
  lemma IntendedDiffersOnlyOnNewKeyword(s: SearchState, keyword: string, forceRefresh: bool)
    ensures BeginIntended(s, keyword, forceRefresh) != Begin(s, keyword, forceRefresh) <==>
      !s.isLoading && !s.hasMoreData && !forceRefresh && keyword != s.currentKeyword
  {
  }

  /** The state after unforced searches for the current keyword, each
      completing with its page. */
  function Paginate(s: SearchState, pages: seq<SearchMemberResponseDto>): SearchState {
    if pages == [] then s
    else
      var before := Paginate(s, pages[..|pages| - 1]);
      Finish(Begin(before, before.currentKeyword, false), Success(pages[|pages| - 1]))
  }

  function Concat(pages: seq<SearchMemberResponseDto>): (r: seq<Member>)
    ensures pages == [] ==> r == []
  {
    if pages == [] then []
    else Concat(pages[..|pages| - 1]) + pages[|pages| - 1].members
  }

  /** While every page but the last is full and carries a cursor, each page
      is requested and appended in order. */
  lemma {:induction false} PaginateAppends(s: SearchState, pages: seq<SearchMemberResponseDto>)
    requires !s.isLoading && s.hasMoreData
    requires forall i :: 0 <= i < |pages| - 1 ==> pages[i].nextCursor.Some? && |pages[i].members| >= 10
    ensures Paginate(s, pages).members == s.members + Concat(pages)
    ensures !Paginate(s, pages).isLoading && Paginate(s, pages).currentKeyword == s.currentKeyword
    ensures pages != [] ==> Paginate(s, pages).nextCursor == pages[|pages| - 1].nextCursor
    ensures pages != [] ==>
      (Paginate(s, pages).hasMoreData <==> pages[|pages| - 1].nextCursor.Some? && |pages[|pages| - 1].members| >= 10)
    ensures pages == [] ==> Paginate(s, pages) == s
  {
    if pages != [] {
      var init := pages[..|pages| - 1];
      PaginateAppends(s, init);
      var before := Paginate(s, init);
      assert before.hasMoreData by {
        if init != [] {
          assert init[|init| - 1] == pages[|pages| - 2];
        }
      }
      assert s.members + Concat(init) + pages[|pages| - 1].members
          == s.members + (Concat(init) + pages[|pages| - 1].members);
    }
  }

  /** The search screen's view-model. */
  class SearchModel {
    var members: seq<Member>
    var isLoading: bool
    var errorMessage: Option<string>
    var nextCursor: Option<string>
    var hasMoreData: bool
    var currentKeyword: string

    function State(): SearchState
      reads this
    {
      SearchState(members, isLoading, nextCursor, hasMoreData, currentKeyword)
    }

    constructor ()
      ensures State() == Initial && errorMessage == None
    {
      members, isLoading, errorMessage := [], false, None;
      nextCursor, hasMoreData, currentKeyword := None, true, "";
    }

    /** `hasNext`. */
    function HasNextPage(): (r: bool)
      reads this
      ensures r <==> hasMoreData && nextCursor.Some?
    {
      HasNext(State())
    }

    /** `searchMember(keyword:forceRefresh:)` up to the request, with its
        guards in the corrected order (see `BeginIntended`): returns the
        request sent, or `None` when a guard stops the call. */
    method SearchMember(keyword: string, forceRefresh: bool) returns (request: Option<SearchMemberDto>)
      modifies this
      ensures State() == BeginIntended(old(State()), keyword, forceRefresh)
      ensures errorMessage == old(errorMessage)
      ensures request.Some? <==> ProceedsIntended(old(State()), keyword, forceRefresh)
      ensures request.Some? ==> request.value == SearchQuery(keyword, nextCursor)
    {
      if isLoading {
        return None;
      }
      if currentKeyword != keyword || forceRefresh {
        members := [];
        nextCursor := None;
        hasMoreData := true;
        currentKeyword := keyword;
      } else if !hasMoreData {
        return None;
      }
      isLoading := true;
      request := Some(SearchQuery(keyword, nextCursor));
    }

    /** The sink's two callbacks. */
    method Complete(outcome: Result<SearchMemberResponseDto, string>)
      modifies this
      ensures State() == Finish(old(State()), outcome)
      ensures errorMessage == if outcome.Failure? then Some(outcome.error) else old(errorMessage)
    {
      match outcome {
        case Success(page) =>
          members := members + page.members;
          nextCursor := page.nextCursor;
          hasMoreData := page.nextCursor != None;
          if page.members == [] || |page.members| < DefaultTake {
            hasMoreData := false;
          }
        case Failure(description) =>
          errorMessage := Some(description);
      }
      isLoading := false;
    }

    /** `loadMoreMembers`: the next page for the current keyword, when one
        is known and nothing is loading. */
    method LoadMoreMembers() returns (request: Option<SearchMemberDto>)
      modifies this
      ensures errorMessage == old(errorMessage)
      ensures request.Some? <==> !old(isLoading) && HasNext(old(State()))
      ensures request.Some? ==> State() == old(State()).(isLoading := true)
      ensures request.Some? ==> request.value == SearchQuery(currentKeyword, old(nextCursor))
      ensures request.None? ==> State() == old(State())
    {
      if !isLoading && HasNextPage() {
        request := SearchMember(currentKeyword, false);
      } else {
        request := None;
      }
    }

    /** `loadMoreIfNeeded(currentItem:)`: `loadMoreMembers` when the item is
        the last one shown. */
    method LoadMoreIfNeeded(item: Member) returns (request: Option<SearchMemberDto>)
      modifies this
      ensures errorMessage == old(errorMessage)
      ensures request.Some? <==> IsLastItem(old(State()), item) && HasNext(old(State())) && !old(isLoading)
      ensures request.Some? ==> State() == old(State()).(isLoading := true)
      ensures request.Some? ==> request.value == SearchQuery(currentKeyword, old(nextCursor))
      ensures request.None? ==> State() == old(State())
    {
      if IsLastItem(State(), item) && HasNextPage() && !isLoading {
        request := LoadMoreMembers();
      } else {
        request := None;
      }
    }

    /** `refreshCurrentSearch`: a forced search for the current keyword. */
    method RefreshCurrentSearch() returns (request: Option<SearchMemberDto>)
      modifies this
      ensures errorMessage == old(errorMessage)
      ensures State() == Begin(old(State()), old(currentKeyword), true)
      ensures request.Some? <==> !old(isLoading)
      ensures request.Some? ==> request.value == SearchQuery(old(currentKeyword), None)
    {
      request := SearchMember(currentKeyword, true);
    }
  }
}
