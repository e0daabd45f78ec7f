/**
 * The reel feed's state holder (presentation/reels/ReelsViewModel.kt).
 *
 * The feed keeps a list of reels, a loading flag, the last error message, a
 * page counter and a reentrancy guard for "load more". Every intent the
 * screen raises and every notification a repository flow delivers is one
 * `Step` of a state machine; the class `ReelsViewModel` performs those steps
 * on its fields and records each call it makes on its repository.
 */
module ReelsScreen {
  import opened Resources

  /** domain/model/Reel.kt: the categories a reel query may filter on. */
  datatype ReelCategory =
    | ProductLaunch | Innovation | StartupStory | BehindTheScenes | Tutorial
    | CaseStudy | CompanyCulture | Announcement | Testimonial | Event

  /** The fields of a reel that the feed reads or writes. */
  datatype Reel = Reel(id: string, likes: int, isLikedByCurrentUser: bool)

  /** A call the feed makes on its reel repository. */
  datatype ReelRequest =
    | GetReels(category: Option<ReelCategory>, limit: int)
    | LikeReel(reelId: string)
    | UnlikeReel(reelId: string)
    | IncrementViews(reelId: string)

  /** Both feed loads ask for the newest 20 reels with no category filter. */
  const PageSize: int := 20
  const FirstPage: ReelRequest := GetReels(None, PageSize)

  /** The observable state of the feed, field for field. */
  datatype FeedState = FeedState(
    reels: seq<Reel>,
    isLoading: bool,
    error: Option<string>,
    currentPage: int,
    isLoadingMore: bool)

  const InitialFeed: FeedState := FeedState([], false, None, 0, false)

  /** What one step does: the new state and the repository calls it made, in order. */
  datatype Outcome = Outcome(state: FeedState, requests: seq<ReelRequest>)

  /** The collector of `loadReels`: one notification of the first-page flow. */
  function OnLoadEvent(s: FeedState, r: Resource<seq<Reel>>): (t: FeedState)
    ensures t.isLoading <==> r.Loading?
    ensures r.Success? ==> t.reels == OrEmpty(r.data) && t.currentPage == 1
    ensures !r.Success? ==> t.reels == s.reels && t.currentPage == s.currentPage
    ensures t.error == (if r.Error? then Some(r.message) else s.error)
    ensures t.isLoadingMore == s.isLoadingMore
  {
    match r
    case Success(data) => s.(reels := OrEmpty(data), isLoading := false, currentPage := 1)
    case Error(message) => s.(error := Some(message), isLoading := false)
    case Loading => s.(isLoading := true)
  }

  /** The collector of `loadMoreReels`: one notification of the next-page flow. */
  function OnLoadMoreEvent(s: FeedState, r: Resource<seq<Reel>>): (t: FeedState)
    ensures t.reels == s.reels + (if r.Success? then OrEmpty(r.data) else [])
    ensures t.currentPage == s.currentPage + (if r.Success? then 1 else 0)
    ensures t.isLoadingMore == (s.isLoadingMore && r.Loading?)
    ensures t.isLoading == s.isLoading && t.error == s.error
  {
    match r
    case Success(data) =>
      var appended := if data.Some? then s.reels + data.value else s.reels;
      s.(reels := appended, isLoadingMore := false, currentPage := s.currentPage + 1)
    case Error(_) => s.(isLoadingMore := false)
    case Loading => s
  }

  /** `loadMoreReels`: a no-op while a previous "load more" is pending. */
  function StartLoadMore(s: FeedState): (o: Outcome)
    ensures o.requests == [] <==> s.isLoadingMore
    ensures o.requests != [] ==> o.requests == [FirstPage]
    ensures o.state == s.(isLoadingMore := true)
  {
    if s.isLoadingMore then Outcome(s, [])
    else Outcome(s.(isLoadingMore := true), [FirstPage])
  }

  /** The optimistic update of one reel: flip the liked flag and move the counter by one. */
  function Toggled(r: Reel): Reel
  {
    r.(isLikedByCurrentUser := !r.isLikedByCurrentUser,
       likes := if r.isLikedByCurrentUser then r.likes - 1 else r.likes + 1)
  }

  /** The local update of `toggleLike`: every reel with the id is toggled, the others are kept. */
  function ToggleLiked(reels: seq<Reel>, reelId: string): (t: seq<Reel>)
    ensures |t| == |reels|
    ensures forall i :: 0 <= i < |reels| && reels[i].id != reelId ==> t[i] == reels[i]
    ensures forall i :: 0 <= i < |reels| && reels[i].id == reelId ==>
      && t[i].id == reelId
      && t[i].isLikedByCurrentUser == !reels[i].isLikedByCurrentUser
      && t[i].likes == reels[i].likes + (if reels[i].isLikedByCurrentUser then -1 else 1)
  {
    if reels == [] then []
    else
      var head := if reels[0].id == reelId then Toggled(reels[0]) else reels[0];
      var rest := ToggleLiked(reels[1..], reelId);
      assert forall i :: 0 < i < |reels| ==> reels[i] == reels[1..][i - 1];
      [head] + rest
  }

  /** Position `i` holds the first reel of the list with the id. */
  predicate IsFirstWithId(reels: seq<Reel>, reelId: string, i: int)
  {
    0 <= i < |reels| && reels[i].id == reelId && forall j :: 0 <= j < i ==> reels[j].id != reelId
  }

  /**
   * The repository call of `toggleLike`: unlike exactly when the first reel
   * with the id is liked; like otherwise, also when no reel has the id.
   */
  function LikeRequest(reels: seq<Reel>, reelId: string): (q: ReelRequest)
    ensures q == LikeReel(reelId) || q == UnlikeReel(reelId)
    ensures q.UnlikeReel? <==>
      exists i :: IsFirstWithId(reels, reelId, i) && reels[i].isLikedByCurrentUser
  {
    var reel := Find(reels, (r: Reel) => r.id == reelId);
    if reel.Some? && reel.value.isLikedByCurrentUser then
      UnlikeReel(reelId)
    else
      assert forall i :: IsFirstWithId(reels, reelId, i) ==> reel == Some(reels[i]);
      LikeReel(reelId)
  }

  /** The repository calls of `onReelViewed`: one view count, for an in-range position only. */
  function ViewRequests(reels: seq<Reel>, position: int): (qs: seq<ReelRequest>)
    ensures 0 <= position < |reels| ==> qs == [IncrementViews(reels[position].id)]
    ensures !(0 <= position < |reels|) ==> qs == []
  {
    match GetOrNull(reels, position)
    case Some(reel) => [IncrementViews(reel.id)]
    case None => []
  }

  /** Everything that can happen to the feed: the screen's intents and the flows' notifications. */
  datatype FeedInput =
    | LoadReels
    | LoadEvent(r: Resource<seq<Reel>>)
    | LoadMoreReels
    | LoadMoreEvent(r: Resource<seq<Reel>>)
    | ToggleLike(reelId: string)
    | ReelViewed(position: int)

  function Step(s: FeedState, input: FeedInput): Outcome
  {
    match input
    case LoadReels => Outcome(s.(isLoading := true), [FirstPage])
    case LoadEvent(r) => Outcome(OnLoadEvent(s, r), [])
    case LoadMoreReels => StartLoadMore(s)
    case LoadMoreEvent(r) => Outcome(OnLoadMoreEvent(s, r), [])
    case ToggleLike(reelId) => Outcome(s.(reels := ToggleLiked(s.reels, reelId)), [LikeRequest(s.reels, reelId)])
    case ReelViewed(position) => Outcome(s, ViewRequests(s.reels, position))
  }

  /** The steps of `inputs` one after the other, with all the calls they made. */
  function Run(s: FeedState, inputs: seq<FeedInput>): Outcome
    decreases inputs
  {
    if inputs == [] then Outcome(s, [])
    else
      var first := Step(s, inputs[0]);
      var rest := Run(first.state, inputs[1..]);
      Outcome(rest.state, first.requests + rest.requests)
  }

  /** The state after the notifications of one `loadReels` flow. */
  function AfterLoadEvents(s: FeedState, es: seq<Resource<seq<Reel>>>): FeedState
    decreases es
  {
    if es == [] then s else AfterLoadEvents(OnLoadEvent(s, es[0]), es[1..])
  }

  /** The state after the notifications of one `loadMoreReels` flow. */
  function AfterLoadMoreEvents(s: FeedState, es: seq<Resource<seq<Reel>>>): FeedState
    decreases es
  {
    if es == [] then s else AfterLoadMoreEvents(OnLoadMoreEvent(s, es[0]), es[1..])
  }

  /** The reels the `Success` notifications carry, in order (a null list counts as empty). */
  function Pages(es: seq<Resource<seq<Reel>>>): seq<Reel>
  {
    if es == [] then []
    else (if es[0].Success? then OrEmpty(es[0].data) else []) + Pages(es[1..])
  }

  /** How many `Success` notifications there are. */
  function Successes<T>(es: seq<Resource<T>>): nat
  {
    if es == [] then 0 else (if es[0].Success? then 1 else 0) + Successes(es[1..])
  }

  /**
   * A `loadReels` flow leaves the feed loading exactly when its last
   * notification is `Loading`; the list and the page counter are those of
   * the last `Success` (the list it carried, page 1), or untouched if there
   * was none; the error is the message of the last `Error`, or untouched.
   */
  lemma {:induction false} LoadEventsOutcome(s: FeedState, es: seq<Resource<seq<Reel>>>)
    requires es != []
    ensures AfterLoadEvents(s, es).isLoading == es[|es| - 1].Loading?
    ensures match LastSuccess(es)
      case Some(data) =>
        AfterLoadEvents(s, es).reels == OrEmpty(data) && AfterLoadEvents(s, es).currentPage == 1
      case None =>
        AfterLoadEvents(s, es).reels == s.reels && AfterLoadEvents(s, es).currentPage == s.currentPage
    ensures AfterLoadEvents(s, es).error == (if LastError(es).Some? then LastError(es) else s.error)
    ensures AfterLoadEvents(s, es).isLoadingMore == s.isLoadingMore
    decreases es
  {
    if |es| > 1 {
      LoadEventsOutcome(OnLoadEvent(s, es[0]), es[1..]);
    }
  }

  /**
   * A `loadMoreReels` flow appends every page it delivers to the list, so the
   * old list stays a prefix; the page counter grows by the number of
   * successes; the guard stays set only if it was set and no terminal
   * notification came; the loading flag and the error are untouched.
   */
  lemma {:induction false} LoadMoreEventsAppend(s: FeedState, es: seq<Resource<seq<Reel>>>)
    ensures AfterLoadMoreEvents(s, es).reels == s.reels + Pages(es)
    ensures AfterLoadMoreEvents(s, es).reels[..|s.reels|] == s.reels
    ensures |AfterLoadMoreEvents(s, es).reels| == |s.reels| + |Pages(es)|
    ensures AfterLoadMoreEvents(s, es).currentPage == s.currentPage + Successes(es)
    ensures AfterLoadMoreEvents(s, es).isLoadingMore ==
      (s.isLoadingMore && forall i :: 0 <= i < |es| ==> es[i].Loading?)
    ensures AfterLoadMoreEvents(s, es).isLoading == s.isLoading
    ensures AfterLoadMoreEvents(s, es).error == s.error
    decreases es
  {
    if es != [] {
      var s1 := OnLoadMoreEvent(s, es[0]);
      LoadMoreEventsAppend(s1, es[1..]);
      assert s1.reels + Pages(es[1..]) == s.reels + Pages(es);
      assert forall i :: 0 < i < |es| ==> es[i] == es[1..][i - 1];
    }
  }

  /** Some reel id occurs at two positions of the list. */
  predicate HasDuplicateIds(reels: seq<Reel>)
  {
    exists i, j :: 0 <= i < j < |reels| && reels[i].id == reels[j].id
  }

  /**
   * "Load more" asks for the same first page again, so when the first page
   * has not changed since the initial load, every reel of it is listed twice.
   */
  lemma LoadMoreRepeatsFirstPage(s: FeedState, page: seq<Reel>)
    requires page != []
    ensures
      var loaded := OnLoadEvent(s, Success(Some(page)));
      var more := StartLoadMore(loaded).state;
      OnLoadMoreEvent(more, Success(Some(page))).reels == page + page &&
      HasDuplicateIds(OnLoadMoreEvent(more, Success(Some(page))).reels)
  {
    var reels := page + page;
    assert reels[0].id == reels[|page|].id;
  }

  /** Toggling the same reel twice restores the list exactly. */
  lemma ToggleLikedTwice(reels: seq<Reel>, reelId: string)
    ensures ToggleLiked(ToggleLiked(reels, reelId), reelId) == reels
  {
  }

  /**
   * Two `toggleLike` intents for a listed reel leave the feed as it was, and
   * the two calls they make are a like and an unlike, in one order or the other.
   */
  lemma LikeThenUnlike(s: FeedState, reelId: string, k: int)
    requires 0 <= k < |s.reels| && s.reels[k].id == reelId
    ensures Run(s, [ToggleLike(reelId), ToggleLike(reelId)]).state == s
    ensures Run(s, [ToggleLike(reelId), ToggleLike(reelId)]).requests
      == [LikeRequest(s.reels, reelId), LikeRequest(ToggleLiked(s.reels, reelId), reelId)]
    ensures LikeRequest(s.reels, reelId).LikeReel? <==> LikeRequest(ToggleLiked(s.reels, reelId), reelId).UnlikeReel?
  {
    RunTwoToggles(s, reelId);
    ToggleLikedTwice(s.reels, reelId);
    assert s.(reels := s.reels) == s;
    ToggleFlipsRequest(s.reels, reelId, k);
  }

  /** Two `toggleLike` steps, spelled out. */
  lemma RunTwoToggles(s: FeedState, reelId: string)
    ensures Run(s, [ToggleLike(reelId), ToggleLike(reelId)]) ==
      Outcome(s.(reels := ToggleLiked(ToggleLiked(s.reels, reelId), reelId)),
              [LikeRequest(s.reels, reelId), LikeRequest(ToggleLiked(s.reels, reelId), reelId)])
  {
    var inputs := [ToggleLike(reelId), ToggleLike(reelId)];
    var toggled := ToggleLiked(s.reels, reelId);
    var first := Step(s, inputs[0]);
    assert first == Outcome(s.(reels := toggled), [LikeRequest(s.reels, reelId)]);
    var second := Step(first.state, inputs[1]);
    assert second == Outcome(s.(reels := ToggleLiked(toggled, reelId)), [LikeRequest(toggled, reelId)]);
    assert inputs[1..][1..] == [];
    assert Run(first.state, inputs[1..]) == Outcome(second.state, second.requests + []);
  }

  /** After the local update of a listed reel, the next `toggleLike` makes the opposite call. */
  lemma ToggleFlipsRequest(reels: seq<Reel>, reelId: string, k: int)
    requires 0 <= k < |reels| && reels[k].id == reelId
    ensures LikeRequest(reels, reelId).LikeReel? <==> LikeRequest(ToggleLiked(reels, reelId), reelId).UnlikeReel?
  {
    var found := Find(reels, (r: Reel) => r.id == reelId);
    var i :| 0 <= i < |reels| && reels[i] == found.value && reels[i].id == reelId &&
      forall j :: 0 <= j < i ==> reels[j].id != reelId;
    var t := ToggleLiked(reels, reelId);
    assert forall j :: 0 <= j < |t| ==> t[j].id == reels[j].id;
    assert forall i' :: IsFirstWithId(reels, reelId, i') ==> i' == i;
    assert forall i' :: IsFirstWithId(t, reelId, i') ==> i' == i;
    assert IsFirstWithId(t, reelId, i);
  }

  /** 1 while a "load more" is pending, 0 otherwise. */
  function Pending(s: FeedState): nat
  {
    if s.isLoadingMore then 1 else 0
  }

  /** How many "load more" intents of a run were let through by the guard and made a request. */
  function LoadMoreRequests(s: FeedState, inputs: seq<FeedInput>): nat
    decreases inputs
  {
    if inputs == [] then 0
    else
      (if inputs[0].LoadMoreReels? && !s.isLoadingMore then 1 else 0)
      + LoadMoreRequests(Step(s, inputs[0]).state, inputs[1..])
  }

  /** How many terminal notifications a run delivers to the "load more" collector. */
  function LoadMoreSettled(inputs: seq<FeedInput>): nat
  {
    if inputs == [] then 0
    else
      (if inputs[0].LoadMoreEvent? && !inputs[0].r.Loading? then 1 else 0)
      + LoadMoreSettled(inputs[1..])
  }

  /**
   * The reentrancy guard: in any run, a new "load more" request is issued
   * only after the previous one's flow delivered a `Success` or an `Error`,
   * so requests never outnumber settlements by more than the one pending.
   */
  lemma {:induction false} GuardSerialisesLoadMore(s: FeedState, inputs: seq<FeedInput>)
    ensures LoadMoreRequests(s, inputs) + Pending(s) <= LoadMoreSettled(inputs) + Pending(Run(s, inputs).state)
    decreases inputs
  {
    if inputs != [] {
      GuardSerialisesLoadMore(Step(s, inputs[0]).state, inputs[1..]);
    }
  }

  /** Once an error is shown it is never cleared: later steps can only replace the message. */
  lemma {:induction false} ErrorIsNeverCleared(s: FeedState, inputs: seq<FeedInput>)
    requires s.error.Some?
    ensures Run(s, inputs).state.error.Some?
    decreases inputs
  {
    if inputs != [] {
      ErrorIsNeverCleared(Step(s, inputs[0]).state, inputs[1..]);
    }
  }

  /**
   * Every call of a run is a first-page query for 20 reels, a like or unlike
   * of a reel the run was asked to toggle, or a view count.
   */
  lemma {:induction false} RunRequests(s: FeedState, inputs: seq<FeedInput>)
    ensures forall q :: q in Run(s, inputs).requests ==>
      || q == FirstPage
      || ((q.LikeReel? || q.UnlikeReel?) && ToggleLike(q.reelId) in inputs)
      || q.IncrementViews?
    decreases inputs
  {
    if inputs != [] {
      RunRequests(Step(s, inputs[0]).state, inputs[1..]);
      assert forall x :: x in inputs[1..] ==> x in inputs;
    }
  }

  /** The source of reels: the calls made on it are recorded, in order. */
  class ReelRepository {
    ghost var log: seq<ReelRequest>

    constructor ()
      ensures log == []
    {
      log := [];
    }

    method Issue(q: ReelRequest)
      modifies this
      ensures log == old(log) + [q]
    {
      log := log + [q];
    }
  }

  class ReelsViewModel {
    const repository: ReelRepository
    var reels: seq<Reel>
    var isLoading: bool
    var error: Option<string>
    var currentPage: int
    var isLoadingMore: bool

    function State(): FeedState
      reads this
    {
      FeedState(reels, isLoading, error, currentPage, isLoadingMore)
    }

    constructor (repository: ReelRepository)
      ensures this.repository == repository
      ensures State() == InitialFeed
    {
      this.repository := repository;
      reels, isLoading, error, currentPage, isLoadingMore := [], false, None, 0, false;
    }

    /** Raises the loading flag and subscribes to the first page. */
    method LoadReels()
      modifies this, repository
      ensures State() == Step(old(State()), FeedInput.LoadReels).state
      ensures repository.log == old(repository.log) + Step(old(State()), FeedInput.LoadReels).requests
    {
      isLoading := true;
      repository.Issue(FirstPage);
    }

    /** One notification of the `loadReels` flow. */
    method OnLoadReelsEvent(r: Resource<seq<Reel>>)
      modifies this
      ensures State() == Step(old(State()), LoadEvent(r)).state
    {
      match r
      case Success(data) =>
        reels := OrEmpty(data);
        isLoading := false;
        currentPage := 1;
      case Error(message) =>
        error := Some(message);
        isLoading := false;
      case Loading =>
        isLoading := true;
    }

    /** Asks for another page unless one is already pending. */
    method LoadMoreReels()
      modifies this, repository
      ensures State() == Step(old(State()), FeedInput.LoadMoreReels).state
      ensures repository.log == old(repository.log) + Step(old(State()), FeedInput.LoadMoreReels).requests
    {
      if isLoadingMore {
        return;
      }
      isLoadingMore := true;
      repository.Issue(FirstPage);
    }

    /** One notification of the `loadMoreReels` flow. */
    method OnLoadMoreReelsEvent(r: Resource<seq<Reel>>)
      modifies this
      ensures State() == Step(old(State()), LoadMoreEvent(r)).state
    {
      match r
      case Success(data) =>
        var current := reels;
        if data.Some? {
          current := current + data.value;
          reels := current;
        }
        isLoadingMore := false;
        currentPage := currentPage + 1;
      case Error(_) =>
        isLoadingMore := false;
      case Loading =>
    }

    /** Likes or unlikes on the repository, then updates the list optimistically. */
    method ToggleLike(reelId: string)
      modifies this, repository
      ensures State() == Step(old(State()), FeedInput.ToggleLike(reelId)).state
      ensures repository.log == old(repository.log) + Step(old(State()), FeedInput.ToggleLike(reelId)).requests
    {
      var reel := Find(reels, (r: Reel) => r.id == reelId);
      if reel.Some? && reel.value.isLikedByCurrentUser {
        repository.Issue(UnlikeReel(reelId));
      } else {
        repository.Issue(LikeReel(reelId));
      }
      reels := ToggleLiked(reels, reelId);
    }

    /** Counts a view of the reel at `position`, if there is one. */
    method OnReelViewed(position: int)
      modifies repository
      ensures repository.log == old(repository.log) + Step(State(), ReelViewed(position)).requests
    {
      var reel := GetOrNull(reels, position);
      if reel.Some? {
        repository.Issue(IncrementViews(reel.value.id));
      }
    }
  }
}
