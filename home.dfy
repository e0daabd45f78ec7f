/**
 * The home screen's state holder (presentation/home/HomeViewModel.kt).
 *
 * It keeps a list of featured companies, the main company list, a loading
 * flag driven by the main list only, the last error message and the
 * category the main list is filtered on. As for the feed, every intent and
 * every notification is one `Step`; the class `HomeViewModel` performs the
 * steps on its fields and records each call it makes on its repository.
 */
module HomeScreen {
  import opened Resources

  /** domain/model/Company.kt: the industry a company list may be filtered on. */
  datatype IndustryCategory =
    | Technology | Fintech | Healthcare | Education | Ecommerce | FoodBeverage
    | Fashion | RealEstate | Automotive | Manufacturing | Entertainment | Marketing
    | Consulting | Energy | Agriculture | Logistics | Sports | Travel | Other

  /** The one field of a company the home screen reads. */
  datatype Company = Company(id: string)

  /** A call the home screen could make on its company repository. */
  datatype CompanyRequest =
    | GetCompanies(category: Option<IndustryCategory>, isFeatured: Option<bool>, limit: int)
    | FollowCompany(companyId: string)
    | UnfollowCompany(companyId: string)

  /** The repository's default page size, used by the main list. */
  const DefaultLimit: int := 20
  /** The featured strip asks for at most ten featured companies. */
  const FeaturedLimit: int := 10

  const FeaturedRequest: CompanyRequest := GetCompanies(None, Some(true), FeaturedLimit)

  /** The main list's query: the given category (null is every category), any featured flag. */
  function CompaniesRequest(category: Option<IndustryCategory>): CompanyRequest
  {
    GetCompanies(category, None, DefaultLimit)
  }

  /** The observable state of the home screen, field for field. */
  datatype HomeState = HomeState(
    featuredCompanies: seq<Company>,
    companies: seq<Company>,
    isLoading: bool,
    error: Option<string>,
    currentCategory: Option<IndustryCategory>)

  const InitialHome: HomeState := HomeState([], [], false, None, None)

  /** What one step does: the new state and the repository calls it made, in order. */
  datatype Outcome = Outcome(state: HomeState, requests: seq<CompanyRequest>)

  /** The collector of `loadFeaturedCompanies`: it never touches the loading flag or the main list. */
  function OnFeaturedEvent(s: HomeState, r: Resource<seq<Company>>): (t: HomeState)
    ensures t.featuredCompanies == (if r.Success? then OrEmpty(r.data) else s.featuredCompanies)
    ensures t.error == (if r.Error? then Some(r.message) else s.error)
    ensures t.companies == s.companies && t.isLoading == s.isLoading
    ensures t.currentCategory == s.currentCategory
  {
    match r
    case Success(data) => s.(featuredCompanies := OrEmpty(data))
    case Error(message) => s.(error := Some(message))
    case Loading => s
  }

  /** The collector of `loadCompanies`: the only one that drives the loading flag. */
  function OnCompaniesEvent(s: HomeState, r: Resource<seq<Company>>): (t: HomeState)
    ensures t.isLoading <==> r.Loading?
    ensures t.companies == (if r.Success? then OrEmpty(r.data) else s.companies)
    ensures t.error == (if r.Error? then Some(r.message) else s.error)
    ensures t.featuredCompanies == s.featuredCompanies
    ensures t.currentCategory == s.currentCategory
  {
    match r
    case Success(data) => s.(companies := OrEmpty(data), isLoading := false)
    case Error(message) => s.(error := Some(message), isLoading := false)
    case Loading => s.(isLoading := true)
  }

  /** `loadCompanies`: raise the loading flag and query the current category. */
  function StartCompaniesLoad(s: HomeState): (o: Outcome)
    ensures o.state == s.(isLoading := true)
    ensures o.requests == [GetCompanies(s.currentCategory, None, 20)]
  {
    Outcome(s.(isLoading := true), [CompaniesRequest(s.currentCategory)])
  }

  /** `filterByCategory`: remember the category (null is every category), then reload the main list with it. */
  function FilterCompanies(s: HomeState, category: Option<IndustryCategory>): (o: Outcome)
    ensures o.state.currentCategory == category && o.state.isLoading
    ensures o.requests == [GetCompanies(category, None, 20)]
    ensures o.state.featuredCompanies == s.featuredCompanies && o.state.companies == s.companies
    ensures o.state.error == s.error
  {
    StartCompaniesLoad(s.(currentCategory := category))
  }

  /** `refreshData`: query the featured strip, then the main list. */
  function Refresh(s: HomeState): (o: Outcome)
    ensures o.requests == [GetCompanies(None, Some(true), 10), GetCompanies(s.currentCategory, None, 20)]
    ensures o.state == s.(isLoading := true)
  {
    var featured := Outcome(s, [FeaturedRequest]);
    var main := StartCompaniesLoad(featured.state);
    Outcome(main.state, featured.requests + main.requests)
  }

  /**
   * The repository calls of `toggleFollow`: a follow, never an unfollow, and
   * only for a company of the main list.
   */
  function FollowRequests(companies: seq<Company>, companyId: string): (qs: seq<CompanyRequest>)
    ensures qs != [] <==> exists i :: 0 <= i < |companies| && companies[i].id == companyId
    ensures qs != [] ==> qs == [FollowCompany(companyId)]
  {
    var company := Find(companies, (c: Company) => c.id == companyId);
    if company.Some? then [FollowCompany(companyId)] else []
  }

  /** The collector of the follow call: a success refreshes both lists, an error is shown. */
  function OnFollowEvent(s: HomeState, r: Resource<()>): (o: Outcome)
    ensures r.Success? ==> o == Refresh(s)
    ensures r.Error? ==> o == Outcome(s.(error := Some(r.message)), [])
    ensures r.Loading? ==> o == Outcome(s, [])
  {
    match r
    case Success(_) => Refresh(s)
    case Error(message) => Outcome(s.(error := Some(message)), [])
    case Loading => Outcome(s, [])
  }

  /** Everything that can happen to the home screen: the screen's intents and the flows' notifications. */
  datatype HomeInput =
    | LoadFeaturedCompanies
    | LoadCompanies
    | FilterByCategory(category: Option<IndustryCategory>)
    | RefreshData
    | ToggleFollow(companyId: string)
    | FeaturedEvent(r: Resource<seq<Company>>)
    | CompaniesEvent(r: Resource<seq<Company>>)
    | FollowEvent(f: Resource<()>)

  function Step(s: HomeState, input: HomeInput): Outcome
  {
    match input
    case LoadFeaturedCompanies => Outcome(s, [FeaturedRequest])
    case LoadCompanies => StartCompaniesLoad(s)
    case FilterByCategory(category) => FilterCompanies(s, category)
    case RefreshData => Refresh(s)
    case ToggleFollow(companyId) => Outcome(s, FollowRequests(s.companies, companyId))
    case FeaturedEvent(r) => Outcome(OnFeaturedEvent(s, r), [])
    case CompaniesEvent(r) => Outcome(OnCompaniesEvent(s, r), [])
    case FollowEvent(f) => OnFollowEvent(s, f)
  }

  /** The steps of `inputs` one after the other, with all the calls they made. */
  function Run(s: HomeState, inputs: seq<HomeInput>): Outcome
    decreases inputs
  {
    if inputs == [] then Outcome(s, [])
    else
      var first := Step(s, inputs[0]);
      var rest := Run(first.state, inputs[1..]);
      Outcome(rest.state, first.requests + rest.requests)
  }

  /** The state after the notifications of one `loadCompanies` flow. */
  function AfterCompaniesEvents(s: HomeState, es: seq<Resource<seq<Company>>>): HomeState
    decreases es
  {
    if es == [] then s else AfterCompaniesEvents(OnCompaniesEvent(s, es[0]), es[1..])
  }

  /** The state after the notifications of one `loadFeaturedCompanies` flow. */
  function AfterFeaturedEvents(s: HomeState, es: seq<Resource<seq<Company>>>): HomeState
    decreases es
  {
    if es == [] then s else AfterFeaturedEvents(OnFeaturedEvent(s, es[0]), es[1..])
  }

  /**
   * A `loadCompanies` flow leaves the screen loading exactly when its last
   * notification is `Loading`; the main list is the one the last `Success`
   * carried (empty for null), or untouched; the error is the last `Error`'s
   * message, or untouched; the featured strip is never touched.
   */
  lemma {:induction false} CompaniesEventsOutcome(s: HomeState, es: seq<Resource<seq<Company>>>)
    requires es != []
    ensures AfterCompaniesEvents(s, es).isLoading == es[|es| - 1].Loading?
    ensures AfterCompaniesEvents(s, es).companies ==
      (match LastSuccess(es) case Some(data) => OrEmpty(data) case None => s.companies)
    ensures AfterCompaniesEvents(s, es).error == (if LastError(es).Some? then LastError(es) else s.error)
    ensures AfterCompaniesEvents(s, es).featuredCompanies == s.featuredCompanies
    decreases es
  {
    if |es| > 1 {
      CompaniesEventsOutcome(OnCompaniesEvent(s, es[0]), es[1..]);
    }
  }

  /**
   * A `loadFeaturedCompanies` flow sets the featured strip to the last
   * `Success`'s list (empty for null), or leaves it; it never touches the
   * loading flag or the main list.
   */
  lemma {:induction false} FeaturedEventsOutcome(s: HomeState, es: seq<Resource<seq<Company>>>)
    ensures AfterFeaturedEvents(s, es).featuredCompanies ==
      (match LastSuccess(es) case Some(data) => OrEmpty(data) case None => s.featuredCompanies)
    ensures AfterFeaturedEvents(s, es).error == (if LastError(es).Some? then LastError(es) else s.error)
    ensures AfterFeaturedEvents(s, es).isLoading == s.isLoading
    ensures AfterFeaturedEvents(s, es).companies == s.companies
    decreases es
  {
    if es != [] {
      FeaturedEventsOutcome(OnFeaturedEvent(s, es[0]), es[1..]);
    }
  }

  /** The input is a notification whose flow failed with message `m`. */
  predicate Reports(input: HomeInput, m: string)
  {
    match input
    case FeaturedEvent(r) => r == Error(m)
    case CompaniesEvent(r) => r == Error(m)
    case FollowEvent(f) => f == Error(m)
    case _ => false
  }

  /**
   * The error is never reset to null: after any run it is the one before,
   * or the message of a failed flow of the run.
   */
  lemma {:induction false} ErrorIsOnlyOverwritten(s: HomeState, inputs: seq<HomeInput>)
    ensures s.error.Some? ==> Run(s, inputs).state.error.Some?
    ensures Run(s, inputs).state.error == s.error ||
      (Run(s, inputs).state.error.Some? &&
        exists i :: 0 <= i < |inputs| && Reports(inputs[i], Run(s, inputs).state.error.value))
    decreases inputs
  {
    if inputs != [] {
      ErrorIsOnlyOverwritten(Step(s, inputs[0]).state, inputs[1..]);
      var t := Run(s, inputs).state;
      if t.error != Step(s, inputs[0]).state.error {
        var i :| 0 <= i < |inputs[1..]| && Reports(inputs[1..][i], t.error.value);
        assert inputs[1..][i] == inputs[i + 1];
      } else if t.error != s.error {
        assert Reports(inputs[0], t.error.value);
      }
    }
  }

  /**
   * Every call of a run is the featured query, a main-list query for 20
   * companies, or a follow of a company the run asked to toggle: the home
   * screen never unfollows.
   */
  lemma {:induction false} RunNeverUnfollows(s: HomeState, inputs: seq<HomeInput>)
    ensures forall q :: q in Run(s, inputs).requests ==>
      || q == FeaturedRequest
      || (q.GetCompanies? && q.isFeatured.None? && q.limit == DefaultLimit)
      || (q.FollowCompany? && ToggleFollow(q.companyId) in inputs)
    ensures forall q :: q in Run(s, inputs).requests ==> !q.UnfollowCompany?
    decreases inputs
  {
    if inputs != [] {
      RunNeverUnfollows(Step(s, inputs[0]).state, inputs[1..]);
      assert forall x :: x in inputs[1..] ==> x in inputs;
    }
  }

  /**
   * Until the next `filterByCategory`, the category stays as it is and every
   * main-list query of a run carries it.
   */
  lemma {:induction false} CategoryStaysUntilFiltered(s: HomeState, inputs: seq<HomeInput>)
    requires forall i :: 0 <= i < |inputs| ==> !inputs[i].FilterByCategory?
    ensures Run(s, inputs).state.currentCategory == s.currentCategory
    ensures forall q :: q in Run(s, inputs).requests && q.GetCompanies? && q.isFeatured.None? ==>
      q.category == s.currentCategory
    decreases inputs
  {
    if inputs != [] {
      assert forall i :: 0 < i < |inputs| ==> inputs[i] == inputs[1..][i - 1];
      CategoryStaysUntilFiltered(Step(s, inputs[0]).state, inputs[1..]);
    }
  }

  /** The source of companies: the calls made on it are recorded, in order. */
  class CompanyRepository {
    ghost var log: seq<CompanyRequest>

    constructor ()
      ensures log == []
    {
      log := [];
    }

    method Issue(q: CompanyRequest)
      modifies this
      ensures log == old(log) + [q]
    {
      log := log + [q];
    }
  }

  class HomeViewModel {
    const repository: CompanyRepository
    var featuredCompanies: seq<Company>
    var companies: seq<Company>
    var isLoading: bool
    var error: Option<string>
    var currentCategory: Option<IndustryCategory>

    function State(): HomeState
      reads this
    {
      HomeState(featuredCompanies, companies, isLoading, error, currentCategory)
    }

    constructor (repository: CompanyRepository)
      ensures this.repository == repository
      ensures State() == InitialHome
    {
      this.repository := repository;
      featuredCompanies, companies, isLoading, error, currentCategory := [], [], false, None, None;
    }

    /** Subscribes to the featured companies. */
    method LoadFeaturedCompanies()
      modifies repository
      ensures State() == Step(old(State()), HomeInput.LoadFeaturedCompanies).state
      ensures repository.log == old(repository.log) + Step(old(State()), HomeInput.LoadFeaturedCompanies).requests
    {
      repository.Issue(FeaturedRequest);
    }

    /** One notification of the `loadFeaturedCompanies` flow. */
    method OnFeaturedCompaniesEvent(r: Resource<seq<Company>>)
      modifies this
      ensures State() == Step(old(State()), FeaturedEvent(r)).state
    {
      match r
      case Success(data) => featuredCompanies := OrEmpty(data);
      case Error(message) => error := Some(message);
      case Loading =>
    }

    /** Raises the loading flag and subscribes to the companies of the current category. */
    method LoadCompanies()
      modifies this, repository
      ensures State() == Step(old(State()), HomeInput.LoadCompanies).state
      ensures repository.log == old(repository.log) + Step(old(State()), HomeInput.LoadCompanies).requests
    {
      isLoading := true;
      repository.Issue(CompaniesRequest(currentCategory));
    }

    /** One notification of the `loadCompanies` flow. */
    method OnCompaniesEvent(r: Resource<seq<Company>>)
      modifies this
      ensures State() == Step(old(State()), CompaniesEvent(r)).state
    {
      match r
      case Success(data) =>
        companies := OrEmpty(data);
        isLoading := false;
      case Error(message) =>
        error := Some(message);
        isLoading := false;
      case Loading =>
        isLoading := true;
    }

    method FilterByCategory(category: Option<IndustryCategory>)
      modifies this, repository
      ensures State() == Step(old(State()), HomeInput.FilterByCategory(category)).state
      ensures repository.log == old(repository.log) + Step(old(State()), HomeInput.FilterByCategory(category)).requests
    {
      currentCategory := category;
      LoadCompanies();
    }

    method RefreshData()
      modifies this, repository
      ensures State() == Step(old(State()), HomeInput.RefreshData).state
      ensures repository.log == old(repository.log) + Step(old(State()), HomeInput.RefreshData).requests
    {
      LoadFeaturedCompanies();
      LoadCompanies();
    }

    /** Follows the company if it is in the main list; the outcome arrives through `OnFollowEvent`. */
    method ToggleFollow(companyId: string)
      modifies repository
      ensures State() == Step(old(State()), HomeInput.ToggleFollow(companyId)).state
      ensures repository.log == old(repository.log) + Step(old(State()), HomeInput.ToggleFollow(companyId)).requests
    {
      var company := Find(companies, (c: Company) => c.id == companyId);
      if company.Some? {
        repository.Issue(FollowCompany(companyId));
      }
    }

    /** One notification of the follow call. */
    method OnFollowEvent(f: Resource<()>)
      modifies this, repository
      ensures State() == Step(old(State()), FollowEvent(f)).state
      ensures repository.log == old(repository.log) + Step(old(State()), FollowEvent(f)).requests
    {
      match f
      case Success(_) => RefreshData();
      case Error(message) => error := Some(message);
      case Loading =>
    }
  }
}
