/**
 * The homeowner table: search by name or e-mail, the per-homeowner project
 * count, the builder-scoped project list, and the replacement of an edited user.
 */
module HomeownerTable {
  import opened Wrappers
  import opened Seqs
  import opened Text
  import opened Records

  /** Whether the search query occurs, case-folded, in the homeowner's name or e-mail. */
  predicate Matches(h: User, query: string) {
    match h.name
    case Some(name) => Includes(Lower(name), Lower(query)) || Includes(Lower(h.email), Lower(query))
    case None => false  // not reached: FilteredHomeowners fails first
  }

  predicate AllNamed(hs: seq<User>) {
    forall i :: 0 <= i < |hs| ==> hs[i].name.Some?
  }

  /**
   * `filteredHomeowners`. The search reads every homeowner's name, so one
   * without a name makes it fail (`None`) instead of answering.
   */
  function FilteredHomeowners(hs: seq<User>, query: string): (r: Option<seq<User>>)
    ensures r.Some? <==> AllNamed(hs)
    ensures r.Some? ==> IsSubsequence(r.value, hs)
    ensures r.Some? ==> forall h :: h in r.value <==> h in hs && Matches(h, query)
    ensures r.Some? ==> forall h :: multiset(r.value)[h] == if Matches(h, query) then multiset(hs)[h] else 0
  {
    if !AllNamed(hs) then None
    else
      var keep := (h: User) => Matches(h, query);
      FilterIsSubsequence(hs, keep);
      FilterMembership(hs, keep);
      FilterMultiplicity(hs, keep);
      Some(Filter(hs, keep))
  }

  /** The query is lower-cased before matching, so its case makes no difference. */
  lemma QueryCaseIgnored(hs: seq<User>, query: string)
    ensures FilteredHomeowners(hs, Lower(query)) == FilteredHomeowners(hs, query)
  {
    LowerIdempotent(query);
    FilterSameValues(hs, (h: User) => Matches(h, Lower(query)), (h: User) => Matches(h, query));
  }

  /** An empty query keeps every homeowner. */
  lemma EmptyQueryKeepsAll(hs: seq<User>)
    requires AllNamed(hs)
    ensures FilteredHomeowners(hs, "") == Some(hs)
  {
    FilterKeepsAll(hs, (h: User) => Matches(h, ""));
  }

  /** "jane" finds "Jane Doe" by name. */
  lemma SearchFindsByName()
    ensures Matches(User("1", "jd@x.com", Some("Jane Doe"), None, "homeowner"), "jane")
  {
    LowerKeepsLowerCase("jane");
    assert Lower("Jane Doe") == "jane doe";
    assert Includes("jane doe", "jane");
  }

  /** "jane" finds "jane@x.com" by e-mail. */
  lemma SearchFindsByEmail()
    ensures Matches(User("2", "jane@x.com", Some("J. D."), None, "homeowner"), "jane")
  {
    LowerKeepsLowerCase("jane");
    LowerKeepsLowerCase("jane@x.com");
    assert Includes("jane@x.com", "jane");
  }

  /**
   * A query holding a letter (in either case) that occurs in neither the name
   * nor the e-mail, in either case, finds nothing.
   */
  lemma MissingLetterNoMatch(h: User, query: string, c: char)
    requires h.name.Some? && 'a' <= c <= 'z' && c in Lower(query)
    requires c !in h.name.value && (c as int - 32) as char !in h.name.value
    requires c !in h.email && (c as int - 32) as char !in h.email
    ensures !Matches(h, query)
  {
    LowerAvoids(h.name.value, c);
    LowerAvoids(h.email, c);
    if Includes(Lower(h.name.value), Lower(query)) {
      IncludedCharsOccur(Lower(h.name.value), Lower(query));
    }
    if Includes(Lower(h.email), Lower(query)) {
      IncludedCharsOccur(Lower(h.email), Lower(query));
    }
  }

  /** The homeowner identifiers of the projects, in order. */
  function HomeownerIds(projects: seq<Project>): seq<string> {
    if projects == [] then [] else [projects[0].homeownerId] + HomeownerIds(projects[1..])
  }

  /** The number of projects filtered by homeowner equals the multiplicity of the identifier. */
  lemma {:induction false} CountIsMultiplicity(projects: seq<Project>, homeownerId: string)
    ensures |Filter(projects, (p: Project) => p.homeownerId == homeownerId)|
         == multiset(HomeownerIds(projects))[homeownerId]
  {
    if projects != [] {
      CountIsMultiplicity(projects[1..], homeownerId);
      assert HomeownerIds(projects) == [projects[0].homeownerId] + HomeownerIds(projects[1..]);
    }
  }

  /** `getHomeownerProjectCount`: how many projects belong to the homeowner. */
  function ProjectCount(projects: seq<Project>, homeownerId: string): (n: nat)
    ensures n <= |projects|
    ensures n == multiset(HomeownerIds(projects))[homeownerId]
  {
    CountIsMultiplicity(projects, homeownerId);
    |Filter(projects, (p: Project) => p.homeownerId == homeownerId)|
  }

  /** The projects the table keeps for the signed-in user: a builder sees only their own. */
  function ScopedProjects(user: Option<User>, all: seq<Project>): (r: seq<Project>)
    ensures IsSubsequence(r, all)
    ensures user.Some? && user.value.role == "builder" ==>
      forall p :: p in r <==> p in all && p.builderId == Some(user.value.id)
    ensures user.Some? && user.value.role == "builder" ==>
      forall p :: multiset(r)[p] == if p.builderId == Some(user.value.id) then multiset(all)[p] else 0
    ensures !(user.Some? && user.value.role == "builder") ==> r == all
  {
    if user.Some? && user.value.role == "builder" then
      var own := (p: Project) => p.builderId == Some(user.value.id);
      FilterIsSubsequence(all, own);
      FilterMembership(all, own);
      FilterMultiplicity(all, own);
      Filter(all, own)
    else
      SubsequenceReflexive(all);
      all
  }

  /** `handleUserUpdated`: every entry with the edited user's identifier becomes the edited user. */
  function ReplaceById(hs: seq<User>, updated: User): (r: seq<User>)
    ensures |r| == |hs|
    ensures forall i :: 0 <= i < |hs| && hs[i].id == updated.id ==> r[i] == updated
    ensures forall i :: 0 <= i < |hs| && hs[i].id != updated.id ==> r[i] == hs[i]
  {
    if hs == [] then []
    else [if hs[0].id == updated.id then updated else hs[0]] + ReplaceById(hs[1..], updated)
  }

  /** Replacing a user no entry has leaves the list as it was. */
  lemma ReplaceAbsentIsIdentity(hs: seq<User>, updated: User)
    requires forall i :: 0 <= i < |hs| ==> hs[i].id != updated.id
    ensures ReplaceById(hs, updated) == hs
  {
  }

  /** Replacing twice is replacing once. */
  lemma ReplaceIdempotent(hs: seq<User>, updated: User)
    ensures ReplaceById(ReplaceById(hs, updated), updated) == ReplaceById(hs, updated)
  {
  }

  class TableState {
    var searchQuery: string
    var projects: seq<Project>
    var loading: bool
    var homeowners: seq<User>

    constructor (initialHomeowners: seq<User>)
      ensures searchQuery == "" && projects == [] && loading && homeowners == initialHomeowners
    {
      searchQuery := "";
      projects := [];
      loading := true;
      homeowners := initialHomeowners;
    }

    /**
     * `fetchProjects`, with `fetched` standing for what `getProjects` returns
     * or throws. On failure the project list is left as it was.
     */
    method FetchProjects(user: Option<User>, fetched: Result<seq<Project>, string>)
      modifies this
      ensures fetched.Ok? ==> projects == ScopedProjects(user, fetched.value)
      ensures fetched.Err? ==> projects == old(projects)
      ensures !loading
      ensures searchQuery == old(searchQuery) && homeowners == old(homeowners)
    {
      match fetched {
        case Ok(all) => projects := ScopedProjects(user, all);
        case Err(_) =>
      }
      loading := false;
    }

    method HandleUserUpdated(updated: User)
      modifies this
      ensures homeowners == ReplaceById(old(homeowners), updated)
      ensures searchQuery == old(searchQuery) && projects == old(projects) && loading == old(loading)
    {
      homeowners := ReplaceById(homeowners, updated);
    }
  }
}
