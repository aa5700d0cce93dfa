/**
 * The homeowner's dashboard: the greeting's first name and the
 * loading / error / projects state of its project fetch.
 */
module HomeownerDashboard {
  import opened Wrappers
  import opened Text
  import opened Records

  /** `user.first_name` when it is truthy. */
  predicate HasFirstName(u: User) {
    u.firstName.Some? && u.firstName.value != ""
  }

  /** `user.name?.split(' ')[0]` is truthy: the name is present and does not start with a space. */
  predicate HasLeadingWord(u: User) {
    u.name.Some? && u.name.value != "" && u.name.value[0] != ' '
  }

  /**
   * `firstName`: the first of `first_name`, the name's first word and the
   * e-mail's local part that is non-empty (the last one whatever it is).
   */
  function FirstName(u: User): (r: string)
    ensures HasFirstName(u) ==> r == u.firstName.value
    ensures !HasFirstName(u) && HasLeadingWord(u) ==>
      && r != "" && r <= u.name.value && ' ' !in r
      && (|r| == |u.name.value| || u.name.value[|r|] == ' ')
    ensures !HasFirstName(u) && !HasLeadingWord(u) ==>
      && r <= u.email && '@' !in r
      && (|r| == |u.email| || u.email[|r|] == '@')
  {
    if u.firstName.Some? && u.firstName.value != "" then u.firstName.value
    else
      var word := match u.name case Some(n) => Before(n, ' ') case None => "";
      if word != "" then word else Before(u.email, '@')
  }

  /** The greeting is empty only when every source is: the e-mail then starts with `@` or is empty. */
  lemma FirstNameEmpty(u: User)
    ensures FirstName(u) == "" <==>
      !HasFirstName(u) && !HasLeadingWord(u) && (u.email == "" || u.email[0] == '@')
  {
    if !HasFirstName(u) && !HasLeadingWord(u) && u.email != "" && u.email[0] != '@' {
      assert FirstName(u)[0] == u.email[0];
    }
  }

  const LoadFailedMessage := "Failed to load projects. Please try again later."

  class DashboardState {
    const user: User
    var projects: seq<Project>
    var loading: bool
    var error: Option<string>
    var requests: seq<string>  // the homeowner identifiers asked for, in order

    constructor (user: User)
      ensures this.user == user && projects == [] && loading && error == None && requests == []
    {
      this.user := user;
      projects := [];
      loading := true;
      error := None;
      requests := [];
    }

    /**
     * `fetchProjects`, with `fetched` standing for what
     * `getHomeownerProjects(user.id)` returns or throws.
     */
    method FetchProjects(fetched: Result<seq<Project>, string>)
      modifies this
      ensures requests == old(requests) + [user.id]
      ensures !loading
      ensures fetched.Ok? ==> projects == fetched.value && error == None
      ensures fetched.Err? ==> projects == old(projects) && error == Some(LoadFailedMessage)
    {
      loading := true;
      requests := requests + [user.id];
      match fetched {
        case Ok(userProjects) =>
          projects := userProjects;
          error := None;
        case Err(_) =>
          error := Some(LoadFailedMessage);
      }
      loading := false;
    }
  }
}
