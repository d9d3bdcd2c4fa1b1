/** The agent factory: one agent per supported platform, created on first request (after its
    browser launches) and reused afterwards; `close_all` closes every agent, whatever closing
    any one of them does, and forgets them all. */
module Registry {
  import opened Wrappers
  import Text
  import opened Session
  import opened Agents

  datatype FactoryError =
    | Unsupported(message: string)   // `ValueError` for a name no agent serves
    | LaunchFailed                   // the new agent's browser did not launch; nothing is cached

  const Supported: set<string> := {"amazon", "flipkart", "aliexpress"}

  class AgentFactory {
    /** The cached agents, keyed by lower-cased platform name. */
    var instances: map<string, Agent>
    /** How many agents this factory has constructed. */
    ghost var constructed: nat

    /** Only supported names are cached, each with an agent of that platform whose browser
        launched and has not been closed: an agent enters the cache only once `initialize`
        returns, and leaves it only when `close_all` empties the cache. */
    ghost predicate Valid()
      reads this, instances.Values
    {
      && instances.Keys <= Supported
      && (forall k :: k in instances ==> Name(instances[k].platform) == k)
      && (forall k :: k in instances ==> instances[k].launched && !instances[k].closed)
    }

    constructor ()
      ensures Valid() && instances == map[] && constructed == 0
    {
      instances := map[];
      constructed := 0;
    }

    /** `get_agent`: lower-cases the name, returns the cached agent if there is one, and
        otherwise creates, launches and caches a new one. */
    method GetAgent(name: string, launchOk: bool) returns (r: Result<Agent, FactoryError>)
      requires Valid()
      modifies this
      ensures Valid()
      ensures r.Success? ==> r.value.launched && !r.value.closed
      ensures var key := Text.Lower(name);
        && (key in old(instances) ==>
              r == Success(old(instances)[key]) && instances == old(instances) && constructed == old(constructed))
        && (key !in old(instances) && key !in Supported ==>
              r == Failure(Unsupported("Unsupported platform: " + key))
              && instances == old(instances) && constructed == old(constructed))
        && (key !in old(instances) && key in Supported ==> constructed == old(constructed) + 1)
        && (key !in old(instances) && key in Supported && !launchOk ==>
              r == Failure(LaunchFailed) && instances == old(instances))
        && (key !in old(instances) && key in Supported && launchOk ==>
              && r.Success? && fresh(r.value) && Name(r.value.platform) == key && r.value.launched
              && !r.value.closed && !r.value.loggedIn && instances == old(instances)[key := r.value])
    {
      var key := Text.Lower(name);
      if key in instances {
        return Success(instances[key]);
      }
      var platform := FromName(key);
      if platform.None? {
        return Failure(Unsupported("Unsupported platform: " + key));
      }
      var agent := new Agent(platform.value);
      constructed := constructed + 1;
      var ok := agent.Initialize(launchOk);
      if !ok {
        return Failure(LaunchFailed);
      }
      instances := instances[key := agent];
      r := Success(agent);
    }

    /** `close_all`: closes each cached agent, carrying on past agents whose close raises
        (those in `failing`), then empties the cache. */
    method CloseAll(failing: set<Agent>)
      requires Valid()
      modifies this, instances.Values
      ensures Valid() && instances == map[] && constructed == old(constructed)
      ensures forall a :: a in old(instances).Values ==>
        && a.closed == (old(a.closed) || (a.launched && a !in failing))
        && a.launched == old(a.launched) && a.loggedIn == old(a.loggedIn)
      ensures forall a :: a in old(instances).Values ==> (a.closed <==> a !in failing)
    {
      var pending := instances.Values;
      ghost var all := pending;
      while pending != {}
        invariant pending <= all
        invariant constructed == old(constructed) && instances == old(instances)
        invariant forall a :: a in all ==>
          && a.launched == old(a.launched) && a.loggedIn == old(a.loggedIn)
          && a.closed == (old(a.closed) || (a !in pending && a.launched && a !in failing))
        decreases pending
      {
        var a :| a in pending;
        var _ := a.Close(a in failing);
        pending := pending - {a};
      }
      instances := map[];
    }
  }

  /** Different names hold different agents, so no agent serves two platforms. */
  lemma OneAgentPerPlatform(f: AgentFactory, k1: string, k2: string)
    requires f.Valid() && k1 in f.instances && k2 in f.instances && k1 != k2
    ensures f.instances[k1] != f.instances[k2]
    ensures f.instances[k1].platform != f.instances[k2].platform
  {
  }

  /** Lower-casing makes the lookup case-insensitive: asking for "Amazon" and then for
      "AMAZON" yields the same agent, and only the first call constructs one. */
  method SameAgentWhateverTheCase(f: AgentFactory)
    returns (first: Result<Agent, FactoryError>, second: Result<Agent, FactoryError>)
    requires f.Valid() && f.instances == map[]
    modifies f
    ensures first.Success? && second == first && first.value.platform == Amazon
    ensures f.Valid() && f.constructed == old(f.constructed) + 1
  {
    assert Text.Lower("Amazon") == "amazon";
    first := f.GetAgent("Amazon", true);
    assert Text.Lower("AMAZON") == "amazon";
    second := f.GetAgent("AMAZON", false);
  }

  /** An agent the factory hands out has a live browser, so logging in on it runs the login
      flow rather than failing for want of a page. */
  method FactoryAgentLogsIn(f: AgentFactory, name: string, launchOk: bool,
                            credentials: map<string, string>, page: LoginPage)
    returns (agent: Result<Agent, FactoryError>, login: Trace<bool>)
    requires f.Valid()
    modifies f, f.instances.Values
    ensures agent.Success? ==> login == LoginFlow(agent.value.platform, credentials, page)
    ensures agent.Failure? ==> login == Trace([], false)
  {
    agent := f.GetAgent(name, launchOk);
    if agent.Success? {
      login := agent.value.Login(credentials, page);
    } else {
      login := Trace([], false);
    }
  }

  /** After `close_all` the next request constructs a new agent rather than reusing the
      closed one. */
  method FreshAgentAfterCloseAll(f: AgentFactory)
    requires f.Valid() && "flipkart" in f.instances
    modifies f, f.instances.Values
    ensures f.Valid() && "flipkart" in f.instances
    ensures f.instances["flipkart"] != old(f.instances["flipkart"])
  {
    ghost var before := f.instances["flipkart"];
    f.CloseAll({});
    Text.LowerOfLowercase("flipkart");
    var again := f.GetAgent("flipkart", true);
    assert again.Success? && fresh(again.value) && f.instances == map["flipkart" := again.value];
  }
}
