/** The class `TikGuard` (tikguard_gui.py:20-85): the report engine with its
    proxy pool, retry policy and HTTP session. The network, the HTML parser
    and `random.choice` are replaced by oracles handed to each operation:
    `net[k]` is what the network does on attempt `k`, `rng[k]` is the draw
    `switch_proxy` makes before it. What the engine does that shows outside
    is recorded in the ghost log `effects`. */
module Engine {
  import opened Wrappers
  import opened Seqs
  import opened Scan
  import Strategies
  import opened Retry

  /** The part of a `requests.Session` the engine changes: its `proxies`
      dict, which every request it sends goes through. */
  class Session {
    var proxies: map<string, string>

    constructor ()
      ensures proxies == map[]
    {
      proxies := map[];
    }
  }

  /** What the network does with one GET: a `RequestException` (connection
      error, timeout, or a 4xx or 5xx status caught by `raise_for_status`), or a
      page that the HTML parser has taken apart. */
  datatype PageResponse = PageFault | PageFetched(page: Strategies.Page)

  /** What an attempt comes to once the strategies have run on its page. */
  function Outcome(resp: PageResponse): GetOutcome
  {
    match resp
    case PageFault => GetFault
    case PageFetched(p) => Fetched(Strategies.Extract(p))
  }

  /** The attempt outcomes of a whole run of responses, one per attempt. */
  function Outcomes(net: seq<PageResponse>): seq<GetOutcome>
  {
    seq(|net|, k requires 0 <= k < |net| => Outcome(net[k]))
  }

  /** Strategy 2 as the source runs it (tikguard_gui.py:53-58): go through
      the scripts in order, skip those without `reportUrl`, and stop at the
      first whose `re.search` matches. */
  method SearchScripts(scripts: seq<string>) returns (r: Option<string>)
    ensures r == Strategies.FromScripts(scripts)
  {
    var i := 0;
    while i < |scripts|
      invariant 0 <= i <= |scripts|
      invariant FirstFrom(scripts, Strategies.ScriptMatches, 0) >= i
    {
      var text := scripts[i];
      if Contains(text, Marker) {
        var found := Find(text, ScriptKey, 0);
        if found.Some? {
          return Some(found.value.url);
        }
      }
      i := i + 1;
    }
    return None;
  }

  /** The body of one successful GET (tikguard_gui.py:45-64): try the button,
      then the scripts, then the body, and return the first URL found. */
  method ExtractReportUrl(page: Strategies.Page) returns (r: Option<string>)
    ensures r == Strategies.Extract(page)
  {
    var fromButton := Strategies.FromButton(page.buttons);
    if fromButton.Some? {
      return fromButton;
    }
    var fromScripts := SearchScripts(page.scripts);
    if fromScripts.Some? {
      return fromScripts;
    }
    return Strategies.FromBody(page.body);
  }

  class TikGuard {
    const session: Session
    const maxRetries: int
    const retryDelay: real
    const proxies: seq<string>

    /** What the engine has done so far that shows outside. */
    ghost var effects: seq<Effect>

    /** `TikGuard(proxies, max_retries, retry_delay)`: the limits are stored
        as given, without validation; a missing or empty proxy list becomes
        the empty pool. */
    constructor (proxies: Option<seq<string>> := None, maxRetries: int := 3, retryDelay: real := 5.0)
      ensures this.maxRetries == maxRetries && this.retryDelay == retryDelay
      ensures this.proxies == (if proxies.Some? then proxies.value else [])
      ensures fresh(session) && session.proxies == map[]
      ensures effects == []
    {
      session := new Session();
      this.maxRetries := maxRetries;
      this.retryDelay := retryDelay;
      this.proxies := if proxies.Some? && proxies.value != [] then proxies.value else [];
      effects := [];
    }

    function Settings(): Policy
    {
      Policy(proxies, maxRetries, retryDelay)
    }

    /** `switch_proxy`: with an empty pool nothing changes; otherwise the
        session's proxies become `http` and `https` both set to the pool
        member the draw picks. */
    method SwitchProxy(draw: nat)
      modifies session, this`effects
      ensures session.proxies == Switch(old(session.proxies), Choose(proxies, draw))
      ensures effects == old(effects) + [Switched(Choose(proxies, draw))]
      ensures proxies == [] ==> session.proxies == old(session.proxies)
      ensures proxies != [] ==>
                && session.proxies.Keys == {"http", "https"}
                && session.proxies["http"] == session.proxies["https"]
                && session.proxies["http"] in proxies
    {
      if proxies != [] {
        var proxy := proxies[draw % |proxies|];
        session.proxies := map["http" := proxy, "https" := proxy];
        effects := effects + [Switched(Some(proxy))];
      } else {
        effects := effects + [Switched(None)];
      }
    }

    /** The body of the `for` loop of `get_report_url` (tikguard_gui.py:43-68)
        up to its `return`: switch the proxy, GET through it, extract from
        the page, or log the fault and sleep. */
    method TryGet(videoUrl: string, resp: PageResponse, draw: nat) returns (found: Option<string>)
      modifies session, this`effects
      ensures session.proxies == Switch(old(session.proxies), Choose(proxies, draw))
      ensures found == PageUrl(Outcome(resp))
      ensures effects == old(effects) + GetStep(Settings(), videoUrl, Outcome(resp), draw, old(session.proxies))
    {
      SwitchProxy(draw);
      effects := effects + [Got(videoUrl, session.proxies)];
      match resp {
        case PageFault =>
          effects := effects + [Slept(retryDelay)];
          found := None;
        case PageFetched(page) =>
          found := ExtractReportUrl(page);
      }
    }

    /** `get_report_url`: behaves exactly as `Retry.ResolveFrom` says, whose
        properties are the lemmas of module Retry. */
    method GetReportUrl(videoUrl: string, net: seq<PageResponse>, rng: seq<nat>) returns (r: Option<string>)
      requires Attempts(Settings()) <= |net| && Attempts(Settings()) <= |rng|
      modifies session, this`effects
      ensures var run := ResolveFrom(Settings(), videoUrl, Outcomes(net), rng, old(session.proxies), 0);
              && r == run.result
              && effects == old(effects) + run.effects
              && session.proxies == run.proxies
    {
      ghost var outs := Outcomes(net);
      ghost var whole := ResolveFrom(Settings(), videoUrl, outs, rng, session.proxies, 0);
      var attempt := 0;
      while attempt < maxRetries
        invariant 0 <= attempt <= Attempts(Settings())
        invariant var rest := ResolveFrom(Settings(), videoUrl, outs, rng, session.proxies, attempt);
                  && whole.result == rest.result
                  && whole.proxies == rest.proxies
                  && old(effects) + whole.effects == effects + rest.effects
        decreases maxRetries - attempt
      {
        ghost var before := session.proxies;
        ghost var done := effects;
        var found := TryGet(videoUrl, net[attempt], rng[attempt]);
        assert outs[attempt] == Outcome(net[attempt]);
        if found.Some? {
          return found;
        }
        Regroup(done, GetStep(Settings(), videoUrl, outs[attempt], rng[attempt], before),
                ResolveFrom(Settings(), videoUrl, outs, rng, session.proxies, attempt + 1).effects);
        attempt := attempt + 1;
      }
      return None;
    }

    /** The body of the `for` loop of `submit_report` (tikguard_gui.py:77-84)
        up to its `return`: switch the proxy, POST through it, or log the
        fault and sleep. */
    method TryPost(reportUrl: string, payload: Payload, resp: PostOutcome, draw: nat) returns (accepted: bool)
      modifies session, this`effects
      ensures session.proxies == Switch(old(session.proxies), Choose(proxies, draw))
      ensures accepted <==> resp == Accepted
      ensures effects == old(effects) + PostStep(Settings(), reportUrl, payload, resp, draw, old(session.proxies))
    {
      SwitchProxy(draw);
      effects := effects + [Posted(reportUrl, payload, session.proxies)];
      accepted := resp == Accepted;
      if !accepted {
        effects := effects + [Slept(retryDelay)];
      }
    }

    /** `submit_report`: posts the caller's reason with the fixed
        `additional_info`, and behaves exactly as `Retry.SubmitFrom` says. */
    method SubmitReport(reportUrl: string, reason: string, net: seq<PostOutcome>, rng: seq<nat>) returns (msg: string)
      requires Attempts(Settings()) <= |net| && Attempts(Settings()) <= |rng|
      modifies session, this`effects
      ensures var run := SubmitFrom(Settings(), reportUrl, Payload(reason, AdditionalInfo), net, rng, old(session.proxies), 0);
              && msg == run.result
              && effects == old(effects) + run.effects
              && session.proxies == run.proxies
    {
      var payload := Payload(reason, AdditionalInfo);
      ghost var whole := SubmitFrom(Settings(), reportUrl, payload, net, rng, session.proxies, 0);
      var attempt := 0;
      while attempt < maxRetries
        invariant 0 <= attempt <= Attempts(Settings())
        invariant var rest := SubmitFrom(Settings(), reportUrl, payload, net, rng, session.proxies, attempt);
                  && whole.result == rest.result
                  && whole.proxies == rest.proxies
                  && old(effects) + whole.effects == effects + rest.effects
        decreases maxRetries - attempt
      {
        ghost var before := session.proxies;
        ghost var done := effects;
        var accepted := TryPost(reportUrl, payload, net[attempt], rng[attempt]);
        if accepted {
          return SubmitSucceeded;
        }
        Regroup(done, PostStep(Settings(), reportUrl, payload, net[attempt], rng[attempt], before),
                SubmitFrom(Settings(), reportUrl, payload, net, rng, session.proxies, attempt + 1).effects);
        attempt := attempt + 1;
      }
      return SubmitFailed;
    }
  }
}
