/** Concrete runs of the engine's pure model. */
module Scenarios {
  import opened Wrappers
  import opened Seqs
  import opened Scan
  import Strategies
  import opened Retry
  import Engine

  /** A page with no report button, one script holding
      `reportUrl":"https://example.com/report/42"` and any body yields exactly
      that URL. */
  lemma ScriptExample(body: string)
    ensures var u := "https://example.com/report/42";
            Strategies.Extract(Strategies.Page([], [ScriptKey + u + "\""], body)) == Some(u)
  {
    var u := "https://example.com/report/42";
    var p := Strategies.Page([], [ScriptKey + u + "\""], body);
    assert u[..|Scheme|] == Scheme;
    QuotedCapture(ScriptKey, u);
    assert Strategies.ScriptYields(p.scripts, 0, u);
    Strategies.ExtractCorrect(p, u);
  }

  /** Two attempts, no delay: a fault, then a page with nothing to extract.
      The result is `None` after two GETs and one sleep. */
  lemma FaultThenEmptyPage(url: string, rng: seq<nat>, cur: map<string, string>)
    requires |rng| >= 2
    ensures var net := Engine.Outcomes([Engine.PageFault, Engine.PageFetched(Strategies.Page([], [], ""))]);
            var run := ResolveFrom(Policy([], 2, 0.0), url, net, rng, cur, 0);
            && run.result == None
            && Count(run.effects, Calling) == 2
            && Count(run.effects, Sleeping) == 1
            && run.proxies == cur
  {
    var c := Policy([], 2, 0.0);
    var net := Engine.Outcomes([Engine.PageFault, Engine.PageFetched(Strategies.Page([], [], ""))]);
    assert Find("", BodyKey, 0) == None;
    assert net == [GetFault, Fetched(None)];
    assert FirstFrom(net[..2], Yields, 0) == 2;
    ResolveCounts(c, url, net, rng, cur, 0);
  }

  /** A pool of one proxy and one attempt: `switch_proxy` picks that proxy
      before the only call, and is not called again. */
  lemma SingleProxySingleAttempt(url: string, net: seq<GetOutcome>, rng: seq<nat>, cur: map<string, string>)
    requires |net| >= 1 && |rng| >= 1
    ensures var run := ResolveFrom(Policy(["p1"], 1, 5.0), url, net, rng, cur, 0);
            && run.effects[0] == Switched(Some("p1"))
            && Count(run.effects, Switching) == 1
  {
    ResolveCounts(Policy(["p1"], 1, 5.0), url, net, rng, cur, 0);
  }
}
