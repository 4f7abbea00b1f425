/** What `get_report_url` and `submit_report` do, as pure functions of the
    retry policy, the network's answer to each attempt, and the random draws
    `switch_proxy` makes; together with the facts the engine promises about
    them (which URL comes back, how many calls, proxy switches and sleeps
    happen, and in what order). The class in module Engine is proved to
    behave as these functions say. */
module Retry {
  import opened Wrappers
  import opened Seqs
  import opened Scan

  /** The engine's configuration: the proxy pool, `max_retries` and
      `retry_delay` (tikguard_gui.py:21-29). */
  datatype Policy = Policy(pool: seq<string>, maxRetries: int, retryDelay: real)

  /** The number of iterations of `for attempt in range(max_retries)`:
      none when `max_retries` is zero or negative. */
  function Attempts(c: Policy): nat
  {
    if c.maxRetries < 0 then 0 else c.maxRetries
  }

  /** What one attempt of `get_report_url` came to: a `RequestException`
      (connection error, timeout, or a 4xx or 5xx status caught
      by `raise_for_status`), or a fetched page together with the URL the
      extraction strategies found on it, if any. */
  datatype GetOutcome = GetFault | Fetched(found: Option<string>)

  /** What the network does with one POST. */
  datatype PostOutcome = PostFault | Accepted

  /** The JSON body of a report (tikguard_gui.py:72-75). */
  datatype Payload = Payload(reason: string, additionalInfo: string)

  const AdditionalInfo: string := "Spam or inappropriate content"
  const SubmitSucceeded: string := "Report submitted successfully!"
  const SubmitFailed: string := "Failed to submit report."

  /** What the engine does that can be observed from outside: a call of
      `switch_proxy` (with the proxy it chose, if the pool is not empty), a
      GET or a POST together with the session proxies in force when it was
      issued, and a `time.sleep`. */
  datatype Effect =
    | Switched(chosen: Option<string>)
    | Got(url: string, via: map<string, string>)
    | Posted(url: string, payload: Payload, via: map<string, string>)
    | Slept(seconds: real)
  {
    predicate IsCall()
    {
      Got? || Posted?
    }
  }

  datatype Kind = Switching | Calling | Sleeping

  function KindOf(e: Effect): Kind
  {
    match e
    case Switched(_) => Switching
    case Got(_, _) => Calling
    case Posted(_, _, _) => Calling
    case Slept(_) => Sleeping
  }

  /** How many effects of kind `k` occur in `es`. */
  function Count(es: seq<Effect>, k: Kind): nat
  {
    if es == [] then 0 else (if KindOf(es[0]) == k then 1 else 0) + Count(es[1..], k)
  }

  lemma {:induction false} CountAppend(a: seq<Effect>, b: seq<Effect>)
    ensures forall k :: Count(a + b, k) == Count(a, k) + Count(b, k)
  {
    if a == [] {
      assert a + b == b;
    } else {
      CountAppend(a[1..], b);
      assert (a + b)[0] == a[0];
      assert (a + b)[1..] == a[1..] + b;
    }
  }

  lemma CountOne(e: Effect)
    ensures forall k :: Count([e], k) == if KindOf(e) == k then 1 else 0
  {
    assert [e][1..] == [];
  }

  // ---------------------------------------------------------------------
  // switch_proxy (tikguard_gui.py:31-38)

  /** The proxy `random.choice(self.proxies)` picks for a draw, or none when
      the pool is empty and `switch_proxy` does nothing. */
  function Choose(pool: seq<string>, draw: nat): (r: Option<string>)
    ensures r.None? <==> pool == []
    ensures r.Some? ==> r.value in pool
  {
    if pool == [] then None else Some(pool[draw % |pool|])
  }

  /** `session.proxies` after `switch_proxy`: untouched, or replaced as a
      whole by the chosen proxy for both schemes. */
  function Switch(cur: map<string, string>, chosen: Option<string>): map<string, string>
  {
    match chosen
    case None => cur
    case Some(p) => map["http" := p, "https" := p]
  }

  /** Every member of the pool is a possible choice: modelling the draw as an
      index into the pool loses none of `random.choice`'s outcomes. */
  lemma ChooseReachesAll(pool: seq<string>, p: string)
    requires p in pool
    ensures exists draw: nat :: Choose(pool, draw) == Some(p)
  {
    var i :| 0 <= i < |pool| && pool[i] == p;
    assert i % |pool| == i;
    assert Choose(pool, i) == Some(p);
  }

  /** The session proxies a call is issued with, given the choice made right
      before it: with an empty pool, the session's proxies as they were at the
      start; otherwise `http` and `https` both set to a pool member. */
  ghost predicate Routed(pool: seq<string>, initial: map<string, string>, chosen: Option<string>, via: map<string, string>)
  {
    if pool == [] then chosen == None && via == initial
    else
      && chosen.Some? && chosen.value in pool
      && via.Keys == {"http", "https"} && via["http"] == chosen.value && via["https"] == chosen.value
  }

  lemma SwitchRoutes(pool: seq<string>, cur: map<string, string>, draw: nat)
    ensures Routed(pool, cur, Choose(pool, draw), Switch(cur, Choose(pool, draw)))
  {
  }

  // ---------------------------------------------------------------------
  // The two retry loops

  /** The outcome of a retry loop: what it returns, what it did, and the
      session's proxies afterwards. */
  datatype Run<T> = Run(result: T, effects: seq<Effect>, proxies: map<string, string>)

  function Prepend<T>(es: seq<Effect>, r: Run<T>): Run<T>
  {
    Run(r.result, es + r.effects, r.proxies)
  }

  /** The URL an attempt yields, if any. */
  function PageUrl(o: GetOutcome): Option<string>
  {
    match o
    case GetFault => None
    case Fetched(found) => found
  }

  predicate Yields(o: GetOutcome)
  {
    PageUrl(o).Some?
  }

  /** How many of the attempts `lo` to `hi - 1` met a transport fault. */
  function Faults(net: seq<GetOutcome>, lo: nat, hi: nat): nat
    requires lo <= hi <= |net|
    decreases hi - lo
  {
    if lo == hi then 0 else (if net[lo].GetFault? then 1 else 0) + Faults(net, lo + 1, hi)
  }

  predicate IsAccepted(o: PostOutcome)
  {
    o.Accepted?
  }

  /** What one attempt of `get_report_url` does that shows: the switch, the
      GET through the proxies it set, and the sleep after a fault. */
  function GetStep(c: Policy, url: string, o: GetOutcome, draw: nat, cur: map<string, string>): seq<Effect>
  {
    var chosen := Choose(c.pool, draw);
    [Switched(chosen), Got(url, Switch(cur, chosen))] + (if o.GetFault? then [Slept(c.retryDelay)] else [])
  }

  /** `get_report_url` from attempt `k` on (tikguard_gui.py:40-69): switch
      the proxy, GET; on a fault sleep and go on; on a page return the first
      strategy's URL, or go on at once if none yields; after the last
      attempt return `None`. */
  function ResolveFrom(c: Policy, url: string, net: seq<GetOutcome>, rng: seq<nat>,
                       cur: map<string, string>, k: nat): Run<Option<string>>
    requires Attempts(c) <= |net| && Attempts(c) <= |rng|
    decreases Attempts(c) - k
  {
    if k >= Attempts(c) then Run(None, [], cur)
    else
      var via := Switch(cur, Choose(c.pool, rng[k]));
      var step := GetStep(c, url, net[k], rng[k], cur);
      match PageUrl(net[k])
      case Some(u) => Run(Some(u), step, via)
      case None => Prepend(step, ResolveFrom(c, url, net, rng, via, k + 1))
  }

  /** What one attempt of `submit_report` does that shows: the switch, the
      POST through the proxies it set, and the sleep after a fault. */
  function PostStep(c: Policy, url: string, payload: Payload, o: PostOutcome, draw: nat,
                    cur: map<string, string>): seq<Effect>
  {
    var chosen := Choose(c.pool, draw);
    [Switched(chosen), Posted(url, payload, Switch(cur, chosen))] + (if o.PostFault? then [Slept(c.retryDelay)] else [])
  }

  /** `submit_report` from attempt `k` on (tikguard_gui.py:76-85): switch the
      proxy, POST; on success return the success string; on a fault sleep and
      go on; after the last attempt return the failure string. */
  function SubmitFrom(c: Policy, url: string, payload: Payload, net: seq<PostOutcome>, rng: seq<nat>,
                      cur: map<string, string>, k: nat): Run<string>
    requires Attempts(c) <= |net| && Attempts(c) <= |rng|
    decreases Attempts(c) - k
  {
    if k >= Attempts(c) then Run(SubmitFailed, [], cur)
    else
      var via := Switch(cur, Choose(c.pool, rng[k]));
      var step := PostStep(c, url, payload, net[k], rng[k], cur);
      match net[k]
      case Accepted => Run(SubmitSucceeded, step, via)
      case PostFault => Prepend(step, SubmitFrom(c, url, payload, net, rng, via, k + 1))
  }

  // ---------------------------------------------------------------------
  // Which result, how many calls, switches and sleeps

  /** `get_report_url` returns the URL of the first attempt `j` whose page
      yields one, after exactly `j + 1` GETs and as many proxy switches, or
      `None` after one GET per attempt; it sleeps once per faulted attempt
      before `j`, including a fault on the last attempt, and never after a
      page that yields nothing. */
  lemma {:induction false} ResolveCounts(c: Policy, url: string, net: seq<GetOutcome>, rng: seq<nat>,
                                         cur: map<string, string>, k: nat)
    requires Attempts(c) <= |net| && Attempts(c) <= |rng| && k <= Attempts(c)
    ensures var n := Attempts(c);
            var run := ResolveFrom(c, url, net, rng, cur, k);
            var j := FirstFrom(net[..n], Yields, k);
            && run.result == (if j < n then PageUrl(net[j]) else None)
            && Count(run.effects, Calling) == (if j < n then j + 1 else n) - k
            && Count(run.effects, Switching) == (if j < n then j + 1 else n) - k
            && Count(run.effects, Sleeping) == Faults(net, k, j)
    decreases Attempts(c) - k
  {
    var n := Attempts(c);
    if k < n {
      var via := Switch(cur, Choose(c.pool, rng[k]));
      var step := GetStep(c, url, net[k], rng[k], cur);
      assert net[..n][k] == net[k];
      GetStepShape(c, url, net[k], rng[k], cur);
      if !Yields(net[k]) {
        ResolveCounts(c, url, net, rng, via, k + 1);
        CountAppend(step, ResolveFrom(c, url, net, rng, via, k + 1).effects);
      }
    }
  }

  /** `get_report_url` returns `None` exactly when every attempt of
      `range(max_retries)` faulted or fetched a page that yields nothing. */
  lemma ResolveNoneIff(c: Policy, url: string, net: seq<GetOutcome>, rng: seq<nat>, cur: map<string, string>)
    requires Attempts(c) <= |net| && Attempts(c) <= |rng|
    ensures ResolveFrom(c, url, net, rng, cur, 0).result.None? <==>
            forall i :: 0 <= i < Attempts(c) ==> !Yields(net[i])
  {
    var n := Attempts(c);
    ResolveCounts(c, url, net, rng, cur, 0);
    forall i | 0 <= i < n
      ensures net[..n][i] == net[i]
    {
    }
  }

  /** `submit_report` returns the success string on the first accepted
      attempt `j`, after exactly `j + 1` POSTs, and otherwise the failure
      string after one POST per attempt; every attempt before `j` faulted and
      slept once, the last one included. */
  lemma {:induction false} SubmitCounts(c: Policy, url: string, payload: Payload, net: seq<PostOutcome>, rng: seq<nat>,
                                        cur: map<string, string>, k: nat)
    requires Attempts(c) <= |net| && Attempts(c) <= |rng| && k <= Attempts(c)
    ensures var n := Attempts(c);
            var run := SubmitFrom(c, url, payload, net, rng, cur, k);
            var j := FirstFrom(net[..n], IsAccepted, k);
            && run.result == (if j < n then SubmitSucceeded else SubmitFailed)
            && Count(run.effects, Calling) == (if j < n then j + 1 else n) - k
            && Count(run.effects, Switching) == (if j < n then j + 1 else n) - k
            && Count(run.effects, Sleeping) == j - k
    decreases Attempts(c) - k
  {
    var n := Attempts(c);
    if k < n {
      var via := Switch(cur, Choose(c.pool, rng[k]));
      var step := PostStep(c, url, payload, net[k], rng[k], cur);
      assert net[..n][k] == net[k];
      PostStepShape(c, url, payload, net[k], rng[k], cur);
      if net[k] == PostFault {
        SubmitCounts(c, url, payload, net, rng, via, k + 1);
        CountAppend(step, SubmitFrom(c, url, payload, net, rng, via, k + 1).effects);
      }
    }
  }

  /** `max_retries` is never checked: when it is zero or negative,
      `range(max_retries)` is empty, so both operations return their default
      at once, without touching the session, calling or sleeping. */
  lemma NonPositiveRetries(c: Policy, url: string, payload: Payload, getNet: seq<GetOutcome>,
                           postNet: seq<PostOutcome>, rng: seq<nat>, cur: map<string, string>)
    requires c.maxRetries <= 0
    ensures ResolveFrom(c, url, getNet, rng, cur, 0) == Run(None, [], cur)
    ensures SubmitFrom(c, url, payload, postNet, rng, cur, 0) == Run(SubmitFailed, [], cur)
  {
  }

  /** `submit_report` returns one of its two strings, the failure string
      exactly when every attempt faulted (with `retry_delay >= 0`; a negative
      delay makes `time.sleep` raise, which this model does not capture). */
  lemma SubmitFailedIff(c: Policy, url: string, payload: Payload, net: seq<PostOutcome>, rng: seq<nat>,
                        cur: map<string, string>)
    requires Attempts(c) <= |net| && Attempts(c) <= |rng|
    ensures var run := SubmitFrom(c, url, payload, net, rng, cur, 0);
            && (run.result == SubmitSucceeded || run.result == SubmitFailed)
            && (run.result == SubmitFailed <==> forall i :: 0 <= i < Attempts(c) ==> net[i] == PostFault)
  {
    var n := Attempts(c);
    SubmitCounts(c, url, payload, net, rng, cur, 0);
    forall i | 0 <= i < n
      ensures net[..n][i] == net[i]
    {
    }
  }

  /** The caller tells the two results apart by looking for `successfully`
      (tikguard_gui.py:161): only the success string contains it. */
  lemma MessagesDistinct()
    ensures Contains(SubmitSucceeded, "successfully")
    ensures !Contains(SubmitFailed, "successfully")
  {
    assert LiteralAt(SubmitSucceeded, "successfully", 17);
    forall i: nat | i <= |SubmitFailed| && LiteralAt(SubmitFailed, "successfully", i)
      ensures SubmitFailed[i + 2] == 'c'
    {
      assert SubmitFailed[i..i + 12][2] == SubmitFailed[i + 2];
    }
  }

  // ---------------------------------------------------------------------
  // The order of effects and the proxies each call goes through

  /** Each call is immediately preceded by a `switch_proxy`, and goes through
      the proxy that switch chose. */
  ghost predicate CallsAfterSwitch(es: seq<Effect>, pool: seq<string>, initial: map<string, string>)
  {
    forall i :: 0 <= i < |es| && es[i].IsCall() ==>
      0 < i && es[i - 1].Switched? && Routed(pool, initial, es[i - 1].chosen, es[i].via)
  }

  /** Every sleep lasts `retry_delay` seconds. */
  ghost predicate SleepsLast(es: seq<Effect>, delay: real)
  {
    forall i :: 0 <= i < |es| && es[i].Slept? ==> es[i].seconds == delay
  }

  /** Every call is a GET of `url`. */
  ghost predicate OnlyGets(es: seq<Effect>, url: string)
  {
    forall i :: 0 <= i < |es| && es[i].IsCall() ==> es[i] == Got(url, es[i].via)
  }

  /** Every call is a POST of `payload` to `url`. */
  ghost predicate OnlyPosts(es: seq<Effect>, url: string, payload: Payload)
  {
    forall i :: 0 <= i < |es| && es[i].IsCall() ==> es[i] == Posted(url, payload, es[i].via)
  }

  lemma CallsAfterSwitchAppend(a: seq<Effect>, b: seq<Effect>, pool: seq<string>,
                               initial: map<string, string>, initial': map<string, string>)
    requires CallsAfterSwitch(a, pool, initial) && CallsAfterSwitch(b, pool, initial')
    requires pool == [] ==> initial' == initial
    ensures CallsAfterSwitch(a + b, pool, initial)
  {
    var es := a + b;
    forall i | 0 <= i < |es| && es[i].IsCall()
      ensures 0 < i && es[i - 1].Switched? && Routed(pool, initial, es[i - 1].chosen, es[i].via)
    {
      if i >= |a| {
        assert es[i] == b[i - |a|];
        assert es[i - 1] == b[i - |a| - 1];
      }
    }
  }

  lemma SleepsLastAppend(a: seq<Effect>, b: seq<Effect>, delay: real)
    requires SleepsLast(a, delay) && SleepsLast(b, delay)
    ensures SleepsLast(a + b, delay)
  {
    var es := a + b;
    forall i | 0 <= i < |es| && es[i].Slept?
      ensures es[i].seconds == delay
    {
      if i >= |a| {
        assert es[i] == b[i - |a|];
      }
    }
  }

  lemma OnlyGetsAppend(a: seq<Effect>, b: seq<Effect>, url: string)
    requires OnlyGets(a, url) && OnlyGets(b, url)
    ensures OnlyGets(a + b, url)
  {
    var es := a + b;
    forall i | 0 <= i < |es| && es[i].IsCall()
      ensures es[i] == Got(url, es[i].via)
    {
      if i >= |a| {
        assert es[i] == b[i - |a|];
      }
    }
  }

  lemma OnlyPostsAppend(a: seq<Effect>, b: seq<Effect>, url: string, payload: Payload)
    requires OnlyPosts(a, url, payload) && OnlyPosts(b, url, payload)
    ensures OnlyPosts(a + b, url, payload)
  {
    var es := a + b;
    forall i | 0 <= i < |es| && es[i].IsCall()
      ensures es[i] == Posted(url, payload, es[i].via)
    {
      if i >= |a| {
        assert es[i] == b[i - |a|];
      }
    }
  }

  /** The two effects every attempt starts with: one switch, then one call
      through the proxies that switch set. */
  lemma TriedShape(pool: seq<string>, cur: map<string, string>, draw: nat, call: Effect, delay: real)
    requires call.IsCall() && call.via == Switch(cur, Choose(pool, draw))
    ensures var tried := [Switched(Choose(pool, draw)), call];
            && Count(tried, Switching) == 1 && Count(tried, Calling) == 1 && Count(tried, Sleeping) == 0
            && CallsAfterSwitch(tried, pool, cur) && SleepsLast(tried, delay)
  {
    var tried := [Switched(Choose(pool, draw)), call];
    assert tried == [Switched(Choose(pool, draw))] + [call];
    CountAppend([Switched(Choose(pool, draw))], [call]);
    CountOne(Switched(Choose(pool, draw)));
    CountOne(call);
    SwitchRoutes(pool, cur, draw);
  }

  /** The sleep that follows a faulted attempt. */
  lemma FaultShape(tried: seq<Effect>, pool: seq<string>, cur: map<string, string>, delay: real)
    requires CallsAfterSwitch(tried, pool, cur) && SleepsLast(tried, delay)
    ensures var es := tried + [Slept(delay)];
            && (forall k :: Count(es, k) == Count(tried, k) + (if k == Sleeping then 1 else 0))
            && CallsAfterSwitch(es, pool, cur) && SleepsLast(es, delay)
  {
    CountAppend(tried, [Slept(delay)]);
    CountOne(Slept(delay));
    CallsAfterSwitchAppend(tried, [Slept(delay)], pool, cur, cur);
    SleepsLastAppend(tried, [Slept(delay)], delay);
  }

  /** One attempt of `get_report_url`: one switch, then one GET of the video
      URL through the proxy it chose, then one sleep of `retry_delay` exactly
      when the GET faulted. */
  lemma GetStepShape(c: Policy, url: string, o: GetOutcome, draw: nat, cur: map<string, string>)
    ensures var step := GetStep(c, url, o, draw, cur);
            && Count(step, Switching) == 1 && Count(step, Calling) == 1
            && Count(step, Sleeping) == (if o.GetFault? then 1 else 0)
            && CallsAfterSwitch(step, c.pool, cur) && SleepsLast(step, c.retryDelay) && OnlyGets(step, url)
  {
    var chosen := Choose(c.pool, draw);
    var tried := [Switched(chosen), Got(url, Switch(cur, chosen))];
    TriedShape(c.pool, cur, draw, Got(url, Switch(cur, chosen)), c.retryDelay);
    if o.GetFault? {
      FaultShape(tried, c.pool, cur, c.retryDelay);
    } else {
      assert GetStep(c, url, o, draw, cur) == tried;
    }
  }

  /** One attempt of `submit_report`: one switch, then one POST of the payload
      through the proxy it chose, then one sleep of `retry_delay` exactly when
      the POST faulted. */
  lemma PostStepShape(c: Policy, url: string, payload: Payload, o: PostOutcome, draw: nat, cur: map<string, string>)
    ensures var step := PostStep(c, url, payload, o, draw, cur);
            && Count(step, Switching) == 1 && Count(step, Calling) == 1
            && Count(step, Sleeping) == (if o.PostFault? then 1 else 0)
            && CallsAfterSwitch(step, c.pool, cur) && SleepsLast(step, c.retryDelay) && OnlyPosts(step, url, payload)
  {
    var chosen := Choose(c.pool, draw);
    var tried := [Switched(chosen), Posted(url, payload, Switch(cur, chosen))];
    TriedShape(c.pool, cur, draw, Posted(url, payload, Switch(cur, chosen)), c.retryDelay);
    if o.PostFault? {
      FaultShape(tried, c.pool, cur, c.retryDelay);
    } else {
      assert PostStep(c, url, payload, o, draw, cur) == tried;
    }
  }

  /** The effects of `get_report_url`: GETs of the video URL only, each right
      after a `switch_proxy` and through the proxy it chose, and sleeps of
      `retry_delay` seconds. */
  lemma {:induction false} ResolveEffects(c: Policy, url: string, net: seq<GetOutcome>, rng: seq<nat>,
                                          cur: map<string, string>, k: nat)
    requires Attempts(c) <= |net| && Attempts(c) <= |rng|
    ensures var es := ResolveFrom(c, url, net, rng, cur, k).effects;
            && CallsAfterSwitch(es, c.pool, cur)
            && SleepsLast(es, c.retryDelay)
            && OnlyGets(es, url)
    decreases Attempts(c) - k
  {
    if k < Attempts(c) {
      var via := Switch(cur, Choose(c.pool, rng[k]));
      var step := GetStep(c, url, net[k], rng[k], cur);
      GetStepShape(c, url, net[k], rng[k], cur);
      if !Yields(net[k]) {
        var rest := ResolveFrom(c, url, net, rng, via, k + 1).effects;
        ResolveEffects(c, url, net, rng, via, k + 1);
        CallsAfterSwitchAppend(step, rest, c.pool, cur, via);
        SleepsLastAppend(step, rest, c.retryDelay);
        OnlyGetsAppend(step, rest, url);
      }
    }
  }

  /** The effects of `submit_report`: POSTs of the same payload to the report
      URL only, each right after a `switch_proxy` and through the proxy it
      chose, and sleeps of `retry_delay` seconds. */
  lemma {:induction false} SubmitEffects(c: Policy, url: string, payload: Payload, net: seq<PostOutcome>, rng: seq<nat>,
                                         cur: map<string, string>, k: nat)
    requires Attempts(c) <= |net| && Attempts(c) <= |rng|
    ensures var es := SubmitFrom(c, url, payload, net, rng, cur, k).effects;
            && CallsAfterSwitch(es, c.pool, cur)
            && SleepsLast(es, c.retryDelay)
            && OnlyPosts(es, url, payload)
    decreases Attempts(c) - k
  {
    if k < Attempts(c) {
      var via := Switch(cur, Choose(c.pool, rng[k]));
      var step := PostStep(c, url, payload, net[k], rng[k], cur);
      PostStepShape(c, url, payload, net[k], rng[k], cur);
      if net[k] == PostFault {
        var rest := SubmitFrom(c, url, payload, net, rng, via, k + 1).effects;
        SubmitEffects(c, url, payload, net, rng, via, k + 1);
        CallsAfterSwitchAppend(step, rest, c.pool, cur, via);
        SleepsLastAppend(step, rest, c.retryDelay);
        OnlyPostsAppend(step, rest, url, payload);
      }
    }
  }
}
