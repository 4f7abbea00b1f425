/** The three report-URL extraction strategies tried on one fetched page
    (tikguard_gui.py:48-64), as pure functions over what the HTML parser
    delivers. */
module Strategies {
  import opened Wrappers
  import opened Seqs
  import opened Scan

  /** A `<button>` element: whether its class list holds `report-button-class`,
      and its `data-report-url` attribute if it has one. */
  datatype Button = Button(reportClass: bool, dataReportUrl: Option<string>)

  /** A fetched page: its buttons in document order, the text of its
      `<script>` elements in document order, and the raw response body. */
  datatype Page = Page(buttons: seq<Button>, scripts: seq<string>, body: string)

  predicate IsReportButton(b: Button)
  {
    b.reportClass
  }

  /** Strategy 1: `soup.find` returns the first report button only, and its
      `data-report-url` is used if present. */
  function FromButton(buttons: seq<Button>): Option<string>
  {
    var i := FirstFrom(buttons, IsReportButton, 0);
    if i < |buttons| then buttons[i].dataReportUrl else None
  }

  /** Strategy 2 on one script: test for `reportUrl`, then `re.search` the
      script pattern and take group 1. */
  function FromScript(text: string): Option<string>
  {
    if Contains(text, Marker) then
      match Find(text, ScriptKey, 0)
      case Some(h) => Some(h.url)
      case None => None
    else
      None
  }

  predicate ScriptMatches(text: string)
  {
    FromScript(text).Some?
  }

  /** Strategy 2: the first script, in order, that yields a URL. */
  function FromScripts(scripts: seq<string>): Option<string>
  {
    var i := FirstFrom(scripts, ScriptMatches, 0);
    if i < |scripts| then FromScript(scripts[i]) else None
  }

  /** Strategy 3: `findall` of the body pattern over the body, first element. */
  function FromBody(body: string): Option<string>
  {
    match Find(body, BodyKey, 0)
    case Some(h) => Some(h.url)
    case None => None
  }

  /** The strategies in order; the first that yields wins. */
  function Extract(p: Page): Option<string>
  {
    match FromButton(p.buttons)
    case Some(u) => Some(u)
    case None =>
      match FromScripts(p.scripts)
      case Some(u) => Some(u)
      case None => FromBody(p.body)
  }

  // ---------------------------------------------------------------------
  // Reference meanings of the strategies

  /** Button `i` is the first one carrying the report class. */
  ghost predicate FirstReportButton(bs: seq<Button>, i: nat)
  {
    i < |bs| && bs[i].reportClass && forall j :: 0 <= j < i ==> !bs[j].reportClass
  }

  /** Strategy 1 yields nothing: there is no report button, or the first one
      has no `data-report-url`. */
  ghost predicate NoButtonUrl(bs: seq<Button>)
  {
    forall i: nat :: FirstReportButton(bs, i) ==> bs[i].dataReportUrl.None?
  }

  /** `u` is what the leftmost match of the pattern with `key` captures in `s`. */
  ghost predicate FirstCapture(s: string, key: string, u: string)
  {
    exists k: nat :: Leftmost(s, key, k, u)
  }

  /** Script `i` is the first script with a match, and its leftmost match captures `u`. */
  ghost predicate ScriptYields(ss: seq<string>, i: nat, u: string)
  {
    && i < |ss|
    && (forall j :: 0 <= j < i ==> NoMatch(ss[j], ScriptKey))
    && FirstCapture(ss[i], ScriptKey, u)
  }

  ghost predicate NoScriptMatch(ss: seq<string>)
  {
    forall j :: 0 <= j < |ss| ==> NoMatch(ss[j], ScriptKey)
  }

  // ---------------------------------------------------------------------
  // Each strategy against its reference meaning

  lemma FromButtonCorrect(bs: seq<Button>, u: string)
    ensures FromButton(bs) == Some(u) <==> exists i: nat :: FirstReportButton(bs, i) && bs[i].dataReportUrl == Some(u)
    ensures FromButton(bs).None? <==> NoButtonUrl(bs)
  {
    var i := FirstFrom(bs, IsReportButton, 0);
    forall j: nat | FirstReportButton(bs, j)
      ensures j == i
    {
      if j < i {
        assert IsReportButton(bs[j]);
      }
    }
    if i < |bs| {
      assert FirstReportButton(bs, i);
    }
  }

  /** A script yields exactly the leftmost capture of the script pattern, and
      nothing exactly when the pattern does not match: the `reportUrl` test
      in front of the search never changes the outcome. */
  lemma FromScriptCorrect(text: string, u: string)
    ensures FromScript(text) == Some(u) <==> FirstCapture(text, ScriptKey, u)
    ensures FromScript(text).None? <==> NoMatch(text, ScriptKey)
  {
    FindCorrect(text, ScriptKey);
    var r := Find(text, ScriptKey, 0);
    if r.Some? {
      assert Leftmost(text, ScriptKey, r.value.pos, r.value.url);
      MarkerPrecedesMatch(text, r.value.pos, r.value.url);
    }
    if FirstCapture(text, ScriptKey, u) {
      var k: nat :| Leftmost(text, ScriptKey, k, u);
      assert Find(text, ScriptKey, 0) == Some(Hit(k, u));
      MarkerPrecedesMatch(text, k, u);
    }
  }

  lemma FromBodyCorrect(body: string, u: string)
    ensures FromBody(body) == Some(u) <==> FirstCapture(body, BodyKey, u)
    ensures FromBody(body).None? <==> NoMatch(body, BodyKey)
  {
    FindCorrect(body, BodyKey);
    if FirstCapture(body, BodyKey, u) {
      var k: nat :| Leftmost(body, BodyKey, k, u);
      assert Find(body, BodyKey, 0) == Some(Hit(k, u));
    }
  }

  lemma FromScriptsCorrect(ss: seq<string>, u: string)
    ensures FromScripts(ss) == Some(u) <==> exists i: nat :: ScriptYields(ss, i, u)
    ensures FromScripts(ss).None? <==> NoScriptMatch(ss)
  {
    var i := FirstFrom(ss, ScriptMatches, 0);
    forall j | 0 <= j < |ss|
      ensures ScriptMatches(ss[j]) <==> !NoMatch(ss[j], ScriptKey)
    {
      FromScriptCorrect(ss[j], u);
    }
    if i < |ss| {
      FromScriptCorrect(ss[i], u);
      if FromScript(ss[i]) == Some(u) {
        assert ScriptYields(ss, i, u);
      }
    }
    forall j: nat | ScriptYields(ss, j, u)
      ensures j == i && FromScript(ss[i]) == Some(u)
    {
      FromScriptCorrect(ss[j], u);
    }
  }

  // ---------------------------------------------------------------------
  // Precedence between the strategies

  /** Only the first report button is consulted, and a URL on it wins over
      anything in the scripts or the body. */
  lemma ButtonWins(p: Page, i: nat)
    requires FirstReportButton(p.buttons, i) && p.buttons[i].dataReportUrl.Some?
    ensures Extract(p) == p.buttons[i].dataReportUrl
  {
    FromButtonCorrect(p.buttons, p.buttons[i].dataReportUrl.value);
  }

  /** What one page yields, in reference terms: the first report button's URL;
      else the leftmost capture in the first script that has one; else the
      leftmost capture of the body pattern. */
  lemma ExtractCorrect(p: Page, u: string)
    ensures Extract(p) == Some(u) <==>
      || (exists i: nat :: FirstReportButton(p.buttons, i) && p.buttons[i].dataReportUrl == Some(u))
      || (NoButtonUrl(p.buttons) && exists i: nat :: ScriptYields(p.scripts, i, u))
      || (NoButtonUrl(p.buttons) && NoScriptMatch(p.scripts) && FirstCapture(p.body, BodyKey, u))
    ensures Extract(p).None? <==>
      NoButtonUrl(p.buttons) && NoScriptMatch(p.scripts) && NoMatch(p.body, BodyKey)
  {
    FromButtonCorrect(p.buttons, u);
    FromScriptsCorrect(p.scripts, u);
    FromBodyCorrect(p.body, u);
  }

  /** A URL found by the script or body strategy is `https` plus at least one
      character, and holds no quote. */
  lemma ScannedUrlShape(p: Page, u: string)
    requires NoButtonUrl(p.buttons) && Extract(p) == Some(u)
    ensures IsCapture(u)
  {
    ExtractCorrect(p, u);
    if exists i: nat :: ScriptYields(p.scripts, i, u) {
      var i: nat :| ScriptYields(p.scripts, i, u);
      var k: nat :| Leftmost(p.scripts[i], ScriptKey, k, u);
    } else {
      var k: nat :| Leftmost(p.body, BodyKey, k, u);
    }
  }
}
