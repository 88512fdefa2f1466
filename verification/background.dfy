/** The extension's background classification pipeline
    (extension/src/entrypoints/background.ts). For a loaded, active http(s)
    tab whose URL has no recorded verdict, the hostname is looked up in a
    blacklist, then in a whitelist, and only then sent (with a screenshot) to
    the backend's AI check; the verdict is cached per URL.

    The browser, the network and the screenshot are not part of this model:
    the WHATWG URL parse of the tab URL and the outcome of the AI branch are
    inputs, and the block and allow lists are given sets. */
module Background {
  import opened Results
  import opened Strings

  /** The verdict cached per URL (extension/src/utils/common-types.ts). */
  datatype UrlStatus = Unknown | Safe | Suspicious | Dangerous

  /** The fields of a browser tab the pipeline reads. An absent `url` or
      `status` is represented by the empty string: both are falsy and
      neither equals "complete" or starts with a protocol. */
  datatype Tab = Tab(id: Option<int>, url: string, status: string, active: bool)

  /** `!tab.id` is false: the id is present and not 0. */
  predicate HasId(tab: Tab)
  {
    tab.id.Some? && tab.id.value != 0
  }

  /** `checkTab`: the tab has finished loading, is the active one, and shows
      an http or https page. */
  function CheckTab(tab: Tab): (r: bool)
    ensures tab.status != "complete" || !tab.active ==> !r
    ensures tab.status == "complete" && tab.active ==>
              (r <==> ("https://" <= tab.url || "http://" <= tab.url))
  {
    if tab.status != "complete" || !tab.active then false
    else if tab.url != "" && "https://" <= tab.url then true
    else if tab.url != "" && "http://" <= tab.url then true
    else false
  }

  /** The two fields of a WHATWG `URL` object the extension reads. */
  datatype ParsedUrl = ParsedUrl(protocol: string, hostname: string)

  datatype HostnameError =
    | UnparsableUrl                        // `new URL` threw
    | UnsupportedProtocol(protocol: string)  // not http/https, or no hostname

  /** `getHostnameFromTabUrl`, given the outcome of `new URL(tabUrl)`
      (`None` when the constructor throws). */
  function GetHostname(parsed: Option<ParsedUrl>): (r: Result<string, HostnameError>)
    ensures parsed.None? ==> r == Failure(UnparsableUrl)
    ensures parsed.Some? ==>
              (r.Success? <==> parsed.value.hostname != "" && parsed.value.protocol in {"http:", "https:"})
    ensures parsed.Some? && r.Failure? ==> r.error == UnsupportedProtocol(parsed.value.protocol)
    ensures r.Success? ==>
              || "www." + r.value == parsed.value.hostname
              || (r.value == parsed.value.hostname && !("www." <= r.value))
  {
    match parsed
    case None => Failure(UnparsableUrl)
    case Some(url) =>
      if url.hostname != "" && (url.protocol == "http:" || url.protocol == "https:") then
        Success(RemovePrefix("www.", url.hostname))
      else
        Failure(UnsupportedProtocol(url.protocol))
  }

  /** Only one "www." label goes: "www.www.a.com" is looked up as "www.a.com". */
  lemma GetHostnameRemovesOneWww(protocol: string, rest: string)
    requires protocol in {"http:", "https:"}
    ensures GetHostname(Some(ParsedUrl(protocol, "www." + "www." + rest))) == Success("www." + rest)
  {
    RemovePrefixAtMostOnce("www.", rest);
  }

  /** What the WHATWG URL parser guarantees of a string that starts with
      "http://" or "https://", if it parses at all: the protocol is that
      scheme and, the scheme being special, the host is not empty. */
  predicate ParseAgrees(url: string, parsed: Option<ParsedUrl>)
  {
    parsed.Some? ==>
      && ("https://" <= url ==> parsed.value.protocol == "https:" && parsed.value.hostname != "")
      && ("http://" <= url ==> parsed.value.protocol == "http:" && parsed.value.hostname != "")
  }

  /** For a tab `checkTab` accepts, hostname extraction can fail only because
      the URL does not parse: the unsupported-protocol error is unreachable. */
  lemma EligibleTabHasHostname(tab: Tab, parsed: Option<ParsedUrl>)
    requires CheckTab(tab) && ParseAgrees(tab.url, parsed)
    ensures GetHostname(parsed).Success? <==> parsed.Some?
  {
  }

  /** The blacklist and the union of the three whitelists, as loaded. */
  datatype Lists = Lists(blacklist: set<string>, whitelist: set<string>)

  /** `loadLists`: the blacklist file's entries, and the entries of the three
      whitelist files merged into one set. */
  function LoadLists(blacklistData: seq<string>, builtwith: seq<string>, cisco: seq<string>,
                     tranco: seq<string>): (r: Lists)
    ensures forall h :: CheckBlacklist(r, h) <==> h in blacklistData
    ensures forall h :: CheckWhitelist(r, h) <==> (h in builtwith || h in cisco || h in tranco)
  {
    Lists(set h | h in blacklistData, set h | h in builtwith + cisco + tranco)
  }

  /** `checkBlacklist`: an exact lookup of the whole hostname. */
  predicate CheckBlacklist(lists: Lists, hostname: string)
  {
    hostname in lists.blacklist
  }

  /** `checkWhitelist`: an exact lookup of the whole hostname. */
  predicate CheckWhitelist(lists: Lists, hostname: string)
  {
    hostname in lists.whitelist
  }

  /** The blacklist is consulted with the hostname `getHostnameFromTabUrl`
      returns, so a page on "www." + h is judged by the entry h, and an entry
      that itself starts with "www." never matches it. */
  lemma BlacklistSeesBareHost(lists: Lists, protocol: string, h: string)
    requires protocol in {"http:", "https:"} && h != "" && !("www." <= h)
    ensures CheckBlacklist(lists, GetHostname(Some(ParsedUrl(protocol, "www." + h))).value) <==> h in lists.blacklist
    ensures CheckBlacklist(lists, GetHostname(Some(ParsedUrl(protocol, "www." + h))).value) ==
            CheckBlacklist(lists, GetHostname(Some(ParsedUrl(protocol, h))).value)
  {
  }

  /** The whitelist twin of `BlacklistSeesBareHost`. */
  lemma WhitelistSeesBareHost(lists: Lists, protocol: string, h: string)
    requires protocol in {"http:", "https:"} && h != "" && !("www." <= h)
    ensures CheckWhitelist(lists, GetHostname(Some(ParsedUrl(protocol, "www." + h))).value) <==> h in lists.whitelist
    ensures CheckWhitelist(lists, GetHostname(Some(ParsedUrl(protocol, "www." + h))).value) ==
            CheckWhitelist(lists, GetHostname(Some(ParsedUrl(protocol, h))).value)
  {
  }

  /** Listing a parent domain covers none of its subdomains: the lookups
      compare whole hostnames, not domain suffixes. */
  lemma ListsIgnoreParentDomains(lists: Lists, parent: string, sub: string)
    requires sub != "" && sub + "." + parent !in lists.blacklist + lists.whitelist
    ensures !CheckBlacklist(Lists(lists.blacklist + {parent}, lists.whitelist + {parent}), sub + "." + parent)
    ensures !CheckWhitelist(Lists(lists.blacklist + {parent}, lists.whitelist + {parent}), sub + "." + parent)
  {
    assert |sub + "." + parent| > |parent|;
  }

  /** The fields of the backend's reply that `checkPhishingAi` reads. An
      absent `websiteDomain` is the empty string (both are falsy). */
  datatype AiReply = AiReply(isLoginPage: real, isPhishing: real, websiteDomain: string, error: bool)

  datatype AiVerdict = AiVerdict(phishing: bool, error: bool)

  /** The verdict rule of `checkPhishingAi`. */
  function CheckPhishingAi(reply: AiReply, hostname: string): (v: AiVerdict)
    ensures reply.error ==> v == AiVerdict(false, true)
    ensures !reply.error ==> !v.error
    ensures v.phishing ==> reply.isLoginPage > 0.5
  {
    if reply.error then AiVerdict(false, true)
    else
      var phishing :=
        || (reply.isPhishing > 0.5 && reply.isLoginPage > 0.5)
        || (&& reply.websiteDomain != ""
            && reply.isPhishing <= 0.5
            && reply.isLoginPage > 0.5
            && !EndsWith(hostname, reply.websiteDomain));
      AiVerdict(phishing, false)
  }

  /** The rule in factored form: a page is phishing exactly when the model
      thinks it is a login page and either the model's phishing score is high
      or the domain the model recognises is not a suffix of the hostname. */
  lemma PhishingVerdictFactored(reply: AiReply, hostname: string)
    requires !reply.error
    ensures CheckPhishingAi(reply, hostname).phishing <==>
              && reply.isLoginPage > 0.5
              && (|| reply.isPhishing > 0.5
                  || (reply.websiteDomain != "" && !EndsWith(hostname, reply.websiteDomain)))
  {
  }

  /** Raising the phishing score never turns a phishing verdict off. */
  lemma PhishingVerdictMonotone(reply: AiReply, higher: real, hostname: string)
    requires higher >= reply.isPhishing
    ensures CheckPhishingAi(reply, hostname).phishing ==>
              CheckPhishingAi(reply.(isPhishing := higher), hostname).phishing
  {
  }

  /** The domain test is a plain character suffix test: a look-alike host
      that merely ends with the recognised domain passes it. */
  lemma LookalikeSuffixPasses()
    ensures !CheckPhishingAi(AiReply(0.9, 0.1, "paypal.com", false), "notpaypal.com").phishing
  {
    assert "notpaypal.com"[3..] == "paypal.com";
  }

  /** What the awaited part of the pipeline produced: it threw (screenshot,
      page languages, the request or its JSON body failed) or the backend
      replied. */
  datatype AiOutcome = AnalysisThrew | AnalysisReplied(reply: AiReply)

  /** How one pipeline run ended. */
  datatype Outcome =
    | Ignored                               // no id, no url, or `checkTab` false
    | CachedDangerous                       // recorded dangerous: redirect again
    | CachedBenign                          // recorded safe or suspicious
    | HostnameFailed(error: HostnameError)  // `getHostnameFromTabUrl` threw
    | Recorded(status: UrlStatus)           // a verdict was stored
    | AnalysisFailed                        // the AI branch threw; caught and logged

  /** The warning page is shown (`redirectToWarningPage`). */
  predicate Redirects(o: Outcome)
  {
    o == CachedDangerous || o == Recorded(Dangerous)
  }

  type Checked = map<string, UrlStatus>

  datatype Step = Step(checked: Checked, outcome: Outcome)

  /** A URL whose verdict the pipeline will not reconsider: one of the three
      statuses the early returns test for. */
  predicate IsRecorded(checked: Checked, url: string)
  {
    url in checked && checked[url] != Unknown
  }

  /** Only `url` may differ between the two maps. */
  ghost predicate OnlyKeyChanged(before: Checked, after: Checked, url: string)
  {
    forall u :: u != url ==> (u in after <==> u in before) && (u in before ==> after[u] == before[u])
  }

  /** `onDangerousUrl` (its redirect is the `Redirects` outcome). */
  function OnDangerousUrl(checked: Checked, url: string): (r: Checked)
    ensures url in r && r[url] == Dangerous
    ensures OnlyKeyChanged(checked, r, url)
  {
    checked[url := Dangerous]
  }

  /** `onSafeUrl`. */
  function OnSafeUrl(checked: Checked, url: string): (r: Checked)
    ensures url in r && r[url] == Safe
    ensures OnlyKeyChanged(checked, r, url)
  {
    checked[url := Safe]
  }

  /** `onSuspiciousUrl`. */
  function OnSuspiciousUrl(checked: Checked, url: string): (r: Checked)
    ensures url in r && r[url] == Suspicious
    ensures OnlyKeyChanged(checked, r, url)
  {
    checked[url := Suspicious]
  }

  /** The list stage: blacklisted hosts are dangerous, then whitelisted
      hosts are safe, and other hosts go on to the AI check. */
  function ListVerdict(lists: Lists, hostname: string): (r: Option<UrlStatus>)
    ensures r == Some(Dangerous) <==> CheckBlacklist(lists, hostname)
    ensures r == Some(Safe) <==> !CheckBlacklist(lists, hostname) && CheckWhitelist(lists, hostname)
    ensures r == None <==> !CheckBlacklist(lists, hostname) && !CheckWhitelist(lists, hostname)
  {
    if CheckBlacklist(lists, hostname) then Some(Dangerous)
    else if CheckWhitelist(lists, hostname) then Some(Safe)
    else None
  }

  /** The `on...Url` handler for a stored status. */
  function Store(checked: Checked, url: string, status: UrlStatus): (r: Checked)
    requires status != Unknown
    ensures url in r && r[url] == status
    ensures OnlyKeyChanged(checked, r, url)
  {
    match status
    case Dangerous => OnDangerousUrl(checked, url)
    case Safe => OnSafeUrl(checked, url)
    case Suspicious => OnSuspiciousUrl(checked, url)
  }

  /** The guard at the head of `antiPhishingPipeline`. Its `!tab.url` test
      adds nothing to `checkTab`: a URL with an http(s) prefix is not empty. */
  function Eligible(tab: Tab): (r: bool)
    ensures r <==> && tab.id.Some? && tab.id.value != 0
                   && tab.status == "complete" && tab.active
                   && ("https://" <= tab.url || "http://" <= tab.url)
  {
    HasId(tab) && tab.url != "" && CheckTab(tab)
  }

  /** The part after the awaited AI branch: store the verdict, or nothing if
      the branch threw. */
  function AfterAnalysis(checked: Checked, url: string, hostname: string, ai: AiOutcome): (r: Step)
    ensures ai.AnalysisThrew? ==> r == Step(checked, AnalysisFailed)
    ensures ai.AnalysisReplied? ==>
              r.outcome == Recorded(if CheckPhishingAi(ai.reply, hostname).phishing then Dangerous else Suspicious)
    ensures r.outcome.Recorded? ==> r.checked == checked[url := r.outcome.status]
  {
    match ai
    case AnalysisThrew => Step(checked, AnalysisFailed)
    case AnalysisReplied(reply) =>
      if CheckPhishingAi(reply, hostname).phishing then Step(OnDangerousUrl(checked, url), Recorded(Dangerous))
      else Step(OnSuspiciousUrl(checked, url), Recorded(Suspicious))
  }

  /** A run suspended at the AI branch's first `await`: the URL to record
      and the hostname the verdict rule compares against. */
  datatype Pending = Pending(url: string, hostname: string)

  /** Where the synchronous part of a run ends. */
  datatype Phase = Settled(step: Step) | Awaiting(pending: Pending)

  /** The outcome of a run that finds `status` already recorded. */
  function CachedOutcome(status: UrlStatus): Outcome
  {
    if status == Dangerous then CachedDangerous else CachedBenign
  }

  /** The list stage of a run: store the list verdict, or suspend for the AI
      check when the host is on neither list. */
  function ListStage(checked: Checked, url: string, hostname: string, lists: Lists): (r: Phase)
    ensures r.Awaiting? <==> ListVerdict(lists, hostname).None?
    ensures r.Awaiting? ==> r.pending == Pending(url, hostname)
    ensures r.Settled? ==>
              && r.step.outcome == Recorded(ListVerdict(lists, hostname).value)
              && r.step.checked == checked[url := ListVerdict(lists, hostname).value]
  {
    match ListVerdict(lists, hostname)
    case Some(status) => Settled(Step(Store(checked, url, status), Recorded(status)))
    case None => Awaiting(Pending(url, hostname))
  }

  /** The synchronous part of `antiPhishingPipeline`, up to the first
      `await`: the eligibility guard, the cache lookups, hostname extraction
      and the two list checks. */
  function Begin(checked: Checked, tab: Tab, parsed: Option<ParsedUrl>, lists: Lists): (r: Phase)
    ensures r.Awaiting? ==>
              && r.pending.url == tab.url
              && Eligible(tab) && !IsRecorded(checked, tab.url)
              && GetHostname(parsed) == Success(r.pending.hostname)
              && ListVerdict(lists, r.pending.hostname).None?
    ensures r.Settled? && !r.step.outcome.Recorded? ==> r.step.checked == checked
    ensures r.Settled? && r.step.outcome.Recorded? ==>
              && Eligible(tab) && !IsRecorded(checked, tab.url)
              && r.step.outcome.status != Unknown
              && r.step.checked == checked[tab.url := r.step.outcome.status]
    ensures r.Settled? && r.step.outcome.Recorded? ==>
              && GetHostname(parsed).Success?
              && ListVerdict(lists, GetHostname(parsed).value) == Some(r.step.outcome.status)
  {
    if !Eligible(tab) then Settled(Step(checked, Ignored))
    else if IsRecorded(checked, tab.url) then Settled(Step(checked, CachedOutcome(checked[tab.url])))
    else
      match GetHostname(parsed)
      case Failure(e) => Settled(Step(checked, HostnameFailed(e)))
      case Success(hostname) => ListStage(checked, tab.url, hostname, lists)
  }

  /** One run of `antiPhishingPipeline` for `tab`, with `parsed` the outcome
      of `new URL(tab.url)` and `ai` the outcome of the awaited AI branch,
      when no other run interleaves with it. */
  function Pipeline(checked: Checked, tab: Tab, parsed: Option<ParsedUrl>, lists: Lists, ai: AiOutcome): (r: Step)
    ensures OnlyKeyChanged(checked, r.checked, tab.url)
    ensures IsRecorded(checked, tab.url) ==> r.checked == checked
    ensures !r.outcome.Recorded? ==> r.checked == checked
    ensures r.outcome.Recorded? ==> r.outcome.status != Unknown && r.checked == checked[tab.url := r.outcome.status]
    ensures !Eligible(tab) ==> r == Step(checked, Ignored)
    ensures Eligible(tab) && IsRecorded(checked, tab.url) ==>
              (Redirects(r.outcome) <==> checked[tab.url] == Dangerous)
    ensures Eligible(tab) && !IsRecorded(checked, tab.url) && GetHostname(parsed).Failure? ==>
              r == Step(checked, HostnameFailed(GetHostname(parsed).error))
  {
    match Begin(checked, tab, parsed, lists)
    case Settled(step) => step
    case Awaiting(p) => AfterAnalysis(checked, p.url, p.hostname, ai)
  }

  /** A tab the pipeline accepts, with a URL not yet decided and a hostname
      that extracts. */
  predicate Undecided(checked: Checked, tab: Tab, parsed: Option<ParsedUrl>)
  {
    Eligible(tab) && !IsRecorded(checked, tab.url) && GetHostname(parsed).Success?
  }

  /** Blacklisted hosts are dangerous, even when also whitelisted, and the AI
      branch is never consulted. */
  lemma BlacklistFirst(checked: Checked, tab: Tab, parsed: Option<ParsedUrl>, lists: Lists, ai: AiOutcome)
    requires Undecided(checked, tab, parsed)
    requires CheckBlacklist(lists, GetHostname(parsed).value)
    ensures Pipeline(checked, tab, parsed, lists, ai) == Step(checked[tab.url := Dangerous], Recorded(Dangerous))
    ensures Redirects(Pipeline(checked, tab, parsed, lists, ai).outcome)
  {
  }

  /** Whitelisted hosts that are not blacklisted are safe, whatever the AI
      branch would have said. */
  lemma WhitelistSecond(checked: Checked, tab: Tab, parsed: Option<ParsedUrl>, lists: Lists, ai: AiOutcome)
    requires Undecided(checked, tab, parsed)
    requires !CheckBlacklist(lists, GetHostname(parsed).value)
    requires CheckWhitelist(lists, GetHostname(parsed).value)
    ensures Pipeline(checked, tab, parsed, lists, ai) == Step(checked[tab.url := Safe], Recorded(Safe))
  {
  }

  /** For hosts on neither list the AI decides: dangerous on a phishing
      verdict, suspicious otherwise (including when the model flagged its own
      reply as an error), and nothing is stored when the branch threw. */
  lemma AiDecidesLast(checked: Checked, tab: Tab, parsed: Option<ParsedUrl>, lists: Lists, ai: AiOutcome)
    requires Undecided(checked, tab, parsed)
    requires !CheckBlacklist(lists, GetHostname(parsed).value)
    requires !CheckWhitelist(lists, GetHostname(parsed).value)
    ensures ai.AnalysisThrew? ==> Pipeline(checked, tab, parsed, lists, ai) == Step(checked, AnalysisFailed)
    ensures ai.AnalysisReplied? && ai.reply.error ==>
              Pipeline(checked, tab, parsed, lists, ai) == Step(checked[tab.url := Suspicious], Recorded(Suspicious))
    ensures ai.AnalysisReplied? ==>
              (Pipeline(checked, tab, parsed, lists, ai).outcome == Recorded(Dangerous) <==>
               CheckPhishingAi(ai.reply, GetHostname(parsed).value).phishing)
    ensures ai.AnalysisReplied? ==>
              var s := if CheckPhishingAi(ai.reply, GetHostname(parsed).value).phishing then Dangerous else Suspicious;
              Pipeline(checked, tab, parsed, lists, ai) == Step(checked[tab.url := s], Recorded(s))
  {
  }

  /** Rerunning the pipeline on the same tab changes nothing, whatever the AI
      would answer the second time; it redirects again exactly when the first
      run stored a dangerous verdict. */
  lemma PipelineSettles(checked: Checked, tab: Tab, parsed: Option<ParsedUrl>, lists: Lists, ai: AiOutcome, ai2: AiOutcome)
    requires Pipeline(checked, tab, parsed, lists, ai).outcome.Recorded?
    ensures var first := Pipeline(checked, tab, parsed, lists, ai);
            var second := Pipeline(first.checked, tab, parsed, lists, ai2);
            && second.checked == first.checked
            && (Redirects(second.outcome) <==> first.outcome == Recorded(Dangerous))
  {
  }

  /** A pipeline run triggered by one tab event, with its external inputs. */
  datatype TabEvent = TabEvent(tab: Tab, parsed: Option<ParsedUrl>, ai: AiOutcome)

  /** The cache after a sequence of runs, each finishing before the next
      starts. */
  function Run(checked: Checked, lists: Lists, events: seq<TabEvent>): (r: Checked)
    ensures r.Keys <= checked.Keys + set i | 0 <= i < |events| :: events[i].tab.url
    decreases |events|
  {
    if events == [] then checked
    else
      var e := events[0];
      Run(Pipeline(checked, e.tab, e.parsed, lists, e.ai).checked, lists, events[1..])
  }

  /** Once recorded, a URL's verdict survives any later sequence of runs. */
  lemma {:induction false} RunKeepsRecorded(checked: Checked, lists: Lists, events: seq<TabEvent>, url: string)
    requires IsRecorded(checked, url)
    ensures url in Run(checked, lists, events) && Run(checked, lists, events)[url] == checked[url]
    decreases |events|
  {
    if events != [] {
      var e := events[0];
      var next := Pipeline(checked, e.tab, e.parsed, lists, e.ai).checked;
      assert IsRecorded(next, url) && next[url] == checked[url];
      RunKeepsRecorded(next, lists, events[1..], url);
    }
  }

  /** The pipeline never stores `unknown`. */
  lemma {:induction false} RunNeverStoresUnknown(checked: Checked, lists: Lists, events: seq<TabEvent>)
    requires Unknown !in checked.Values
    ensures Unknown !in Run(checked, lists, events).Values
    decreases |events|
  {
    if events != [] {
      var e := events[0];
      var step := Pipeline(checked, e.tab, e.parsed, lists, e.ai);
      assert Unknown !in step.checked.Values by {
        if step.outcome.Recorded? {
          forall u | u in step.checked
            ensures step.checked[u] != Unknown
          {
            if u != e.tab.url {
              assert u in checked;
            }
          }
        }
      }
      RunNeverStoresUnknown(step.checked, lists, events[1..]);
    }
  }
}
