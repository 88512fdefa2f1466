/** Pipeline runs that overlap. `antiPhishingPipeline` is an async function
    started from the tab listeners without being awaited, so two runs for the
    same URL can both pass the cache lookup before either reaches the end of
    its AI branch (whose screenshot step alone waits at least half a second).
    Each run is its synchronous part (`Begin`), a suspension, and its
    completion; completions of suspended runs may come in any order. */
module AsyncPipeline {
  import opened Results
  import opened Background

  /** The cache and the runs currently suspended at the AI branch. */
  datatype State = State(checked: Checked, suspended: seq<Pending>)

  /** Something the event loop does next: start a run for a tab event, or
      complete the suspended run at `index` with its AI outcome. An index
      with no suspended run does nothing. */
  datatype Action = Start(tab: Tab, parsed: Option<ParsedUrl>) | Complete(index: nat, ai: AiOutcome)

  /** Remove the element at `i`. */
  function RemoveAt<T>(s: seq<T>, i: nat): (r: seq<T>)
    requires i < |s|
    ensures |r| == |s| - 1
    ensures forall k :: 0 <= k < i ==> r[k] == s[k]
    ensures forall k :: i <= k < |r| ==> r[k] == s[k + 1]
  {
    s[..i] + s[i + 1..]
  }

  /** Completion as written: the verdict is stored without looking at the
      cache again (background.ts, lines 257-268). */
  function Resume(checked: Checked, p: Pending, ai: AiOutcome): (r: Step)
    ensures OnlyKeyChanged(checked, r.checked, p.url)
    ensures ai.AnalysisReplied? ==> p.url in r.checked && r.checked[p.url] != Unknown
  {
    AfterAnalysis(checked, p.url, p.hostname, ai)
  }

  /** Completion that first looks the URL up again and keeps a verdict that
      another run stored while this one was suspended. */
  function ResumeGuarded(checked: Checked, p: Pending, ai: AiOutcome): (r: Step)
    ensures OnlyKeyChanged(checked, r.checked, p.url)
    ensures IsRecorded(checked, p.url) ==> r.checked == checked
    ensures IsRecorded(checked, p.url) ==> (Redirects(r.outcome) <==> checked[p.url] == Dangerous)
    ensures !IsRecorded(checked, p.url) ==> r == Resume(checked, p, ai)
  {
    if IsRecorded(checked, p.url) then
      Step(checked, if checked[p.url] == Dangerous then CachedDangerous else CachedBenign)
    else
      Resume(checked, p, ai)
  }

  /** One action, with completion as written (`guarded` false) or guarded. */
  function Act(s: State, lists: Lists, a: Action, guarded: bool): (r: State)
    ensures a.Start? ==> OnlyKeyChanged(s.checked, r.checked, a.tab.url)
    ensures a.Complete? && a.index < |s.suspended| ==>
              OnlyKeyChanged(s.checked, r.checked, s.suspended[a.index].url)
    ensures a.Complete? && a.index >= |s.suspended| ==> r == s
  {
    match a
    case Start(tab, parsed) =>
      (match Begin(s.checked, tab, parsed, lists)
       case Settled(step) => State(step.checked, s.suspended)
       case Awaiting(p) => State(s.checked, s.suspended + [p]))
    case Complete(i, ai) =>
      if i < |s.suspended| then
        var p := s.suspended[i];
        var step := if guarded then ResumeGuarded(s.checked, p, ai) else Resume(s.checked, p, ai);
        State(step.checked, RemoveAt(s.suspended, i))
      else s
  }

  /** The state after a sequence of actions. */
  function Interleave(s: State, lists: Lists, actions: seq<Action>, guarded: bool): State
    decreases |actions|
  {
    if actions == [] then s
    else Interleave(Act(s, lists, actions[0], guarded), lists, actions[1..], guarded)
  }

  /** A run started and completed with nothing in between behaves like the
      sequential pipeline, with either kind of completion. */
  lemma StartThenCompleteIsPipeline(checked: Checked, tab: Tab, parsed: Option<ParsedUrl>, lists: Lists,
                                    ai: AiOutcome, guarded: bool)
    ensures var s1 := Act(State(checked, []), lists, Start(tab, parsed), guarded);
            Act(s1, lists, Complete(0, ai), guarded).checked == Pipeline(checked, tab, parsed, lists, ai).checked
  {
    var s1 := Act(State(checked, []), lists, Start(tab, parsed), guarded);
    match Begin(checked, tab, parsed, lists)
    case Settled(step) =>
    case Awaiting(p) =>
      assert s1.suspended == [p];
      assert !IsRecorded(checked, p.url);
  }

  const ExampleUrl: string := "https://login.example.net/"
  const ExampleTab: Tab := Tab(Some(7), ExampleUrl, "complete", true)
  const ExampleParse: Option<ParsedUrl> := Some(ParsedUrl("https:", "login.example.net"))
  const NoLists: Lists := Lists({}, {})
  const PhishingReply: AiReply := AiReply(0.9, 0.9, "", false)
  const BenignReply: AiReply := AiReply(0.2, 0.1, "", false)

  const ExamplePending: Pending := Pending(ExampleUrl, "login.example.net")

  /** The example tab passes every synchronous check and suspends. */
  lemma ExampleSuspends()
    ensures Begin(map[], ExampleTab, ExampleParse, NoLists) == Awaiting(ExamplePending)
  {
    assert !("www." <= "login.example.net") by {
      assert "login.example.net"[0] != "www."[0];
    }
    assert "https://" <= ExampleUrl;
  }

  lemma ExampleVerdicts()
    ensures CheckPhishingAi(PhishingReply, ExamplePending.hostname).phishing
    ensures !CheckPhishingAi(BenignReply, ExamplePending.hostname).phishing
  {
  }

  const FirstStart: Action := Start(ExampleTab, ExampleParse)
  const PhishingCompletion: Action := Complete(0, AnalysisReplied(PhishingReply))
  const BenignCompletion: Action := Complete(0, AnalysisReplied(BenignReply))

  lemma InterleaveSingle(s: State, lists: Lists, a: Action, guarded: bool)
    ensures Interleave(s, lists, [a], guarded) == Act(s, lists, a, guarded)
  {
    assert [a][1..] == [];
  }

  lemma InterleaveCons(s: State, lists: Lists, a: Action, rest: seq<Action>, guarded: bool)
    ensures Interleave(s, lists, [a] + rest, guarded) == Interleave(Act(s, lists, a, guarded), lists, rest, guarded)
  {
    assert ([a] + rest)[1..] == rest;
  }

  /** The overlapping example, one action at a time. */
  lemma ExampleFirstCompletion()
    ensures Interleave(State(map[], [ExamplePending, ExamplePending]), NoLists, [PhishingCompletion], false)
            == State(map[ExampleUrl := Dangerous], [ExamplePending])
  {
    ExampleVerdicts();
    InterleaveSingle(State(map[], [ExamplePending, ExamplePending]), NoLists, PhishingCompletion, false);
  }

  lemma ExampleSecondStart()
    ensures Interleave(State(map[], [ExamplePending]), NoLists, [FirstStart, PhishingCompletion], false)
            == State(map[ExampleUrl := Dangerous], [ExamplePending])
  {
    ExampleSuspends();
    assert Act(State(map[], [ExamplePending]), NoLists, FirstStart, false) == State(map[], [ExamplePending, ExamplePending]);
    InterleaveCons(State(map[], [ExamplePending]), NoLists, FirstStart, [PhishingCompletion], false);
    ExampleFirstCompletion();
  }

  lemma ExampleFirstStart()
    ensures Interleave(State(map[], []), NoLists, [FirstStart, FirstStart, PhishingCompletion], false)
            == State(map[ExampleUrl := Dangerous], [ExamplePending])
  {
    ExampleSuspends();
    assert Act(State(map[], []), NoLists, FirstStart, false) == State(map[], [ExamplePending]);
    InterleaveCons(State(map[], []), NoLists, FirstStart, [FirstStart, PhishingCompletion], false);
    assert [FirstStart] + [FirstStart, PhishingCompletion] == [FirstStart, FirstStart, PhishingCompletion];
    ExampleSecondStart();
  }

  lemma ExampleSecondCompletion()
    ensures Interleave(State(map[ExampleUrl := Dangerous], [ExamplePending]), NoLists, [BenignCompletion], false)
            == State(map[ExampleUrl := Suspicious], [])
  {
    ExampleVerdicts();
    InterleaveSingle(State(map[ExampleUrl := Dangerous], [ExamplePending]), NoLists, BenignCompletion, false);
    assert map[ExampleUrl := Dangerous][ExampleUrl := Suspicious] == map[ExampleUrl := Suspicious];
  }

  /** Two runs for the same URL (a second `tabs.onUpdated` event arriving
      while the first run takes its screenshot), completed in order: the
      dangerous verdict the first stores is overwritten by the second, and the
      next visit is no longer redirected. */
  lemma InterleavedRunsOverwriteVerdict()
    ensures var mid := Interleave(State(map[], []), NoLists, [FirstStart, FirstStart, PhishingCompletion], false);
            var last := Interleave(mid, NoLists, [BenignCompletion], false);
            && mid.checked == map[ExampleUrl := Dangerous]
            && last.checked == map[ExampleUrl := Suspicious]
  {
    ExampleFirstStart();
    ExampleSecondCompletion();
  }

  /** With guarded completion, a stored verdict survives every interleaving
      of starts and completions. */
  lemma {:induction false} GuardedRunsKeepVerdicts(s: State, lists: Lists, actions: seq<Action>, url: string)
    requires IsRecorded(s.checked, url)
    ensures var r := Interleave(s, lists, actions, true);
            url in r.checked && r.checked[url] == s.checked[url]
    decreases |actions|
  {
    if actions != [] {
      var next := Act(s, lists, actions[0], true);
      assert IsRecorded(next.checked, url) && next.checked[url] == s.checked[url] by {
        match actions[0]
        case Start(tab, parsed) =>
        case Complete(i, ai) =>
      }
      GuardedRunsKeepVerdicts(next, lists, actions[1..], url);
    }
  }
}
