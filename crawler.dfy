/**
 * The crawl engine (main.py:85-230): for each keyword it walks the site's search pages,
 * looks up the promotions of the items it finds, classifies each promotion once, and
 * writes the matched ones, with the items they apply to, to one file and the others to
 * a second file.
 */
module Crawler {
  import opened Wrappers
  import opened Text
  import opened Records
  import opened Urls
  import opened Classifier
  import opened Listing
  import opened Session
  import opened Output
  import opened Seqs

  /** `Engine._avoid_login_limit` (main.py:91). */
  const AVOID_LOGIN_LIMIT: nat := 10

  /** The keyword search stops before page 10 (main.py:116). */
  const PAGE_LIMIT: nat := 10

  /** The number of items collected for a matched promotion (main.py:169). */
  const PROMOTION_ITEM_LIMIT: nat := 200

  /** How `run` ends: normally, or by an exception that nothing catches. */
  datatype Outcome = Completed | Aborted(fault: Fault)

  /** The classification of a new promotion: its id, its title and the verdict. */
  datatype Decision = Decision(id: string, title: string, matched: bool)

  /** A promotion lookup for an item, and whether it succeeded. */
  datatype Lookup = Lookup(item: string, ok: bool)

  /** The ids of the promotions decided so far: the `promotion_ids` dictionary's keys. */
  function Ids(decided: seq<Decision>): (ids: set<string>)
    ensures forall k :: 0 <= k < |decided| ==> decided[k].id in ids
  {
    if decided == [] then {}
    else
      var init := decided[..|decided| - 1];
      assert forall k :: 0 <= k < |init| ==> init[k] == decided[k];
      Ids(init) + {decided[|decided| - 1].id}
  }

  /** The items whose lookup succeeded: the `processed_item_ids` dictionary's keys. */
  function Processed(lookups: seq<Lookup>): (ids: set<string>)
    ensures forall k :: 0 <= k < |lookups| && lookups[k].ok ==> lookups[k].item in ids
  {
    if lookups == [] then {}
    else
      var init := lookups[..|lookups| - 1];
      var last := lookups[|lookups| - 1];
      assert forall k :: 0 <= k < |init| ==> init[k] == lookups[k];
      Processed(init) + (if last.ok then {last.item} else {})
  }

  /** Every decision is about a promotion that had not been decided before it. */
  ghost predicate DecidedOnce(decided: seq<Decision>) {
    forall k :: 0 <= k < |decided| ==> decided[k].id !in Ids(decided[..k])
  }

  /** No item is looked up again once one of its lookups has succeeded. */
  ghost predicate LookedUpUntilSuccess(lookups: seq<Lookup>) {
    forall k :: 0 <= k < |lookups| ==> lookups[k].item !in Processed(lookups[..k])
  }

  /** No two decisions are about the same promotion. */
  lemma DecidedDistinct(decided: seq<Decision>, i: nat, j: nat)
    requires DecidedOnce(decided) && i < j < |decided|
    ensures decided[i].id != decided[j].id
  {
    assert decided[..j][i] == decided[i];
  }

  /** After a successful lookup of an item, no later lookup is about that item. */
  lemma NoLookupAfterSuccess(lookups: seq<Lookup>, i: nat, j: nat)
    requires LookedUpUntilSuccess(lookups) && i < j < |lookups| && lookups[i].ok
    ensures lookups[j].item != lookups[i].item
  {
    assert lookups[..j][i] == lookups[i];
  }

  lemma DecidedAppend(decided: seq<Decision>, d: Decision)
    requires DecidedOnce(decided) && d.id !in Ids(decided)
    ensures Ids(decided + [d]) == Ids(decided) + {d.id}
    ensures DecidedOnce(decided + [d])
  {
    var all := decided + [d];
    assert all[..|all| - 1] == decided;
    forall k | 0 <= k < |all|
      ensures all[k].id !in Ids(all[..k])
    {
      if k < |decided| {
        assert all[..k] == decided[..k] && all[k] == decided[k];
      } else {
        assert all[..k] == decided && all[k] == d;
      }
    }
  }

  lemma LookupAppend(lookups: seq<Lookup>, l: Lookup)
    requires LookedUpUntilSuccess(lookups) && l.item !in Processed(lookups)
    ensures Processed(lookups + [l]) == Processed(lookups) + (if l.ok then {l.item} else {})
    ensures LookedUpUntilSuccess(lookups + [l])
  {
    var all := lookups + [l];
    assert all[..|all| - 1] == lookups;
    forall k | 0 <= k < |all|
      ensures all[k].item !in Processed(all[..k])
    {
      if k < |lookups| {
        assert all[..k] == lookups[..k] && all[k] == lookups[k];
      } else {
        assert all[..k] == lookups && all[k] == l;
      }
    }
  }

  /**
   * The ids of the decisions with verdict `m`, in order: the promotions that go to
   * `match.txt` (`m`) or to `unmatch.txt` (`!m`).
   */
  function DecidedIds(decided: seq<Decision>, m: bool): seq<string> {
    if decided == [] then []
    else
      var last := decided[|decided| - 1];
      DecidedIds(decided[..|decided| - 1], m) + (if last.matched == m then [last.id] else [])
  }

  lemma DecidedIdsAppend(decided: seq<Decision>, d: Decision, m: bool)
    ensures DecidedIds(decided + [d], m) == DecidedIds(decided, m) + (if d.matched == m then [d.id] else [])
  {
    assert (decided + [d])[..|decided|] == decided;
  }

  /** The ids of the promotions a file holds, in order. */
  function WrittenIds(written: seq<Promotion>): (ids: seq<string>)
    ensures |ids| == |written| && forall k :: 0 <= k < |written| ==> ids[k] == written[k].id
  {
    seq(|written|, k requires 0 <= k < |written| => written[k].id)
  }

  lemma WrittenIdsAppend(written: seq<Promotion>, p: Promotion)
    ensures WrittenIds(written + [p]) == WrittenIds(written) + [p.id]
  {
  }

  /** Every id with a verdict is the id of a decision. */
  lemma {:induction false} DecidedIdsDecided(decided: seq<Decision>, m: bool)
    ensures forall x :: x in DecidedIds(decided, m) ==> x in Ids(decided)
  {
    if decided != [] {
      DecidedIdsDecided(decided[..|decided| - 1], m);
    }
  }

  /**
   * Each promotion is decided at most once, so it has at most one verdict: the ids of
   * each verdict are distinct, and no id has both.
   */
  lemma {:induction false} DecidedIdsOnce(decided: seq<Decision>)
    requires DecidedOnce(decided)
    ensures forall i, j :: 0 <= i < j < |DecidedIds(decided, true)| ==> DecidedIds(decided, true)[i] != DecidedIds(decided, true)[j]
    ensures forall i, j :: 0 <= i < j < |DecidedIds(decided, false)| ==> DecidedIds(decided, false)[i] != DecidedIds(decided, false)[j]
    ensures forall x :: x in DecidedIds(decided, true) ==> x !in DecidedIds(decided, false)
  {
    if decided != [] {
      var init, last := decided[..|decided| - 1], decided[|decided| - 1];
      forall k | 0 <= k < |init|
        ensures init[k].id !in Ids(init[..k])
      {
        assert init[..k] == decided[..k] && init[k] == decided[k];
      }
      DecidedIdsOnce(init);
      DecidedIdsDecided(init, true);
      DecidedIdsDecided(init, false);
      assert last.id !in Ids(init);
    }
  }

  /** `match.txt` and `unmatch.txt` hold the promotions decided with their verdict, in order. */
  ghost predicate FilesMatch(decided: seq<Decision>, matchFile: seq<Promotion>, unmatchFile: seq<Promotion>) {
    WrittenIds(matchFile) == DecidedIds(decided, true) && WrittenIds(unmatchFile) == DecidedIds(decided, false)
  }

  /**
   * The files hold the promotions decided with their verdict, in order, but for the last
   * promotion decided, which was matched and is missing from `match.txt`.
   */
  ghost predicate MatchMissing(decided: seq<Decision>, matchFile: seq<Promotion>, unmatchFile: seq<Promotion>) {
    && decided != [] && decided[|decided| - 1].matched
    && WrittenIds(matchFile) == DecidedIds(decided[..|decided| - 1], true)
    && WrittenIds(unmatchFile) == DecidedIds(decided, false)
  }

  /**
   * Deciding `d` and then writing its promotion `p` to the file of its verdict keeps the
   * files in step with the decisions; a matched `d` left unwritten is the one missing.
   */
  lemma FilesMatchAppend(decided: seq<Decision>, d: Decision, matchFile: seq<Promotion>, unmatchFile: seq<Promotion>, p: Promotion)
    requires FilesMatch(decided, matchFile, unmatchFile) && p.id == d.id
    ensures d.matched ==> FilesMatch(decided + [d], matchFile + [p], unmatchFile)
    ensures d.matched ==> MatchMissing(decided + [d], matchFile, unmatchFile)
    ensures !d.matched ==> FilesMatch(decided + [d], matchFile, unmatchFile + [p])
  {
    DecidedIdsAppend(decided, d, true);
    DecidedIdsAppend(decided, d, false);
    WrittenIdsAppend(matchFile, p);
    WrittenIdsAppend(unmatchFile, p);
    assert (decided + [d])[..|decided|] == decided;
  }

  /** When the last matched promotion is missing, `match.txt` holds the first of those decided matched. */
  lemma MatchMissingPrefix(decided: seq<Decision>, matchFile: seq<Promotion>, unmatchFile: seq<Promotion>)
    requires MatchMissing(decided, matchFile, unmatchFile)
    ensures WrittenIds(matchFile) <= DecidedIds(decided, true)
  {
    var init, last := decided[..|decided| - 1], decided[|decided| - 1];
    assert decided == init + [last];
    DecidedIdsAppend(init, last, true);
  }

  /**
   * A promotion is written at most once in a run: when `unmatch.txt` holds the promotions
   * decided unmatched and `match.txt` the first of those decided matched, no id appears
   * twice in a file, nor in both files.
   */
  lemma WrittenOnce(decided: seq<Decision>, matchFile: seq<Promotion>, unmatchFile: seq<Promotion>)
    requires DecidedOnce(decided)
    requires WrittenIds(matchFile) <= DecidedIds(decided, true) && WrittenIds(unmatchFile) == DecidedIds(decided, false)
    ensures forall i, j :: 0 <= i < j < |matchFile| ==> matchFile[i].id != matchFile[j].id
    ensures forall i, j :: 0 <= i < j < |unmatchFile| ==> unmatchFile[i].id != unmatchFile[j].id
    ensures forall i, j :: 0 <= i < |matchFile| && 0 <= j < |unmatchFile| ==> matchFile[i].id != unmatchFile[j].id
  {
    DecidedIdsOnce(decided);
    var m, u := WrittenIds(matchFile), WrittenIds(unmatchFile);
    forall i, j | 0 <= i < j < |matchFile|
      ensures matchFile[i].id != matchFile[j].id
    {
      assert m[i] == DecidedIds(decided, true)[i] && m[j] == DecidedIds(decided, true)[j];
    }
    forall i, j | 0 <= i < |matchFile| && 0 <= j < |unmatchFile|
      ensures matchFile[i].id != unmatchFile[j].id
    {
      assert m[i] == DecidedIds(decided, true)[i] && u[j] in DecidedIds(decided, false);
    }
  }

  /**
   * The decisions the loop over an item's promotions makes when `seen` holds the ids
   * decided before: one per promotion whose id is neither empty nor seen before, in order.
   */
  function NewDecisions(criterias: seq<string>, promos: seq<Promotion>, seen: set<string>): seq<Decision> {
    if promos == [] then []
    else if promos[0].id == [] || promos[0].id in seen then NewDecisions(criterias, promos[1..], seen)
    else [Decision(promos[0].id, promos[0].title, Classify(criterias, promos[0].title))]
         + NewDecisions(criterias, promos[1..], seen + {promos[0].id})
  }

  /** Each new decision is the verdict on one of the promotions, whose id was neither empty nor seen. */
  lemma {:induction false} NewDecisionsFrom(criterias: seq<string>, promos: seq<Promotion>, seen: set<string>, k: nat)
    requires k < |NewDecisions(criterias, promos, seen)|
    ensures exists i :: 0 <= i < |promos| && promos[i].id != [] && promos[i].id !in seen
                        && NewDecisions(criterias, promos, seen)[k] == Decision(promos[i].id, promos[i].title, Classify(criterias, promos[i].title))
  {
    var ds := NewDecisions(criterias, promos, seen);
    var p := promos[0];
    if p.id == [] || p.id in seen {
      NewDecisionsFrom(criterias, promos[1..], seen, k);
      var i :| 0 <= i < |promos[1..]| && promos[1..][i].id != [] && promos[1..][i].id !in seen
               && ds[k] == Decision(promos[1..][i].id, promos[1..][i].title, Classify(criterias, promos[1..][i].title));
      assert promos[i + 1] == promos[1..][i];
    } else if k == 0 {
      assert ds[0] == Decision(p.id, p.title, Classify(criterias, p.title));
    } else {
      var rest := NewDecisions(criterias, promos[1..], seen + {p.id});
      assert ds[k] == rest[k - 1];
      NewDecisionsFrom(criterias, promos[1..], seen + {p.id}, k - 1);
      var i :| 0 <= i < |promos[1..]| && promos[1..][i].id != [] && promos[1..][i].id !in seen + {p.id}
               && rest[k - 1] == Decision(promos[1..][i].id, promos[1..][i].title, Classify(criterias, promos[1..][i].title));
      assert promos[i + 1] == promos[1..][i];
    }
  }

  /** Every promotion whose id is neither empty nor seen is decided. */
  lemma {:induction false} NewDecisionsCover(criterias: seq<string>, promos: seq<Promotion>, seen: set<string>, i: nat)
    requires i < |promos| && promos[i].id != [] && promos[i].id !in seen
    ensures exists k :: 0 <= k < |NewDecisions(criterias, promos, seen)| && NewDecisions(criterias, promos, seen)[k].id == promos[i].id
  {
    var ds := NewDecisions(criterias, promos, seen);
    var p := promos[0];
    if p.id == [] || p.id in seen {
      assert promos[1..][i - 1] == promos[i];
      NewDecisionsCover(criterias, promos[1..], seen, i - 1);
    } else if p.id == promos[i].id {
      assert ds[0].id == promos[i].id;
    } else {
      var rest := NewDecisions(criterias, promos[1..], seen + {p.id});
      assert promos[1..][i - 1] == promos[i];
      NewDecisionsCover(criterias, promos[1..], seen + {p.id}, i - 1);
      var k :| 0 <= k < |rest| && rest[k].id == promos[i].id;
      assert ds[k + 1] == rest[k];
    }
  }

  /** The items of pages read one after the other. */
  function Concat(pages: seq<seq<Item>>): (items: seq<Item>)
    ensures forall k :: 0 <= k < |pages| ==> |pages[k]| <= |items|
  {
    if pages == [] then []
    else
      var init := pages[..|pages| - 1];
      assert forall k :: 0 <= k < |init| ==> init[k] == pages[k];
      Concat(init) + pages[|pages| - 1]
  }

  /**
   * The URLs requested to read `pages` from the search at `base`: page k + 1 (counted from
   * 1) carries the paging suffix for the number of items on the pages before it.
   */
  function PagedUrls(base: string, pages: seq<seq<Item>>): (urls: seq<string>)
    ensures |urls| == |pages|
  {
    seq(|pages|, k requires 0 <= k < |pages| => base + PageSuffix(k + 1, |Concat(pages[..k])|))
  }

  lemma PagedUrlsAppend(base: string, pages: seq<seq<Item>>, page: seq<Item>)
    ensures PagedUrls(base, pages + [page]) == PagedUrls(base, pages) + [base + PageSuffix(|pages| + 1, |Concat(pages)|)]
  {
    var all := pages + [page];
    var urls, more := PagedUrls(base, pages), PagedUrls(base, all);
    forall k | 0 <= k < |pages|
      ensures more[k] == urls[k]
    {
      assert all[..k] == pages[..k];
    }
    assert all[..|pages|] == pages;
    assert more[|pages|] == base + PageSuffix(|pages| + 1, |Concat(pages)|);
  }

  /**
   * The pages of a keyword search are requested at the search URL of the keyword for
   * that page, `offset` being the number of items on the pages before it.
   */
  lemma KeywordPageUrls(keyword: string, pages: seq<seq<Item>>, k: nat)
    requires k < |pages|
    ensures PagedUrls(SearchBase(keyword), pages)[k] == SearchUrl(keyword, k + 1, |Concat(pages[..k])|)
    ensures Split(PagedUrls(SearchBase(keyword), pages)[k], '&')
            == if k == 0 then [SearchBase(keyword)]
               else [SearchBase(keyword), "s=" + NatToDecimal(|Concat(pages[..k])| + 1), "page=" + NatToDecimal(k + 1)]
  {
    SearchUrlFields(keyword, k + 1, |Concat(pages[..k])|);
  }

  /**
   * The outcome of `_get_items_by_search_url`'s retry loop from trial `trial` (counted from
   * 0), its first request being request number `at`: the response it reads items from,
   * the number of the next request and the number of trials made in all.
   */
  datatype Walk = Walk(page: Option<Body>, next: nat, trials: nat)

  /**
   * A login page is read from only after the limit of trials, every one of them having
   * shown a login page; before that the loop stops at the first response that is not a
   * login page, or at a request that failed ten times (whose `.text` then raises).
   */
  function LoginWalk(w: Script, at: nat, trial: nat): (r: Walk)
    requires trial < AVOID_LOGIN_LIMIT
    ensures trial < r.trials <= AVOID_LOGIN_LIMIT
    ensures r.trials < AVOID_LOGIN_LIMIT ==> !LoginPage(r.page)
    ensures at < r.next
    decreases AVOID_LOGIN_LIMIT - trial, 1
  {
    WalkOn(w, Fetch(w, at), at + Attempts(w, at), trial)
  }

  /** The walk once trial `trial` has received `resp`, the next request being number `next`. */
  function WalkOn(w: Script, resp: Option<Body>, next: nat, trial: nat): (r: Walk)
    requires trial < AVOID_LOGIN_LIMIT
    ensures trial < r.trials <= AVOID_LOGIN_LIMIT
    ensures r.trials < AVOID_LOGIN_LIMIT ==> !LoginPage(r.page)
    ensures next <= r.next
    decreases AVOID_LOGIN_LIMIT - trial, 0
  {
    if !LoginPage(resp) || trial + 1 == AVOID_LOGIN_LIMIT then Walk(resp, next, trial + 1)
    else LoginWalk(w, next, trial + 1)
  }

  /** One trial of the walk: it stops, or goes on from the next request with the next trial. */
  lemma LoginWalkStep(w: Script, at: nat, trial: nat)
    requires trial < AVOID_LOGIN_LIMIT
    ensures LoginWalk(w, at, trial) == WalkOn(w, Fetch(w, at), at + Attempts(w, at), trial)
  {
  }

  /** Whether a response is a login page. */
  predicate LoginPage(resp: Option<Body>) {
    resp.Some? && resp.value.hasLoginForm
  }

  /** The first request of each trial of the walk from trial `trial` at request `at`. */
  ghost function TrialStarts(w: Script, at: nat, trial: nat): (s: seq<nat>)
    requires trial < AVOID_LOGIN_LIMIT
    ensures 1 <= |s| <= AVOID_LOGIN_LIMIT - trial && s[0] == at
    decreases AVOID_LOGIN_LIMIT - trial
  {
    if !LoginPage(Fetch(w, at)) || trial + 1 == AVOID_LOGIN_LIMIT then [at]
    else [at] + TrialStarts(w, at + Attempts(w, at), trial + 1)
  }

  /** A trial that gets a login page before the tenth is followed by the next trial. */
  lemma LoginWalkGoesOn(w: Script, at: nat, trial: nat)
    requires trial + 1 < AVOID_LOGIN_LIMIT && LoginPage(Fetch(w, at))
    ensures LoginWalk(w, at, trial) == LoginWalk(w, at + Attempts(w, at), trial + 1)
    ensures TrialStarts(w, at, trial) == [at] + TrialStarts(w, at + Attempts(w, at), trial + 1)
  {
    LoginWalkStep(w, at, trial);
  }

  /** Any other trial is the walk's last. */
  lemma LoginWalkStops(w: Script, at: nat, trial: nat)
    requires trial < AVOID_LOGIN_LIMIT && (!LoginPage(Fetch(w, at)) || trial + 1 == AVOID_LOGIN_LIMIT)
    ensures LoginWalk(w, at, trial) == Walk(Fetch(w, at), at + Attempts(w, at), trial + 1)
    ensures TrialStarts(w, at, trial) == [at]
  {
    LoginWalkStep(w, at, trial);
  }

  /** The walk ends with its last trial's response, the next request following that trial's. */
  lemma {:induction false} LoginWalkLast(w: Script, at: nat, trial: nat)
    requires trial < AVOID_LOGIN_LIMIT
    ensures |TrialStarts(w, at, trial)| == LoginWalk(w, at, trial).trials - trial
    ensures LoginWalk(w, at, trial).page == Fetch(w, Last(TrialStarts(w, at, trial)))
    ensures LoginWalk(w, at, trial).next == Last(TrialStarts(w, at, trial)) + Attempts(w, Last(TrialStarts(w, at, trial)))
    decreases AVOID_LOGIN_LIMIT - trial, 1
  {
    if LoginPage(Fetch(w, at)) && trial + 1 < AVOID_LOGIN_LIMIT {
      LoginWalkLastOn(w, at, trial);
    } else {
      LoginWalkStops(w, at, trial);
    }
  }

  /** `LoginWalkLast` for a trial that gets a login page before the tenth. */
  lemma {:induction false} LoginWalkLastOn(w: Script, at: nat, trial: nat)
    requires trial + 1 < AVOID_LOGIN_LIMIT && LoginPage(Fetch(w, at))
    ensures |TrialStarts(w, at, trial)| == LoginWalk(w, at, trial).trials - trial
    ensures LoginWalk(w, at, trial).page == Fetch(w, Last(TrialStarts(w, at, trial)))
    ensures LoginWalk(w, at, trial).next == Last(TrialStarts(w, at, trial)) + Attempts(w, Last(TrialStarts(w, at, trial)))
    decreases AVOID_LOGIN_LIMIT - trial, 0
  {
    var next := at + Attempts(w, at);
    LoginWalkGoesOn(w, at, trial);
    LoginWalkLast(w, next, trial + 1);
    assert Last([at] + TrialStarts(w, next, trial + 1)) == Last(TrialStarts(w, next, trial + 1));
  }

  /** The last element of a non-empty sequence. */
  function Last(s: seq<nat>): nat
    requires s != []
  {
    s[|s| - 1]
  }

  /**
   * The walk stops at the first trial that does not get a login page, or at the tenth:
   * every trial before its last got a login page, and was followed right away by the next.
   */
  lemma {:induction false} LoginWalkLogins(w: Script, at: nat, trial: nat, k: nat)
    requires trial < AVOID_LOGIN_LIMIT && k < |TrialStarts(w, at, trial)| - 1
    ensures LoginPage(Fetch(w, TrialStarts(w, at, trial)[k]))
    ensures TrialStarts(w, at, trial)[k + 1] == TrialStarts(w, at, trial)[k] + Attempts(w, TrialStarts(w, at, trial)[k])
    decreases AVOID_LOGIN_LIMIT - trial
  {
    var s := TrialStarts(w, at, trial);
    var next := at + Attempts(w, at);
    assert LoginPage(Fetch(w, at)) && trial + 1 < AVOID_LOGIN_LIMIT;
    var rest := TrialStarts(w, next, trial + 1);
    assert s == [at] + rest;
    if k == 0 {
      assert s[1] == rest[0];
    } else {
      LoginWalkLogins(w, next, trial + 1, k - 1);
      assert s[k] == rest[k - 1] && s[k + 1] == rest[k];
    }
  }

  /** `_collect_items_from_search_result(r.text)` on the response read, or the exception. */
  ghost predicate ReadsPage(page: Option<Body>, r: Result<seq<Item>, Fault>) {
    match page
    case None => r == Err(NoResponse)
    case Some(body) =>
      && (r.Ok? <==> forall k :: 0 <= k < |body.goods| ==> ParseEntry(body.goods[k]).Ok?)
      && (r.Ok? ==> r.value == Items(body.goods))
  }

  /**
   * A page read by `_get_items_by_search_url`: the URL requested, the number of the
   * walk's first request, the walk and the items read from the page it ended on.
   */
  datatype PageRead = PageRead(url: string, start: nat, walk: Walk, items: seq<Item>)

  /**
   * The site gave `rd`: its walk is the login walk from request `rd.start`, every request
   * of that walk was for `rd.url`, and the items are those of the page the walk ended on.
   */
  ghost predicate ReadFromSite(w: Script, requests: seq<string>, rd: PageRead) {
    && rd.walk == LoginWalk(w, rd.start, 0)
    && ReadsPage(rd.walk.page, Ok(rd.items))
    && rd.walk.next <= |requests|
    && requests[rd.start..rd.walk.next] == Repeat(rd.url, rd.walk.next - rd.start)
  }

  /** The items of each page read. */
  function PagesOf(visited: seq<PageRead>): (pages: seq<seq<Item>>)
    ensures |pages| == |visited| && forall k :: 0 <= k < |visited| ==> pages[k] == visited[k].items
  {
    seq(|visited|, k requires 0 <= k < |visited| => visited[k].items)
  }

  /** The URL of each page read. */
  function UrlsOf(visited: seq<PageRead>): (urls: seq<string>)
    ensures |urls| == |visited| && forall k :: 0 <= k < |visited| ==> urls[k] == visited[k].url
  {
    seq(|visited|, k requires 0 <= k < |visited| => visited[k].url)
  }

  /** Every page of `visited` was read from the site. */
  ghost predicate ReadAll(w: Script, requests: seq<string>, visited: seq<PageRead>) {
    forall k {:trigger ReadFromSite(w, requests, visited[k])} ::
      0 <= k < |visited| ==> ReadFromSite(w, requests, visited[k])
  }

  /**
   * `visited` are the pages of the search at `base`, in order: each was read from the site
   * at the search's URL for that page, and every page but the last had items.
   */
  ghost predicate SearchedPages(w: Script, requests: seq<string>, base: string, visited: seq<PageRead>) {
    && ReadAll(w, requests, visited)
    && UrlsOf(visited) == PagedUrls(base, PagesOf(visited))
    && forall k :: 0 <= k < |visited| - 1 ==> visited[k].items != []
  }

  /** Later requests leave the pages read unchanged. */
  lemma ReadAllLater(w: Script, requests: seq<string>, later: seq<string>, visited: seq<PageRead>)
    requires ReadAll(w, requests, visited) && requests <= later
    ensures ReadAll(w, later, visited)
  {
    forall k | 0 <= k < |visited|
      ensures ReadFromSite(w, later, visited[k])
    {
      assert ReadFromSite(w, requests, visited[k]);
      SliceOfPrefix(requests, later, visited[k].start, visited[k].walk.next);
    }
  }

  lemma SearchedPagesLater(w: Script, requests: seq<string>, later: seq<string>, base: string, visited: seq<PageRead>)
    requires SearchedPages(w, requests, base, visited) && requests <= later
    ensures SearchedPages(w, later, base, visited)
  {
    ReadAllLater(w, requests, later, visited);
  }

  lemma ReadAllAppend(w: Script, requests: seq<string>, visited: seq<PageRead>, rd: PageRead)
    requires ReadAll(w, requests, visited) && ReadFromSite(w, requests, rd)
    ensures ReadAll(w, requests, visited + [rd])
  {
    var all := visited + [rd];
    forall k | 0 <= k < |all|
      ensures ReadFromSite(w, requests, all[k])
    {
      if k < |visited| {
        assert all[k] == visited[k] && ReadFromSite(w, requests, visited[k]);
      }
    }
  }

  /** The next page of the search is read at the search's URL for that page. */
  lemma PagedUrlsNext(base: string, visited: seq<PageRead>, rd: PageRead)
    requires UrlsOf(visited) == PagedUrls(base, PagesOf(visited))
    requires rd.url == base + PageSuffix(|visited| + 1, |Concat(PagesOf(visited))|)
    ensures UrlsOf(visited + [rd]) == PagedUrls(base, PagesOf(visited + [rd]))
    ensures Concat(PagesOf(visited + [rd])) == Concat(PagesOf(visited)) + rd.items
  {
    PagesOfAppend(visited, rd);
    assert (PagesOf(visited) + [rd.items])[..|PagesOf(visited)|] == PagesOf(visited);
    PagedUrlsAppend(base, PagesOf(visited), rd.items);
    UrlsOfAppend(visited, rd);
  }

  lemma UrlsOfAppend(visited: seq<PageRead>, rd: PageRead)
    ensures UrlsOf(visited + [rd]) == UrlsOf(visited) + [rd.url]
  {
  }

  /** One more page, read at the search's URL for the next page after a page with items. */
  lemma SearchedPagesAppend(w: Script, requests: seq<string>, later: seq<string>, base: string, visited: seq<PageRead>, rd: PageRead)
    requires SearchedPages(w, requests, base, visited) && requests <= later && ReadFromSite(w, later, rd)
    requires rd.url == base + PageSuffix(|visited| + 1, |Concat(PagesOf(visited))|)
    requires visited != [] ==> visited[|visited| - 1].items != []
    ensures SearchedPages(w, later, base, visited + [rd])
    ensures Concat(PagesOf(visited + [rd])) == Concat(PagesOf(visited)) + rd.items
  {
    ReadAllLater(w, requests, later, visited);
    ReadAllAppend(w, later, visited, rd);
    PagedUrlsNext(base, visited, rd);
    FullPagesAppend(visited, rd);
  }

  lemma FullPagesAppend(visited: seq<PageRead>, rd: PageRead)
    requires forall k :: 0 <= k < |visited| - 1 ==> visited[k].items != []
    requires visited != [] ==> visited[|visited| - 1].items != []
    ensures forall k :: 0 <= k < |visited| ==> (visited + [rd])[k].items != []
  {
    var all := visited + [rd];
    forall k | 0 <= k < |visited|
      ensures all[k].items != []
    {
      assert all[k] == visited[k];
    }
  }

  lemma PagesOfAppend(visited: seq<PageRead>, rd: PageRead)
    ensures PagesOf(visited + [rd]) == PagesOf(visited) + [rd.items]
  {
  }

  /** The number of the request after the last read, `start` when there is none. */
  function End(start: nat, visited: seq<PageRead>): nat {
    if visited == [] then start else visited[|visited| - 1].walk.next
  }

  /** Each read begins where the one before it ended, the first at request `start`. */
  ghost predicate Contiguous(start: nat, visited: seq<PageRead>) {
    && (visited != [] ==> visited[0].start == start)
    && forall k :: 0 < k < |visited| ==> visited[k].start == visited[k - 1].walk.next
  }

  /**
   * The state of `_get_items_in_promotion` between two pages: it read `visited` from the
   * search at `url`, one right after the other from request `start`, every one with items.
   */
  ghost predicate Progress(w: Script, requests: seq<string>, start: nat, url: string, visited: seq<PageRead>) {
    && SearchedPages(w, requests, url, visited)
    && Contiguous(start, visited)
    && |requests| == End(start, visited)
    && forall k :: 0 <= k < |visited| ==> visited[k].items != []
  }

  lemma ContiguousAppend(start: nat, visited: seq<PageRead>, rd: PageRead)
    requires Contiguous(start, visited) && rd.start == End(start, visited)
    ensures Contiguous(start, visited + [rd])
  {
    var all := visited + [rd];
    forall k | 0 < k < |all|
      ensures all[k].start == all[k - 1].walk.next
    {
      if k < |visited| {
        assert all[k] == visited[k] && all[k - 1] == visited[k - 1];
      }
    }
  }

  lemma InOrderAppend(start: nat, visited: seq<PageRead>, rd: PageRead)
    requires InOrder(start, visited) && End(start, visited) <= rd.start
    requires visited == [] ==> rd.start == start
    ensures InOrder(start, visited + [rd])
  {
    var all := visited + [rd];
    forall k | 0 < k < |all|
      ensures all[k - 1].walk.next <= all[k].start
    {
      if k < |visited| {
        assert all[k] == visited[k] && all[k - 1] == visited[k - 1];
      }
    }
  }

  /**
   * The state of a keyword's search before it reads page `page`: the pages before it
   * were read from request `start` on, in order, at the search's URLs, all with items.
   */
  ghost predicate KeywordProgress(w: Script, requests: seq<string>, start: nat, base: string,
                                  visited: seq<PageRead>, page: nat, offset: nat) {
    && SearchedPages(w, requests, base, visited) && InOrder(start, visited)
    && (forall k :: 0 <= k < |visited| ==> visited[k].items != [])
    && page == |visited| + 1 && offset == |Concat(PagesOf(visited))|
    && start <= |requests| && End(start, visited) <= |requests|
    && (visited == [] ==> |requests| == start)
    && (visited != [] ==> start < |requests| && requests[start] == base)
  }

  /** Later requests leave a keyword's search where it was. */
  lemma KeywordLater(w: Script, requests: seq<string>, later: seq<string>, start: nat, base: string,
                     visited: seq<PageRead>, page: nat, offset: nat)
    requires KeywordProgress(w, requests, start, base, visited, page, offset) && visited != [] && requests <= later
    ensures KeywordProgress(w, later, start, base, visited, page, offset)
    ensures |visited| < PAGE_LIMIT ==> Crawled(w, later, start, base, visited)
  {
    SearchedPagesLater(w, requests, later, base, visited);
  }

  /**
   * What a keyword's search read: fewer than ten pages, from request `start` on, in order,
   * at the search's URLs, every page but the last with items; and its first request was
   * for the search's first page.
   */
  ghost predicate Crawled(w: Script, requests: seq<string>, start: nat, base: string, visited: seq<PageRead>) {
    && |visited| < PAGE_LIMIT
    && SearchedPages(w, requests, base, visited) && InOrder(start, visited)
    && start < |requests| && requests[start] == base
  }

  /**
   * A keyword's search that read `visited` from request `start` on raised `fault` reading
   * its next page, a page before the tenth, from request `at` on.
   */
  ghost predicate SearchRaised(w: Script, requests: seq<string>, start: nat, base: string,
                               visited: seq<PageRead>, at: nat, fault: Fault) {
    && |visited| < PAGE_LIMIT - 1 && End(start, visited) <= at
    && ReadFailed(w, requests, at, base + PageSuffix(|visited| + 1, |Concat(PagesOf(visited))|), fault)
  }

  /**
   * A keyword's search reads its next page `rd` from request `|requests|` on, all of whose
   * requests are for that page's URL: what it read so far stays read, and so does `rd`
   * when the read succeeded.
   */
  lemma KeywordRead(w: Script, requests: seq<string>, later: seq<string>, start: nat, base: string,
                    visited: seq<PageRead>, page: nat, offset: nat, rd: PageRead)
    requires KeywordProgress(w, requests, start, base, visited, page, offset) && page < PAGE_LIMIT
    requires requests < later && rd.start == |requests| && rd.walk.next == |later|
    requires rd.url == base + PageSuffix(page, offset)
    requires later[rd.start..rd.walk.next] == Repeat(rd.url, rd.walk.next - rd.start)
    ensures Crawled(w, later, start, base, visited)
    ensures ReadFromSite(w, later, rd) ==> Crawled(w, later, start, base, visited + [rd])
    ensures ReadFromSite(w, later, rd) && rd.items != [] ==>
              KeywordProgress(w, later, start, base, visited + [rd], page + 1, offset + |rd.items|)
  {
    SearchedPagesLater(w, requests, later, base, visited);
    assert later[start] == base by {
      if visited == [] {
        assert later[rd.start..rd.walk.next][0] == base;
      } else {
        assert requests[start] == base;
      }
    }
    if ReadFromSite(w, later, rd) {
      SearchedPagesAppend(w, requests, later, base, visited, rd);
      InOrderAppend(start, visited, rd);
      var all := visited + [rd];
      forall k | 0 <= k < |all|
        ensures all[k].items != [] || k == |visited|
      {
        if k < |visited| {
          assert all[k] == visited[k];
        }
      }
    }
  }

  /** `_get_items_in_promotion` returns all the items read when it reaches an empty page. */
  lemma CollectedAtEmpty(w: Script, requests: seq<string>, start: nat, url: string, maxCount: nat,
                         before: seq<PageRead>, rd: PageRead, lst: seq<Item>)
    requires SearchedPages(w, requests, url, before + [rd]) && Contiguous(start, before + [rd])
    requires |requests| == End(start, before + [rd])
    requires rd.items == [] && lst == Concat(PagesOf(before)) && Concat(PagesOf(before + [rd])) == lst
    requires |lst| < maxCount || lst == []
    ensures Collected(w, requests, start, url, maxCount, before + [rd], Ok(lst))
  {
    assert (before + [rd])[..|before|] == before;
  }

  /** `_get_items_in_promotion` returns the first `max(max_count, 1)` items read once it has them. */
  lemma CollectedAtCap(w: Script, requests: seq<string>, start: nat, url: string, maxCount: nat,
                       before: seq<PageRead>, rd: PageRead, had: seq<Item>, lst: seq<Item>)
    requires SearchedPages(w, requests, url, before + [rd]) && Contiguous(start, before + [rd])
    requires |requests| == End(start, before + [rd])
    requires had == Concat(PagesOf(before)) && Concat(PagesOf(before + [rd])) == had + rd.items
    requires |had| < |lst| <= |had| + |rd.items| && lst == had + rd.items[..|lst| - |had|]
    requires maxCount <= |lst| <= Cap(maxCount)
    ensures Collected(w, requests, start, url, maxCount, before + [rd], Ok(lst))
  {
    PrefixOfAppend(had, rd.items, |lst| - |had|);
    assert (before + [rd])[..|before|] == before;
  }

  /**
   * The state of `_get_items_in_promotion` before it reads page `page`: the pages before it
   * were read one right after the other from request `start`, every one with items, and
   * all their items were kept, fewer than `max_count` of them.
   */
  ghost predicate Gathering(w: Script, requests: seq<string>, start: nat, url: string, maxCount: nat,
                            visited: seq<PageRead>, page: nat, offset: nat, lst: seq<Item>) {
    && Progress(w, requests, start, url, visited)
    && page == |visited| + 1 && offset == |Concat(PagesOf(visited))| && lst == Concat(PagesOf(visited))
    && (|lst| < maxCount || lst == [])
  }

  /** The pages come in order, the first at request `start`; other requests may come between. */
  ghost predicate InOrder(start: nat, visited: seq<PageRead>) {
    && (visited != [] ==> visited[0].start == start)
    && forall k :: 0 < k < |visited| ==> visited[k - 1].walk.next <= visited[k].start
  }

  /**
   * What `_get_items_in_promotion(url, max_count)` did from request `start`: it read the
   * pages `visited` of the search at `url`, one right after the other. Its result then
   * keeps the items of those pages in order, at most `max(max_count, 1)` of them, and
   * stops early only at an empty last page; or it is the exception raised reading the
   * next page, whose requests were all for that page's URL.
   */
  ghost predicate Collected(w: Script, requests: seq<string>, start: nat, url: string, maxCount: nat,
                            visited: seq<PageRead>, r: Result<seq<Item>, Fault>) {
    && SearchedPages(w, requests, url, visited)
    && Contiguous(start, visited)
    && (r.Ok? ==>
          && visited != [] && |Concat(PagesOf(visited[..|visited| - 1]))| < Cap(maxCount)
          && |requests| == End(start, visited)
          && r.value <= Concat(PagesOf(visited)) && |r.value| <= Cap(maxCount)
          && (|r.value| == Cap(maxCount) || (visited[|visited| - 1].items == [] && r.value == Concat(PagesOf(visited)))))
    && (r.Err? ==>
          && |Concat(PagesOf(visited))| < Cap(maxCount)
          && ReadFailed(w, requests, End(start, visited), url + PageSuffix(|visited| + 1, |Concat(PagesOf(visited))|), r.error))
  }

  /**
   * Reading `url` from request `at` raised `fault`: the login walk from `at` ends in the
   * response that raises it, every request of the walk is for `url`, and none follows.
   */
  ghost predicate ReadFailed(w: Script, requests: seq<string>, at: nat, url: string, fault: Fault) {
    var walk := LoginWalk(w, at, 0);
    && ReadsPage(walk.page, Err(fault)) && |requests| == walk.next
    && requests[at..walk.next] == Repeat(url, walk.next - at)
  }

  /** A promotion of the lookup payload: its id, its title and its item-search URL. */
  function PromotionOf(a: Activity): Promotion {
    Promotion(a.promoId, a.value, ActivityUrl(a.promoId), None)
  }

  /**
   * `_get_promotions` on a response: one promotion per activity, in order; an exception
   * when the request failed or the payload has no `promotion.activity` list.
   */
  function Promotions(response: Option<Body>): (r: Result<seq<Promotion>, Fault>)
    ensures r.Err? <==> response.None? || response.value.activities.None?
    ensures r.Err? ==> r.error == if response.None? then NoResponse else MalformedPayload
    ensures r.Ok? ==> var acts := response.value.activities.value;
                      && |r.value| == |acts|
                      && forall k :: 0 <= k < |acts| ==>
                           && r.value[k].id == acts[k].promoId && r.value[k].title == acts[k].value
                           && r.value[k].url == ActivityUrl(acts[k].promoId) && r.value[k].items.None?
  {
    if response.None? then Err(NoResponse)
    else if response.value.activities.None? then Err(MalformedPayload)
    else
      var acts := response.value.activities.value;
      Ok(seq(|acts|, k requires 0 <= k < |acts| => PromotionOf(acts[k])))
  }

  /** `_get_items_in_promotion` stops after `max_count` items, but always takes the first item. */
  function Cap(maxCount: nat): nat {
    if maxCount == 0 then 1 else maxCount
  }

  /**
   * The inner loop of `_get_items_in_promotion`: append the page's items one by one,
   * stopping as soon as `maxCount` items are kept. At least one item of a non-empty page
   * is kept.
   */
  method Keep(lst: seq<Item>, items: seq<Item>, maxCount: nat) returns (kept: seq<Item>)
    requires |lst| < maxCount || lst == []
    ensures |lst| <= |kept| <= |lst| + |items|
    ensures kept == lst + items[..|kept| - |lst|]
    ensures |kept| <= Cap(maxCount)
    ensures items != [] ==> |lst| < |kept|
    ensures |kept| < maxCount ==> kept == lst + items
  {
    kept := lst;
    var j := 0;
    while j < |items|
      invariant 0 <= j <= |items|
      invariant kept == lst + items[..j]
      invariant j > 0 ==> |kept| < maxCount
    {
      kept := kept + [items[j]];
      j := j + 1;
      assert items[..j] == items[..j - 1] + [items[j - 1]];
      if |kept| >= maxCount {
        return;
      }
    }
    assert items[..j] == items;
  }

  lemma PrefixOfAppend<T>(a: seq<T>, b: seq<T>, n: nat)
    requires n <= |b|
    ensures (a + b)[..|a| + n] == a + b[..n]
  {
  }

  /** The line logged before a promotion is classified (main.py:153). */
  function PromotionLine(p: Promotion): string {
    "> " + p.id + " " + p.title
  }

  /** The line logged before an item's promotions are looked up (main.py:138). */
  function ItemLine(item: Item): string {
    item.id + " " + item.title
  }

  /** Request `at` asked for the first page of the search of `keyword`. */
  ghost predicate SearchStart(requests: seq<string>, keyword: string, at: nat) {
    at < |requests| && requests[at] == SearchBase(keyword)
  }

  /**
   * The search of keyword `order[i]` began with request `starts[i]`, for its first page,
   * the searches following each other in order from request `start`.
   */
  ghost predicate KeywordStarts(requests: seq<string>, start: nat, order: seq<string>, starts: seq<nat>) {
    && |starts| <= |order|
    && (starts != [] ==> starts[0] == start)
    && (forall i :: 0 <= i < |starts| ==> SearchStart(requests, order[i], starts[i]))
    && forall i, j :: 0 <= i < j < |starts| ==> starts[i] < starts[j]
  }

  lemma SearchStartLater(requests: seq<string>, later: seq<string>, keyword: string, at: nat)
    requires SearchStart(requests, keyword, at) && requests <= later
    ensures SearchStart(later, keyword, at)
  {
    assert later[at] == requests[at];
  }

  /** The next search begins after the ones before it, with the request for its first page. */
  lemma KeywordStartsNext(requests: seq<string>, later: seq<string>, start: nat, order: seq<string>, starts: seq<nat>)
    requires KeywordStarts(requests, start, order, starts) && |starts| < |order|
    requires requests < later && later[|requests|] == SearchBase(order[|starts|])
    requires starts == [] ==> |requests| == start
    ensures KeywordStarts(later, start, order, starts + [|requests|])
  {
    StartsAppend(requests, later, order, starts);
    OrderAppend(requests, order, starts);
  }

  lemma StartsAppend(requests: seq<string>, later: seq<string>, order: seq<string>, starts: seq<nat>)
    requires |starts| < |order| && forall i :: 0 <= i < |starts| ==> SearchStart(requests, order[i], starts[i])
    requires requests < later && later[|requests|] == SearchBase(order[|starts|])
    ensures forall i :: 0 <= i <= |starts| ==> SearchStart(later, order[i], (starts + [|requests|])[i])
  {
    var all := starts + [|requests|];
    forall i | 0 <= i < |all|
      ensures SearchStart(later, order[i], all[i])
    {
      if i < |starts| {
        assert all[i] == starts[i] && SearchStart(requests, order[i], starts[i]);
        SearchStartLater(requests, later, order[i], starts[i]);
      } else {
        assert all[i] == |requests| && order[i] == order[|starts|];
      }
    }
  }

  lemma OrderAppend(requests: seq<string>, order: seq<string>, starts: seq<nat>)
    requires |starts| < |order| && forall i :: 0 <= i < |starts| ==> SearchStart(requests, order[i], starts[i])
    requires forall i, j :: 0 <= i < j < |starts| ==> starts[i] < starts[j]
    ensures forall i, j :: 0 <= i < j <= |starts| ==> (starts + [|requests|])[i] < (starts + [|requests|])[j]
  {
    var all := starts + [|requests|];
    forall i, j | 0 <= i < j < |all|
      ensures all[i] < all[j]
    {
      assert all[i] == starts[i] && SearchStart(requests, order[i], starts[i]);
      if j < |starts| {
        assert all[j] == starts[j];
      }
    }
  }

  /**
   * A keyword's search that ran to its end: the pages it read, at least one, and fewer
   * than nine only when the last was empty (main.py:116, 123-125).
   */
  ghost predicate SearchDone(w: Script, requests: seq<string>, start: nat, base: string, visited: seq<PageRead>) {
    && Crawled(w, requests, start, base, visited) && visited != []
    && (|visited| < PAGE_LIMIT - 1 ==> visited[|visited| - 1].items == [])
  }

  /** Later requests leave a finished search as it was. */
  lemma SearchDoneLater(w: Script, requests: seq<string>, later: seq<string>, start: nat, base: string, visited: seq<PageRead>)
    requires SearchDone(w, requests, start, base, visited) && requests <= later
    ensures SearchDone(w, later, start, base, visited)
  {
    SearchedPagesLater(w, requests, later, base, visited);
  }

  /**
   * The searches of the keywords `order[..|searches|]` ran to their end, the search of
   * `order[i]` reading `searches[i]` from request `starts[i]` on.
   */
  ghost predicate SearchesDone(w: Script, requests: seq<string>, order: seq<string>, starts: seq<nat>, searches: seq<seq<PageRead>>) {
    && |searches| <= |starts| <= |order|
    && forall i :: 0 <= i < |searches| ==> SearchDone(w, requests, starts[i], SearchBase(order[i]), searches[i])
  }

  /** Later requests and later keyword starts leave the finished searches as they were. */
  lemma SearchesDoneLater(w: Script, requests: seq<string>, later: seq<string>, order: seq<string>,
                          starts: seq<nat>, starts': seq<nat>, searches: seq<seq<PageRead>>)
    requires SearchesDone(w, requests, order, starts, searches) && requests <= later
    requires starts <= starts' && |starts'| <= |order|
    ensures SearchesDone(w, later, order, starts', searches)
  {
    forall i | 0 <= i < |searches|
      ensures SearchDone(w, later, starts'[i], SearchBase(order[i]), searches[i])
    {
      assert starts'[i] == starts[i];
      SearchDoneLater(w, requests, later, starts[i], SearchBase(order[i]), searches[i]);
    }
  }

  /** A search that ran to its end joins the finished ones. */
  lemma SearchesDoneAppend(w: Script, requests: seq<string>, order: seq<string>, starts: seq<nat>,
                           searches: seq<seq<PageRead>>, visited: seq<PageRead>)
    requires SearchesDone(w, requests, order, starts, searches) && |searches| < |starts|
    requires SearchDone(w, requests, starts[|searches|], SearchBase(order[|searches|]), visited)
    ensures SearchesDone(w, requests, order, starts, searches + [visited])
  {
    var all := searches + [visited];
    forall i | 0 <= i < |all|
      ensures SearchDone(w, requests, starts[i], SearchBase(order[i]), all[i])
    {
      if i < |searches| {
        assert all[i] == searches[i];
      }
    }
  }

  class Engine {
    const env: Env
    /** `config.json`'s "keywords". */
    const keywords: seq<string>
    /** `config.json`'s "criterias". */
    const criterias: seq<string>
    /** `match.txt`. */
    const matched: OutputFile
    /** `unmatch.txt`. */
    const unmatched: OutputFile

    var session: MySession
    /** The keys of `promotion_ids`. */
    var promotionIds: set<string>
    /** The keys of `processed_item_ids`. */
    var processedItemIds: set<string>

    /** Every promotion classified in this run, in order. */
    ghost var decided: seq<Decision>
    /** Every promotion lookup made in this run, in order. */
    ghost var lookups: seq<Lookup>

    /** The promotions decided so far are those of `promotion_ids`, each decided once. */
    ghost predicate PromotionLedger()
      reads this`promotionIds, this`decided
    {
      && promotionIds == Ids(decided)
      && DecidedOnce(decided)
      && forall k :: 0 <= k < |decided| ==> decided[k].id != [] && decided[k].matched == Classify(criterias, decided[k].title)
    }

    /** The items of `processed_item_ids` are those whose lookup succeeded. */
    ghost predicate ItemLedger()
      reads this`processedItemIds, this`lookups
    {
      processedItemIds == Processed(lookups) && LookedUpUntilSuccess(lookups)
    }

    /**
     * The session and the two files are the engine's, the promotion ledger holds, and the
     * files hold only promotions decided with their verdict.
     */
    ghost predicate Sound()
      reads this`session, this`promotionIds, this`decided, matched`lines, matched`written, matched`stamps,
            unmatched`lines, unmatched`written, unmatched`stamps
    {
      session.env == env && matched != unmatched && matched.Valid() && unmatched.Valid() && PromotionLedger()
    }

    ghost predicate Valid()
      reads this`session, this`promotionIds, this`decided, this`processedItemIds, this`lookups,
            matched`lines, matched`written, matched`stamps, unmatched`lines, unmatched`written, unmatched`stamps
    {
      Sound() && ItemLedger()
    }

    /** Each file holds the promotions decided with its verdict, in the order they were decided. */
    ghost predicate FilesAgree()
      reads this`decided, matched`written, unmatched`written
    {
      FilesMatch(decided, matched.written, unmatched.written)
    }

    /**
     * Whatever happened, each file holds the promotions decided with its verdict, in the
     * order they were decided, but for the last one decided when collecting its items raised.
     */
    ghost predicate FilesKept()
      reads this`decided, matched`written, unmatched`written
    {
      FilesMatch(decided, matched.written, unmatched.written) || MatchMissing(decided, matched.written, unmatched.written)
    }

    /**
     * The last promotion decided was matched and is the one decided promotion missing from
     * `match.txt`: collecting its items raised.
     */
    ghost predicate LastMatchUnwritten()
      reads this`decided, matched`written, unmatched`written
    {
      MatchMissing(decided, matched.written, unmatched.written)
    }

    /**
     * How a keyword's search that read `visited` from request `start` on ended: it read
     * them in order from the site (`Crawled`) and the files hold what was decided. When
     * it completed, it read at least one page, and stopped at an empty one unless it read
     * nine; when it raised, either collecting a matched promotion's items did, or reading
     * its next page from request `failedAt` on did.
     */
    ghost predicate SearchEnded(outcome: Outcome, start: nat, base: string, visited: seq<PageRead>, failedAt: nat)
      reads env`requests, this`decided, matched`written, unmatched`written
    {
      && Crawled(env.script, env.requests, start, base, visited) && FilesKept()
      && (outcome.Completed? ==>
            && FilesAgree() && visited != []
            && (|visited| < PAGE_LIMIT - 1 ==> visited[|visited| - 1].items == []))
      && (outcome.Aborted? ==>
            LastMatchUnwritten() || SearchRaised(env.script, env.requests, start, base, visited, failedAt, outcome.fault))
    }

    /** Whatever the outcome, no promotion is twice in a file, nor in both files. */
    lemma WrittenAtMostOnce()
      requires PromotionLedger() && FilesKept()
      ensures forall i, j :: 0 <= i < j < |matched.written| ==> matched.written[i].id != matched.written[j].id
      ensures forall i, j :: 0 <= i < j < |unmatched.written| ==> unmatched.written[i].id != unmatched.written[j].id
      ensures forall i, j :: 0 <= i < |matched.written| && 0 <= j < |unmatched.written| ==>
                matched.written[i].id != unmatched.written[j].id
    {
      if !FilesAgree() {
        MatchMissingPrefix(decided, matched.written, unmatched.written);
      }
      WrittenOnce(decided, matched.written, unmatched.written);
    }

    /** `Engine.__init__`: the output files start empty and a session is opened. */
    constructor (env: Env, keywords: seq<string>, criterias: seq<string>)
      modifies env`sessions
      ensures this.env == env && this.keywords == keywords && this.criterias == criterias
      ensures session.env == env && matched != unmatched && matched.Valid() && unmatched.Valid()
      ensures matched.lines == [] && unmatched.lines == [] && matched.written == [] && unmatched.written == []
      ensures env.sessions == old(env.sessions) + 1
    {
      this.env := env;
      this.keywords := keywords;
      this.criterias := criterias;
      matched := new OutputFile();
      unmatched := new OutputFile();
      session := new MySession(env);
    }

    /** `Engine._reset_session`: a fresh session, so a fresh set of cookies. */
    method ResetSession()
      requires session.env == env
      modifies this`session, env`sessions
      ensures session.env == env
      ensures env.sessions == old(env.sessions) + 1
    {
      session := new MySession(env);
    }

    /**
     * What `_get_items_by_search_url` does after a login page: log it, open a fresh session
     * and wait 60 to 180 seconds.
     */
    method LoginBackOff()
      requires session.env == env
      modifies this`session, env`log, env`sessions, env`draws, env`sleeps
      ensures session.env == env && env.sessions == old(env.sessions) + 1
      ensures env.log == old(env.log) + ["login page is shown, try again"]
      ensures |env.sleeps| == |old(env.sleeps)| + 1 && env.sleeps[..|old(env.sleeps)|] == old(env.sleeps)
      ensures 60 <= env.sleeps[|env.sleeps| - 1] <= 180
    {
      env.Log("login page is shown, try again");
      ResetSession();
      var pause := env.RandInt(60, 180);
      env.Sleep(pause);
    }

    /** The request of trial `trial` of `_get_items_by_search_url`: one step of the walk. */
    method FetchSearchPage(url: string, ghost trial: nat) returns (resp: Option<Body>)
      requires session.env == env && trial < AVOID_LOGIN_LIMIT
      modifies env`log, env`requests, env`sleeps, env`draws
      ensures LoginWalk(env.script, |old(env.requests)|, trial) == WalkOn(env.script, resp, |env.requests|, trial)
      ensures RequestedOnly(old(env.requests), env.requests, url)
    {
      ghost var at := |env.requests|;
      resp := session.Get(url);
      ghost var next := |env.requests|;
      assert resp == Fetch(env.script, at) && next == at + Attempts(env.script, at);
      LoginWalkStep(env.script, at, trial);
    }

    /**
     * Trial `trial` of `_get_items_by_search_url`: fetch the page; on a login page, back
     * off. The walk stops here, or goes on with the next trial.
     */
    method SearchTrial(url: string, ghost trial: nat) returns (resp: Option<Body>, login: bool)
      requires session.env == env && trial < AVOID_LOGIN_LIMIT
      modifies this`session, env`log, env`requests, env`sleeps, env`draws, env`sessions
      ensures session.env == env
      ensures login <==> LoginPage(resp)
      ensures RequestedOnly(old(env.requests), env.requests, url)
      ensures !login || trial + 1 == AVOID_LOGIN_LIMIT ==>
                LoginWalk(env.script, |old(env.requests)|, trial) == Walk(resp, |env.requests|, trial + 1)
      ensures login && trial + 1 < AVOID_LOGIN_LIMIT ==>
                LoginWalk(env.script, |old(env.requests)|, trial) == LoginWalk(env.script, |env.requests|, trial + 1)
      ensures env.sessions == old(env.sessions) + (if login then 1 else 0)
    {
      resp := FetchSearchPage(url, trial);
      login := LoginPage(resp);
      if login {
        LoginBackOff();
      }
    }

    /**
     * `_get_items_by_search_url(url)`: fetch the page; while it is a login page, log it,
     * open a fresh session, wait 60 to 180 seconds and fetch again, at most ten times;
     * then read the items of the last response. Every request is for `url`.
     */
    method GetItemsBySearchUrl(url: string) returns (r: Result<seq<Item>, Fault>, ghost walk: Walk)
      requires session.env == env
      modifies this`session, env`log, env`requests, env`sleeps, env`draws, env`sessions
      ensures session.env == env
      ensures walk == LoginWalk(env.script, |old(env.requests)|, 0) && |env.requests| == walk.next
      ensures RequestedOnly(old(env.requests), env.requests, url)
      ensures ReadsPage(walk.page, r)
      ensures env.sessions == old(env.sessions) + (if LoginPage(walk.page) then walk.trials else walk.trials - 1)
    {
      walk := LoginWalk(env.script, |env.requests|, 0);
      var resp: Option<Body> := None;
      var trial := 0;
      while trial < AVOID_LOGIN_LIMIT
        invariant 0 <= trial <= AVOID_LOGIN_LIMIT
        invariant session.env == env
        invariant RequestedOnly(old(env.requests), env.requests, url)
        invariant trial < AVOID_LOGIN_LIMIT ==> walk == LoginWalk(env.script, |env.requests|, trial)
        invariant trial == AVOID_LOGIN_LIMIT ==> walk == Walk(resp, |env.requests|, trial) && LoginPage(walk.page)
        invariant env.sessions == old(env.sessions) + trial
        modifies this`session, env`log, env`requests, env`sleeps, env`draws, env`sessions
      {
        ghost var before := env.requests;
        var login;
        resp, login := SearchTrial(url, trial);
        RequestedOnlyTrans(old(env.requests), before, env.requests, url);
        if !login {
          assert walk == Walk(resp, |env.requests|, trial + 1) && !LoginPage(walk.page);
          break;
        }
        trial := trial + 1;
      }
      assert walk.page == resp && walk.next == |env.requests|;
      r := ReadPage(resp);
    }

    /**
     * `_collect_items_from_search_result(r.text)`; `r.text` raises when `MySession.get`
     * returned `None`.
     */
    method ReadPage(page: Option<Body>) returns (r: Result<seq<Item>, Fault>)
      ensures ReadsPage(page, r)
    {
      if page.None? {
        return Err(NoResponse);
      }
      r := CollectItems(page.value.goods);
    }

    /**
     * Page `page` of the search at `base` (main.py:117-122), `offset` items having been
     * read from the pages before it: the page read and what was read from it.
     */
    method SearchPage(base: string, page: nat, offset: nat) returns (found: Result<seq<Item>, Fault>, ghost rd: PageRead)
      requires session.env == env
      modifies this`session, env`log, env`requests, env`sleeps, env`draws, env`sessions
      ensures session.env == env && old(env.requests) < env.requests
      ensures rd.url == base + PageSuffix(page, offset) && rd.start == |old(env.requests)|
      ensures rd.walk == LoginWalk(env.script, rd.start, 0) && |env.requests| == rd.walk.next
      ensures env.requests[rd.start..rd.walk.next] == Repeat(rd.url, rd.walk.next - rd.start)
      ensures ReadsPage(rd.walk.page, found)
      ensures found.Ok? ==> rd.items == found.value && ReadFromSite(env.script, env.requests, rd)
    {
      var url := base + PageSuffix(page, offset);
      ghost var walk;
      found, walk := GetItemsBySearchUrl(url);
      rd := PageRead(url, |old(env.requests)|, walk, if found.Ok? then found.value else []);
      RequestedOnlyTail(old(env.requests), env.requests, url);
      assert env.requests[rd.start..rd.walk.next] == env.requests[rd.start..];
    }

    /**
     * `_get_promotions(item)`: fetch the item's promotion payload and list its activities
     * as promotions.
     */
    method GetPromotions(item: Item) returns (r: Result<seq<Promotion>, Fault>)
      requires session.env == env
      modifies env`log, env`requests, env`sleeps, env`draws
      ensures r == Promotions(Fetch(env.script, |old(env.requests)|))
      ensures env.requests == old(env.requests)
                              + Repeat(PromotionLookupUrl(item.id, item.shop.id), Attempts(env.script, |old(env.requests)|))
    {
      var resp := session.Get(PromotionLookupUrl(item.id, item.shop.id));
      if resp.None? {
        return Err(NoResponse);
      }
      if resp.value.activities.None? {
        return Err(MalformedPayload);
      }
      var acts := resp.value.activities.value;
      var lst: seq<Promotion> := [];
      var k := 0;
      while k < |acts|
        invariant 0 <= k <= |acts|
        invariant |lst| == k && forall j :: 0 <= j < k ==> lst[j] == PromotionOf(acts[j])
      {
        lst := lst + [PromotionOf(acts[k])];
        k := k + 1;
      }
      assert lst == seq(|acts|, j requires 0 <= j < |acts| => PromotionOf(acts[j]));
      r := Ok(lst);
    }

    /**
     * `_get_items_in_promotion(url, max_count)`: read the pages of the promotion's item
     * search until one is empty, keeping the items in order and stopping as soon as
     * `max_count` of them have been kept.
     */
    method GetItemsInPromotion(url: string, maxCount: nat) returns (r: Result<seq<Item>, Fault>, ghost visited: seq<PageRead>)
      requires session.env == env
      modifies this`session, env`log, env`requests, env`sleeps, env`draws, env`sessions
      ensures session.env == env && old(env.requests) <= env.requests
      ensures Collected(env.script, env.requests, |old(env.requests)|, url, maxCount, visited, r)
    {
      ghost var start := |env.requests|;
      var lst: seq<Item> := [];
      var page: nat := 1;
      var offset: nat := 0;
      visited := [];
      var stop := false;
      r := Ok([]);
      while !stop
        invariant session.env == env && old(env.requests) <= env.requests && start == |old(env.requests)|
        invariant stop ==> Collected(env.script, env.requests, start, url, maxCount, visited, r)
        invariant !stop ==> Gathering(env.script, env.requests, start, url, maxCount, visited, page, offset, lst)
        decreases !stop, Cap(maxCount) - |lst|
      {
        stop, r, lst, page, offset, visited := PromotionStep(url, maxCount, page, offset, lst, start, visited);
      }
    }

    /**
     * One round of `_get_items_in_promotion`'s loop: read the next page and keep its
     * items; stop at an exception, at an empty page or once `max_count` items are kept.
     */
    method PromotionStep(url: string, maxCount: nat, page: nat, offset: nat, lst: seq<Item>, ghost start: nat, ghost visited: seq<PageRead>)
      returns (stop: bool, r: Result<seq<Item>, Fault>, lst': seq<Item>, page': nat, offset': nat, ghost visited': seq<PageRead>)
      requires session.env == env && Gathering(env.script, env.requests, start, url, maxCount, visited, page, offset, lst)
      modifies this`session, env`log, env`requests, env`sleeps, env`draws, env`sessions
      ensures session.env == env && old(env.requests) <= env.requests
      ensures stop ==> Collected(env.script, env.requests, start, url, maxCount, visited', r)
      ensures stop && r.Err? ==> visited' == visited
      ensures !(stop && r.Err?) ==> |visited'| == |visited| + 1 && visited'[..|visited|] == visited
      ensures !stop ==> Gathering(env.script, env.requests, start, url, maxCount, visited', page', offset', lst') && |lst| < |lst'|
    {
      var found, rd := PromotionPage(url, page, offset, start, maxCount, visited);
      if found.Err? {
        return true, Err(found.error), lst, page, offset, visited;
      }
      var items := found.value;
      visited' := visited + [rd];
      offset' := offset + |items|;
      page' := page + 1;
      assert visited'[..|visited|] == visited;
      if |items| == 0 {
        CollectedAtEmpty(env.script, env.requests, start, url, maxCount, visited, rd, lst);
        return true, Ok(lst), lst, page', offset', visited';
      }
      lst' := Keep(lst, items, maxCount);
      if |lst'| >= maxCount {
        CollectedAtCap(env.script, env.requests, start, url, maxCount, visited, rd, lst, lst');
        return true, Ok(lst'), lst', page', offset', visited';
      }
      stop, r := false, Ok(lst');
    }

    /**
     * Page `page` of the promotion's item search, after the pages `visited`, all with
     * items: the exception it raises, or the page read right after the others.
     */
    method PromotionPage(url: string, page: nat, offset: nat, ghost start: nat, ghost maxCount: nat, ghost visited: seq<PageRead>)
      returns (found: Result<seq<Item>, Fault>, ghost rd: PageRead)
      requires session.env == env && Progress(env.script, env.requests, start, url, visited)
      requires page == |visited| + 1 && offset == |Concat(PagesOf(visited))| && offset < Cap(maxCount)
      modifies this`session, env`log, env`requests, env`sleeps, env`draws, env`sessions
      ensures session.env == env && old(env.requests) <= env.requests
      ensures found.Err? ==> Collected(env.script, env.requests, start, url, maxCount, visited, Err(found.error))
      ensures found.Ok? ==>
                && rd.items == found.value
                && Concat(PagesOf(visited + [rd])) == Concat(PagesOf(visited)) + found.value
                && SearchedPages(env.script, env.requests, url, visited + [rd])
                && Contiguous(start, visited + [rd]) && |env.requests| == End(start, visited + [rd])
                && (found.value != [] ==> Progress(env.script, env.requests, start, url, visited + [rd]))
    {
      ghost var before := env.requests;
      found, rd := SearchPage(url, page, offset);
      SearchedPagesLater(env.script, before, env.requests, url, visited);
      if found.Ok? {
        SearchedPagesAppend(env.script, before, env.requests, url, visited, rd);
        ContiguousAppend(start, visited, rd);
      }
    }

    /**
     * The body of the loop over an item's promotions (main.py:150-171): a promotion with
     * an empty or already seen id is skipped; otherwise it is logged, recorded, and
     * classified: an unmatched promotion goes to `unmatch.txt`; a matched one gets its
     * first 200 items and goes to `match.txt`.
     */
    method ProcessPromotion(p: Promotion) returns (outcome: Outcome, ghost visited: seq<PageRead>, ghost items: seq<Item>)
      requires Sound() && FilesAgree()
      modifies this`session, this`promotionIds, this`decided, env`log, env`requests, env`sleeps, env`draws,
               env`sessions, env`ticks, matched`lines, matched`written, matched`stamps,
               unmatched`lines, unmatched`written, unmatched`stamps
      ensures Sound() && old(env.requests) <= env.requests
      ensures outcome.Completed? ==> FilesAgree()
      ensures p.id == [] || p.id in old(promotionIds) ==>
                && outcome == Completed && decided == old(decided) && env.requests == old(env.requests)
                && matched.written == old(matched.written) && unmatched.written == old(unmatched.written)
      ensures p.id != [] && p.id !in old(promotionIds) ==>
                decided == old(decided) + [Decision(p.id, p.title, Classify(criterias, p.title))]
      ensures p.id != [] && p.id !in old(promotionIds) && !Classify(criterias, p.title) ==>
                && outcome == Completed && matched.written == old(matched.written)
                && unmatched.written == old(unmatched.written) + [p]
                && unmatched.stamps == old(unmatched.stamps) + [Clock(env.script, old(env.ticks))]
      ensures outcome.Aborted? ==> p.id != [] && p.id !in old(promotionIds) && LastMatchUnwritten()
      ensures p.id != [] && p.id !in old(promotionIds) && Classify(criterias, p.title) ==>
                && unmatched.written == old(unmatched.written)
                && Collected(env.script, env.requests, |old(env.requests)|, p.url, PROMOTION_ITEM_LIMIT, visited,
                             if outcome.Completed? then Ok(items) else Err(outcome.fault))
                && (outcome.Completed? ==> matched.written == old(matched.written) + [p.(items := Some(items))])
                && (outcome.Aborted? ==> matched.written == old(matched.written))
    {
      if |p.id| == 0 || p.id in promotionIds {
        return Completed, [], [];
      }
      outcome, visited, items := ProcessNew(p);
    }

    /** A promotion seen for the first time (main.py:153-171): decided, then written. */
    method ProcessNew(p: Promotion) returns (outcome: Outcome, ghost visited: seq<PageRead>, ghost items: seq<Item>)
      requires Sound() && FilesAgree() && p.id != [] && p.id !in promotionIds
      modifies this`session, this`promotionIds, this`decided, env`log, env`requests, env`sleeps, env`draws,
               env`sessions, env`ticks, matched`lines, matched`written, matched`stamps,
               unmatched`lines, unmatched`written, unmatched`stamps
      ensures Sound() && old(env.requests) <= env.requests
      ensures outcome.Completed? ==> FilesAgree()
      ensures decided == old(decided) + [Decision(p.id, p.title, Classify(criterias, p.title))]
      ensures outcome.Aborted? ==> LastMatchUnwritten()
      ensures !Classify(criterias, p.title) ==>
                && outcome == Completed && matched.written == old(matched.written)
                && unmatched.written == old(unmatched.written) + [p]
                && unmatched.stamps == old(unmatched.stamps) + [Clock(env.script, old(env.ticks))]
      ensures Classify(criterias, p.title) ==>
                && unmatched.written == old(unmatched.written)
                && Collected(env.script, env.requests, |old(env.requests)|, p.url, PROMOTION_ITEM_LIMIT, visited,
                             if outcome.Completed? then Ok(items) else Err(outcome.fault))
                && (outcome.Completed? ==> matched.written == old(matched.written) + [p.(items := Some(items))])
                && (outcome.Aborted? ==> matched.written == old(matched.written))
    {
      var found := Decide(p);
      outcome, visited, items := FilePromotion(p, found);
      FilesMatchAppend(old(decided), decided[|decided| - 1], old(matched.written), old(unmatched.written),
                       if found then p.(items := Some(items)) else p);
    }

    /**
     * A decided promotion is written (main.py:165-171): an unmatched one to `unmatch.txt`;
     * a matched one to `match.txt` with its first 200 items, unless collecting them raised.
     */
    method FilePromotion(p: Promotion, found: bool) returns (outcome: Outcome, ghost visited: seq<PageRead>, ghost items: seq<Item>)
      requires session.env == env && matched != unmatched && matched.Valid() && unmatched.Valid()
      modifies this`session, env`log, env`requests, env`sleeps, env`draws, env`sessions, env`ticks,
               matched`lines, matched`written, matched`stamps, unmatched`lines, unmatched`written, unmatched`stamps
      ensures session.env == env && matched.Valid() && unmatched.Valid() && old(env.requests) <= env.requests
      ensures !found ==>
                && outcome == Completed && matched.written == old(matched.written)
                && unmatched.written == old(unmatched.written) + [p]
                && unmatched.stamps == old(unmatched.stamps) + [Clock(env.script, old(env.ticks))]
      ensures found ==>
                && unmatched.written == old(unmatched.written)
                && Collected(env.script, env.requests, |old(env.requests)|, p.url, PROMOTION_ITEM_LIMIT, visited,
                             if outcome.Completed? then Ok(items) else Err(outcome.fault))
                && (outcome.Completed? ==> matched.written == old(matched.written) + [p.(items := Some(items))])
                && (outcome.Aborted? ==> matched.written == old(matched.written))
    {
      if !found {
        unmatched.Write(p, env);
        return Completed, [], [];
      }
      outcome, visited, items := WriteMatched(p);
    }

    /**
     * A promotion seen for the first time (main.py:153-163): it is logged, its id joins
     * `promotion_ids`, and it is classified.
     */
    method Decide(p: Promotion) returns (found: bool)
      requires PromotionLedger() && p.id != [] && p.id !in promotionIds
      modifies this`promotionIds, this`decided, env`log
      ensures PromotionLedger()
      ensures found == Classify(criterias, p.title)
      ensures decided == old(decided) + [Decision(p.id, p.title, found)]
      ensures env.log == old(env.log) + [PromotionLine(p)]
    {
      env.Log(PromotionLine(p));
      promotionIds := promotionIds + {p.id};
      found := Wanted(p.title);
      DecidedAppend(decided, Decision(p.id, p.title, found));
      decided := decided + [Decision(p.id, p.title, found)];
    }

    /** The classification of main.py:156-163: a criterion in the title, else the fulfil-deduct check. */
    method Wanted(title: string) returns (found: bool)
      ensures found == Classify(criterias, title)
    {
      found := CriteriaFound(criterias, title);
      if !found {
        found := FulfilDeductCheck(title);
      }
    }

    /** A matched promotion (main.py:169-171): its first 200 items, then its record in `match.txt`. */
    method WriteMatched(p: Promotion) returns (outcome: Outcome, ghost visited: seq<PageRead>, ghost items: seq<Item>)
      requires session.env == env && matched.Valid()
      modifies this`session, env`log, env`requests, env`sleeps, env`draws, env`sessions, env`ticks,
               matched`lines, matched`written, matched`stamps
      ensures session.env == env && matched.Valid() && old(env.requests) <= env.requests
      ensures Collected(env.script, env.requests, |old(env.requests)|, p.url, PROMOTION_ITEM_LIMIT, visited,
                        if outcome.Completed? then Ok(items) else Err(outcome.fault))
      ensures outcome.Completed? ==>
                && matched.written == old(matched.written) + [p.(items := Some(items))]
                && matched.stamps == old(matched.stamps) + [Clock(env.script, old(env.ticks))]
      ensures outcome.Aborted? ==> matched.written == old(matched.written) && matched.lines == old(matched.lines)
    {
      var found;
      found, visited := GetItemsInPromotion(p.url, PROMOTION_ITEM_LIMIT);
      if found.Err? {
        return Aborted(found.error), visited, [];
      }
      items := found.value;
      matched.Write(p.(items := Some(found.value)), env);
      outcome := Completed;
    }

    /**
     * The loop over an item's promotions (main.py:149): each promotion is decided in turn
     * until an exception; when none is raised, the decisions made are exactly those for
     * the promotions with new, non-empty ids.
     */
    method ProcessPromotions(promos: seq<Promotion>) returns (outcome: Outcome)
      requires Sound() && FilesAgree()
      modifies this`session, this`promotionIds, this`decided, env`log, env`requests, env`sleeps, env`draws,
               env`sessions, env`ticks, matched`lines, matched`written, matched`stamps,
               unmatched`lines, unmatched`written, unmatched`stamps
      ensures Sound() && old(env.requests) <= env.requests
      ensures old(decided) <= decided <= old(decided) + NewDecisions(criterias, promos, old(promotionIds))
      ensures outcome.Completed? ==> decided == old(decided) + NewDecisions(criterias, promos, old(promotionIds)) && FilesAgree()
      ensures outcome.Aborted? ==> LastMatchUnwritten()
    {
      var k := 0;
      while k < |promos|
        invariant 0 <= k <= |promos|
        invariant Sound() && FilesAgree() && old(env.requests) <= env.requests && old(decided) <= decided
        invariant old(decided) + NewDecisions(criterias, promos, old(promotionIds))
                  == decided + NewDecisions(criterias, promos[k..], promotionIds)
      {
        ghost var before, seen := decided, promotionIds;
        assert promos[k..][1..] == promos[k + 1..];
        ghost var visited, items;
        outcome, visited, items := ProcessPromotion(promos[k]);
        AppendAssoc(before, decided[|before|..], NewDecisions(criterias, promos[k + 1..], promotionIds));
        if outcome.Aborted? {
          return;
        }
        k := k + 1;
      }
      outcome := Completed;
    }

    /**
     * The body of the loop over a page's items (main.py:132-173): one time in four (a draw
     * of 0 from `randint(0, 3)`) the item is skipped, and so is an item already processed;
     * any other item is visited.
     */
    method ProcessItem(item: Item) returns (outcome: Outcome)
      requires Valid() && FilesAgree()
      modifies this`session, this`promotionIds, this`decided, this`processedItemIds, this`lookups,
               env`log, env`requests, env`sleeps, env`draws, env`sessions, env`ticks,
               matched`lines, matched`written, matched`stamps, unmatched`lines, unmatched`written, unmatched`stamps
      ensures Valid() && old(env.requests) <= env.requests
      ensures outcome.Completed? ==> FilesAgree()
      ensures outcome.Aborted? ==> LastMatchUnwritten()
      ensures Draw(env.script, old(env.draws)) % 4 == 0 || item.id in old(processedItemIds) ==>
                && outcome == Completed && lookups == old(lookups) && decided == old(decided)
                && env.requests == old(env.requests)
      ensures Draw(env.script, old(env.draws)) % 4 != 0 && item.id !in old(processedItemIds) ==>
                && lookups == old(lookups) + [Lookup(item.id, Promotions(Fetch(env.script, |old(env.requests)|)).Ok?)]
                && (lookups[|lookups| - 1].ok && outcome.Completed? ==>
                      decided == old(decided) + NewDecisions(criterias, Promotions(Fetch(env.script, |old(env.requests)|)).value,
                                                             old(promotionIds)))
    {
      var roll := env.RandInt(0, 3);
      assert roll == 0 <==> Draw(env.script, old(env.draws)) % 4 == 0;
      if roll == 0 {
        return Completed;
      }
      if item.id in processedItemIds {
        return Completed;
      }
      assert env.requests == old(env.requests);
      ghost var lookup;
      outcome, lookup := VisitItem(item);
    }

    /**
     * An item that is neither skipped nor processed (main.py:138-173): it is logged and its
     * promotions are looked up. When the lookup raises, the engine logs "blocked? slow down
     * a bit", pauses 60 to 120 seconds and goes on with the next item, without the pause
     * after an item. When it succeeds the item counts as processed, its promotions are
     * decided, and the engine pauses 5 to 35 seconds.
     */
    method VisitItem(item: Item) returns (outcome: Outcome, ghost lookup: Result<seq<Promotion>, Fault>)
      requires Valid() && FilesAgree() && item.id !in processedItemIds
      modifies this`session, this`promotionIds, this`decided, this`processedItemIds, this`lookups,
               env`log, env`requests, env`sleeps, env`draws, env`sessions, env`ticks,
               matched`lines, matched`written, matched`stamps, unmatched`lines, unmatched`written, unmatched`stamps
      ensures Valid() && old(env.requests) <= env.requests
      ensures outcome.Completed? ==> FilesAgree()
      ensures outcome.Aborted? ==> LastMatchUnwritten()
      ensures lookup == Promotions(Fetch(env.script, |old(env.requests)|))
      ensures lookups == old(lookups) + [Lookup(item.id, lookup.Ok?)]
      ensures lookup.Err? ==>
                && outcome == Completed && decided == old(decided)
                && |env.sleeps| > 0 && 60 <= env.sleeps[|env.sleeps| - 1] <= 120
      ensures lookup.Ok? ==> old(decided) <= decided <= old(decided) + NewDecisions(criterias, lookup.value, old(promotionIds))
      ensures lookup.Ok? && outcome.Completed? ==>
                && decided == old(decided) + NewDecisions(criterias, lookup.value, old(promotionIds))
                && |env.sleeps| > 0 && 5 <= env.sleeps[|env.sleeps| - 1] <= 35
    {
      var promos := LookUp(item);
      lookup := promos;
      outcome := AfterLookUp(promos);
    }

    /**
     * What follows an item's lookup (main.py:140-173): when it raised, "blocked? slow down
     * a bit" and a pause of 60 to 120 seconds; otherwise the item's promotions are handled.
     */
    method AfterLookUp(promos: Result<seq<Promotion>, Fault>) returns (outcome: Outcome)
      requires Sound() && FilesAgree()
      modifies this`session, this`promotionIds, this`decided, env`log, env`requests, env`sleeps, env`draws,
               env`sessions, env`ticks, matched`lines, matched`written, matched`stamps,
               unmatched`lines, unmatched`written, unmatched`stamps
      ensures Sound() && old(env.requests) <= env.requests
      ensures outcome.Completed? ==> FilesAgree()
      ensures outcome.Aborted? ==> LastMatchUnwritten()
      ensures promos.Err? ==>
                && outcome == Completed && decided == old(decided)
                && |env.sleeps| > 0 && 60 <= env.sleeps[|env.sleeps| - 1] <= 120
      ensures promos.Ok? ==> old(decided) <= decided <= old(decided) + NewDecisions(criterias, promos.value, old(promotionIds))
      ensures promos.Ok? && outcome.Completed? ==>
                && decided == old(decided) + NewDecisions(criterias, promos.value, old(promotionIds))
                && |env.sleeps| > 0 && 5 <= env.sleeps[|env.sleeps| - 1] <= 35
    {
      if promos.Err? {
        Pause("blocked? slow down a bit", 60, 120);
        return Completed;
      }
      outcome := HandlePromotions(promos.value);
    }

    /**
     * The lookup of an item's promotions (main.py:138-147): the item is logged, its
     * promotions are fetched, and the lookup is noted.
     */
    method LookUp(item: Item) returns (promos: Result<seq<Promotion>, Fault>)
      requires Valid() && item.id !in processedItemIds
      modifies this`processedItemIds, this`lookups, env`log, env`requests, env`sleeps, env`draws
      ensures Valid() && old(env.requests) <= env.requests
      ensures promos == Promotions(Fetch(env.script, |old(env.requests)|))
      ensures lookups == old(lookups) + [Lookup(item.id, promos.Ok?)]
    {
      env.Log(ItemLine(item));
      promos := GetPromotions(item);
      RecordLookup(item.id, promos.Ok?);
    }

    /** The promotions of an item whose lookup succeeded (main.py:149-173), then the pause after the item. */
    method HandlePromotions(promos: seq<Promotion>) returns (outcome: Outcome)
      requires Sound() && FilesAgree()
      modifies this`session, this`promotionIds, this`decided, env`log, env`requests, env`sleeps, env`draws,
               env`sessions, env`ticks, matched`lines, matched`written, matched`stamps,
               unmatched`lines, unmatched`written, unmatched`stamps
      ensures Sound() && old(env.requests) <= env.requests
      ensures old(decided) <= decided <= old(decided) + NewDecisions(criterias, promos, old(promotionIds))
      ensures outcome.Completed? ==>
                && decided == old(decided) + NewDecisions(criterias, promos, old(promotionIds)) && FilesAgree()
                && |env.sleeps| > 0 && 5 <= env.sleeps[|env.sleeps| - 1] <= 35
      ensures outcome.Aborted? ==> LastMatchUnwritten()
    {
      outcome := ProcessPromotions(promos);
      if outcome.Aborted? {
        return;
      }
      Rest(5, 35);
    }

    /** Sleeps a random number of seconds in `[lo, hi]` (main.py:173). */
    method Rest(lo: nat, hi: nat)
      requires lo <= hi
      modifies env`draws, env`sleeps
      ensures env.sleeps == old(env.sleeps) + [lo + Draw(env.script, old(env.draws)) % (hi - lo + 1)]
      ensures lo <= env.sleeps[|env.sleeps| - 1] <= hi
      ensures env.draws == old(env.draws) + 1
    {
      var pause := env.RandInt(lo, hi);
      env.Sleep(pause);
    }

    /**
     * Notes a promotion lookup for item `id`; `processed_item_ids` gains the item when
     * the lookup succeeded (main.py:141-147).
     */
    method RecordLookup(id: string, ok: bool)
      requires ItemLedger() && id !in processedItemIds
      modifies this`lookups, this`processedItemIds
      ensures ItemLedger()
      ensures lookups == old(lookups) + [Lookup(id, ok)]
      ensures processedItemIds == old(processedItemIds) + (if ok then {id} else {})
    {
      LookupAppend(lookups, Lookup(id, ok));
      lookups := lookups + [Lookup(id, ok)];
      if ok {
        processedItemIds := processedItemIds + {id};
      }
    }

    /** Logs `msg`, then sleeps a random number of seconds in `[lo, hi]`. */
    method Pause(msg: string, lo: nat, hi: nat)
      requires lo <= hi
      modifies env`log, env`draws, env`sleeps
      ensures env.log == old(env.log) + [msg]
      ensures env.sleeps == old(env.sleeps) + [lo + Draw(env.script, old(env.draws)) % (hi - lo + 1)]
      ensures env.draws == old(env.draws) + 1
    {
      env.Log(msg);
      Rest(lo, hi);
    }

    /** The loop over the items of a search page (main.py:130): stops at an exception. */
    method ProcessItems(items: seq<Item>) returns (outcome: Outcome)
      requires Valid() && FilesAgree()
      modifies this`session, this`promotionIds, this`decided, this`processedItemIds, this`lookups,
               env`log, env`requests, env`sleeps, env`draws, env`sessions, env`ticks,
               matched`lines, matched`written, matched`stamps, unmatched`lines, unmatched`written, unmatched`stamps
      ensures Valid() && old(env.requests) <= env.requests
      ensures outcome.Completed? ==> FilesAgree()
      ensures outcome.Aborted? ==> LastMatchUnwritten()
      ensures |old(lookups)| <= |lookups| <= |old(lookups)| + |items|
    {
      var k := 0;
      while k < |items|
        invariant 0 <= k <= |items|
        invariant Valid() && FilesAgree() && old(env.requests) <= env.requests
        invariant |old(lookups)| <= |lookups| <= |old(lookups)| + k
      {
        outcome := ProcessItem(items[k]);
        if outcome.Aborted? {
          return;
        }
        k := k + 1;
      }
      outcome := Completed;
    }

    /**
     * The search for one keyword (main.py:113-173): pages 1 to 9 at most, page k being
     * read at the keyword's search URL for page k with the number of items seen so far
     * (`KeywordPageUrls`); the search stops at the first empty page, and the items of
     * each page are processed before the next page is read.
     */
    method CrawlKeyword(keyword: string) returns (outcome: Outcome, ghost visited: seq<PageRead>, ghost failedAt: nat)
      requires Valid() && FilesAgree()
      modifies this`session, this`promotionIds, this`decided, this`processedItemIds, this`lookups,
               env`log, env`requests, env`sleeps, env`draws, env`sessions, env`ticks,
               matched`lines, matched`written, matched`stamps, unmatched`lines, unmatched`written, unmatched`stamps
      ensures Valid() && old(env.requests) <= env.requests
      ensures SearchEnded(outcome, |old(env.requests)|, SearchBase(keyword), visited, failedAt)
    {
      var base := SearchBase(keyword);
      ghost var start := |env.requests|;
      var offset: nat := 0;
      var page: nat := 1;
      visited, failedAt := [], 0;
      while page < PAGE_LIMIT
        invariant Valid() && FilesAgree() && old(env.requests) <= env.requests && start == |old(env.requests)|
        invariant page <= PAGE_LIMIT && KeywordProgress(env.script, env.requests, start, base, visited, page, offset)
      {
        var stop;
        failedAt := |env.requests|;
        stop, outcome, offset, visited := KeywordStep(base, page, offset, start, visited);
        if stop {
          return;
        }
        page := page + 1;
      }
      outcome := Completed;
    }

    /**
     * One round of the search's loop (main.py:116-173): read page `page`; stop at an
     * exception or at an empty page; otherwise process its items.
     */
    method KeywordStep(base: string, page: nat, offset: nat, ghost start: nat, ghost visited: seq<PageRead>)
      returns (stop: bool, outcome: Outcome, offset': nat, ghost visited': seq<PageRead>)
      requires Valid() && FilesAgree() && page < PAGE_LIMIT
      requires KeywordProgress(env.script, env.requests, start, base, visited, page, offset)
      modifies this`session, this`promotionIds, this`decided, this`processedItemIds, this`lookups,
               env`log, env`requests, env`sleeps, env`draws, env`sessions, env`ticks,
               matched`lines, matched`written, matched`stamps, unmatched`lines, unmatched`written, unmatched`stamps
      ensures Valid() && old(env.requests) <= env.requests
      ensures stop ==> SearchEnded(outcome, start, base, visited', |old(env.requests)|)
      ensures stop && outcome.Completed? ==> visited'[|visited'| - 1].items == []
      ensures !stop ==> outcome.Completed? && FilesAgree() && KeywordProgress(env.script, env.requests, start, base, visited', page + 1, offset')
    {
      var found;
      found, visited' := KeywordPage(base, page, offset, start, visited);
      if found.Err? {
        return true, Aborted(found.error), offset, visited';
      }
      var items := found.value;
      if |items| == 0 {
        return true, Completed, offset, visited';
      }
      offset' := offset + |items|;
      outcome := ProcessPage(items, base, page + 1, offset', start, visited');
      stop := outcome.Aborted?;
    }

    /** The items of a search page with items are processed (main.py:130-173). */
    method ProcessPage(items: seq<Item>, ghost base: string, ghost page: nat, ghost offset: nat,
                       ghost start: nat, ghost visited: seq<PageRead>) returns (outcome: Outcome)
      requires Valid() && FilesAgree() && visited != [] && |visited| < PAGE_LIMIT
      requires KeywordProgress(env.script, env.requests, start, base, visited, page, offset)
      modifies this`session, this`promotionIds, this`decided, this`processedItemIds, this`lookups,
               env`log, env`requests, env`sleeps, env`draws, env`sessions, env`ticks,
               matched`lines, matched`written, matched`stamps, unmatched`lines, unmatched`written, unmatched`stamps
      ensures Valid() && old(env.requests) <= env.requests
      ensures KeywordProgress(env.script, env.requests, start, base, visited, page, offset)
      ensures Crawled(env.script, env.requests, start, base, visited)
      ensures outcome.Completed? ==> FilesAgree()
      ensures outcome.Aborted? ==> LastMatchUnwritten()
    {
      ghost var before := env.requests;
      outcome := ProcessItems(items);
      KeywordLater(env.script, before, env.requests, start, base, visited, page, offset);
    }

    /**
     * Page `page` of the search at `base` in the loop of main.py:116-122: the exception
     * raised reading it, or the pages read with this one added.
     */
    method KeywordPage(base: string, page: nat, offset: nat, ghost start: nat, ghost visited: seq<PageRead>)
      returns (found: Result<seq<Item>, Fault>, ghost visited': seq<PageRead>)
      requires Valid() && FilesAgree() && page < PAGE_LIMIT
      requires KeywordProgress(env.script, env.requests, start, base, visited, page, offset)
      modifies this`session, env`log, env`requests, env`sleeps, env`draws, env`sessions
      ensures Valid() && FilesAgree() && old(env.requests) <= env.requests
      ensures Crawled(env.script, env.requests, start, base, visited')
      ensures found.Ok? ==> |visited'| == |visited| + 1 && visited'[|visited|].items == found.value
      ensures found.Err? ==>
                visited' == visited && ReadFailed(env.script, env.requests, |old(env.requests)|, base + PageSuffix(page, offset), found.error)
      ensures found.Ok? && found.value != [] ==>
                KeywordProgress(env.script, env.requests, start, base, visited', page + 1, offset + |found.value|)
    {
      ghost var before := env.requests;
      ghost var rd;
      found, rd := SearchPage(base, page, offset);
      KeywordRead(env.script, before, env.requests, start, base, visited, page, offset, rd);
      if found.Err? {
        return found, visited;
      }
      visited' := visited + [rd];
    }

    /** `promotion_ids` and `processed_item_ids` start empty (main.py:105-106). */
    method ClearLedgers()
      requires session.env == env && matched != unmatched && matched.Valid() && unmatched.Valid()
      requires matched.written == [] && unmatched.written == []
      modifies this`promotionIds, this`processedItemIds, this`decided, this`lookups
      ensures Valid()
      ensures promotionIds == {} && processedItemIds == {} && decided == [] && lookups == []
    {
      promotionIds, processedItemIds := {}, {};
      decided, lookups := [], [];
    }

    /**
     * One keyword of `run` (main.py:110-112): a fresh session, the keyword logged, then its
     * search, whose first request is for the keyword's first search page.
     */
    method SearchKeyword(keyword: string) returns (outcome: Outcome, ghost visited: seq<PageRead>, ghost failedAt: nat)
      requires Valid() && FilesAgree()
      modifies this`session, this`promotionIds, this`decided, this`processedItemIds, this`lookups,
               env`log, env`requests, env`sleeps, env`draws, env`sessions, env`ticks,
               matched`lines, matched`written, matched`stamps, unmatched`lines, unmatched`written, unmatched`stamps
      ensures Valid() && old(env.requests) < env.requests
      ensures env.requests[|old(env.requests)|] == SearchBase(keyword) && FilesKept()
      ensures SearchEnded(outcome, |old(env.requests)|, SearchBase(keyword), visited, failedAt)
    {
      ResetSession();
      env.Log(keyword);
      outcome, visited, failedAt := CrawlKeyword(keyword);
    }

    /**
     * `Engine.run` (main.py:101-173): the ledgers start empty; for each keyword, in the
     * shuffled order, a fresh session is opened, the keyword is logged and searched. The
     * search of keyword `i` begins with request `starts[i]`, for the keyword's first page.
     * Each search that ran to its end read `searches[i]`; a run that aborts does so in the
     * search after them, which read `visited`.
     */
    method Run(order: seq<string>)
      returns (outcome: Outcome, ghost starts: seq<nat>, ghost searches: seq<seq<PageRead>>, ghost visited: seq<PageRead>, ghost failedAt: nat)
      requires session.env == env && matched != unmatched && matched.Valid() && unmatched.Valid()
      requires matched.written == [] && unmatched.written == []
      requires multiset(order) == multiset(keywords)
      modifies this`session, this`promotionIds, this`decided, this`processedItemIds, this`lookups,
               env`log, env`requests, env`sleeps, env`draws, env`sessions, env`ticks,
               matched`lines, matched`written, matched`stamps, unmatched`lines, unmatched`written, unmatched`stamps
      ensures Valid() && old(env.requests) <= env.requests
      ensures KeywordStarts(env.requests, |old(env.requests)|, order, starts)
      ensures SearchesDone(env.script, env.requests, order, starts, searches)
      ensures outcome.Completed? ==> |starts| == |order| && |searches| == |order| && FilesAgree()
      ensures outcome.Aborted? ==>
                && starts != [] && |searches| == |starts| - 1
                && SearchEnded(outcome, starts[|starts| - 1], SearchBase(order[|starts| - 1]), visited, failedAt)
    {
      ClearLedgers();
      starts, searches, visited, failedAt := [], [], [], 0;
      var i := 0;
      while i < |order|
        invariant 0 <= i <= |order| && |starts| == i && |searches| == i
        invariant Valid() && FilesAgree() && old(env.requests) <= env.requests
        invariant i == 0 ==> env.requests == old(env.requests)
        invariant KeywordStarts(env.requests, |old(env.requests)|, order, starts)
        invariant SearchesDone(env.script, env.requests, order, starts, searches)
      {
        outcome, starts, searches, visited, failedAt := RunKeyword(order, i, |old(env.requests)|, starts, searches);
        if outcome.Aborted? {
          return;
        }
        i := i + 1;
      }
      outcome := Completed;
    }

    /**
     * One round of `run`'s keyword loop (main.py:110-173): keyword `order[i]` is searched,
     * its search beginning with request `starts'[i]`. A search that runs to its end joins
     * the finished ones in `searches'`.
     */
    method RunKeyword(order: seq<string>, i: nat, ghost start: nat, ghost starts: seq<nat>, ghost searches: seq<seq<PageRead>>)
      returns (outcome: Outcome, ghost starts': seq<nat>, ghost searches': seq<seq<PageRead>>, ghost visited: seq<PageRead>, ghost failedAt: nat)
      requires Valid() && FilesAgree() && i == |starts| == |searches| < |order| && KeywordStarts(env.requests, start, order, starts)
      requires starts == [] ==> |env.requests| == start
      requires SearchesDone(env.script, env.requests, order, starts, searches)
      modifies this`session, this`promotionIds, this`decided, this`processedItemIds, this`lookups,
               env`log, env`requests, env`sleeps, env`draws, env`sessions, env`ticks,
               matched`lines, matched`written, matched`stamps, unmatched`lines, unmatched`written, unmatched`stamps
      ensures Valid() && old(env.requests) < env.requests && FilesKept()
      ensures KeywordStarts(env.requests, start, order, starts') && starts' == starts + [|old(env.requests)|]
      ensures SearchesDone(env.script, env.requests, order, starts', searches')
      ensures SearchEnded(outcome, starts'[|starts'| - 1], SearchBase(order[|starts'| - 1]), visited, failedAt)
      ensures outcome.Completed? ==> FilesAgree() && searches' == searches + [visited]
      ensures outcome.Aborted? ==> searches' == searches
    {
      ghost var before := env.requests;
      outcome, visited, failedAt := SearchKeyword(order[i]);
      KeywordStartsNext(before, env.requests, start, order, starts);
      starts' := starts + [|before|];
      SearchesDoneLater(env.script, before, env.requests, order, starts, starts', searches);
      searches' := searches;
      if outcome.Completed? {
        SearchesDoneAppend(env.script, env.requests, order, starts', searches, visited);
        searches' := searches + [visited];
      }
    }
  }
}
