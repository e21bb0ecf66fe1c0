/**
 * The visit recorder of `lib/tracking.ts`.  Every call writes into the
 * shared `localStorage`; `AfterPageView` and `AfterDeepDive` give the store
 * each call leaves behind, and the lemmas below state what the recorder
 * promises about it.  The guard `typeof window === "undefined"` (server-side
 * rendering) is the parameter `hasWindow`.
 */
module Tracking {
  import opened Wrappers
  import opened Storage
  import opened Numerals

  const CounterKey := "caseStudiesViewed"
  const FrameworksKey := "frameworksViewed"
  const DeepDiveKey := "deepDive"
  const WorkPrefix := "work/"

  /** The per-page flag key `${page}Viewed`. */
  function ViewedKey(page: string): string
  {
    page + "Viewed"
  }

  predicate IsCaseStudy(page: string)
  {
    WorkPrefix <= page
  }

  /** The `count` the recorder computes from the stored counter: 0 when it is missing or empty, else `parseInt` of it. */
  function CaseStudyCount(stored: Option<string>): Option<int>
  {
    if Truthy(stored) then ParseInt(stored.value) else Some(0)
  }

  /** `(count + 1).toString()`, where `NaN + 1` prints as "NaN". */
  function NextCountText(count: Option<int>): string
  {
    match count
    case Some(n) => IntToString(n + 1)
    case None => "NaN"
  }

  /** The number of case studies the store records, as the recorder reads it. */
  function CaseStudiesViewed(m: map<string, string>): Option<int>
  {
    CaseStudyCount(Get(m, CounterKey))
  }

  /** The store after one `trackPageView(page)` in the browser. */
  function AfterPageView(m: map<string, string>, page: string): map<string, string>
  {
    var flagged := m[ViewedKey(page) := "true"];
    var counted :=
      if IsCaseStudy(page) then flagged[CounterKey := NextCountText(CaseStudiesViewed(flagged))]
      else flagged;
    if page == "frameworks" then counted[FrameworksKey := "true"] else counted
  }

  /** The store after one `trackDeepDive()` in the browser. */
  function AfterDeepDive(m: map<string, string>): map<string, string>
  {
    m[DeepDiveKey := "true"]
  }

  method TrackPageView(storage: LocalStorage, hasWindow: bool, page: string)
    modifies storage
    ensures storage.items == if hasWindow then AfterPageView(old(storage.items), page) else old(storage.items)
  {
    if !hasWindow {
      return;
    }
    storage.SetItem(ViewedKey(page), "true");
    if IsCaseStudy(page) {
      var current := storage.GetItem(CounterKey);
      var count := if Truthy(current) then ParseInt(current.value) else Some(0);
      storage.SetItem(CounterKey, NextCountText(count));
    }
    if page == "frameworks" {
      storage.SetItem(FrameworksKey, "true");
    }
  }

  method TrackDeepDive(storage: LocalStorage, hasWindow: bool)
    modifies storage
    ensures storage.items == if hasWindow then AfterDeepDive(old(storage.items)) else old(storage.items)
  {
    if !hasWindow {
      return;
    }
    storage.SetItem(DeepDiveKey, "true");
  }

  // ---------------------------------------------------------------------
  // Properties of one call

  /** A flag key ends in "Viewed", so a case-study page's flag is never the counter. */
  lemma CaseStudyFlagIsNotCounter(page: string)
    requires IsCaseStudy(page)
    ensures ViewedKey(page) != CounterKey
  {
    assert ViewedKey(page)[0] == 'w';
  }

  lemma ViewedKeyInjective(p: string, q: string)
    ensures ViewedKey(p) == ViewedKey(q) ==> p == q
  {
    if ViewedKey(p) == ViewedKey(q) {
      assert p == ViewedKey(p)[..|p|];
      assert q == ViewedKey(q)[..|q|];
    }
  }

  /** The visited page's flag reads "true" afterwards. */
  lemma PageViewSetsFlag(m: map<string, string>, page: string)
    ensures Get(AfterPageView(m, page), ViewedKey(page)) == Some("true")
  {
    if IsCaseStudy(page) {
      CaseStudyFlagIsNotCounter(page);
    }
  }

  /**
   * The counter: a case-study page stores the old count plus one (printed as
   * "NaN" when the old value is not a number); the page whose flag key is the
   * counter's own key ("caseStudies") overwrites it with "true"; every other
   * page leaves it alone.
   */
  lemma PageViewCounter(m: map<string, string>, page: string)
    ensures Get(AfterPageView(m, page), CounterKey) ==
      if IsCaseStudy(page) then Some(NextCountText(CaseStudiesViewed(m)))
      else if page == "caseStudies" then Some("true")
      else Get(m, CounterKey)
  {
    if IsCaseStudy(page) {
      CaseStudyFlagIsNotCounter(page);
      assert Get(m[ViewedKey(page) := "true"], CounterKey) == Get(m, CounterKey);
    } else if page != "caseStudies" {
      assert CounterKey == ViewedKey("caseStudies");
      ViewedKeyInjective(page, "caseStudies");
    } else {
      assert CounterKey == ViewedKey("caseStudies");
    }
  }

  /** A case-study visit raises a numeric count by exactly one. */
  lemma CaseStudyVisitCounts(m: map<string, string>, page: string, n: int)
    requires IsCaseStudy(page)
    requires CaseStudiesViewed(m) == Some(n)
    ensures CaseStudiesViewed(AfterPageView(m, page)) == Some(n + 1)
  {
    PageViewCounter(m, page);
    ParseIntOfIntToString(n + 1);
  }

  /** "work" (the case-study index, no trailing slash) does not count as a case study. */
  lemma WorkIndexKeepsCounter(m: map<string, string>)
    ensures Get(AfterPageView(m, "work"), CounterKey) == Get(m, CounterKey)
  {
    PageViewCounter(m, "work");
  }

  /**
   * Only the page's flag and the counter can change, and no key disappears:
   * the frameworks write only repeats the "frameworks" page's own flag.
   */
  lemma PageViewFrame(m: map<string, string>, page: string)
    ensures m.Keys <= AfterPageView(m, page).Keys
    ensures forall k :: k != ViewedKey(page) && k != CounterKey ==>
      Get(AfterPageView(m, page), k) == Get(m, k)
  {
  }

  /** Away from case studies a visit is idempotent, the duplicate frameworks write included. */
  lemma PageViewIdempotent(m: map<string, string>, page: string)
    requires !IsCaseStudy(page)
    ensures AfterPageView(AfterPageView(m, page), page) == AfterPageView(m, page)
  {
  }

  /** `trackDeepDive` sets its flag, touches nothing else and is idempotent. */
  lemma DeepDiveFlag(m: map<string, string>)
    ensures Get(AfterDeepDive(m), DeepDiveKey) == Some("true")
    ensures forall k :: k != DeepDiveKey ==> Get(AfterDeepDive(m), k) == Get(m, k)
    ensures m.Keys <= AfterDeepDive(m).Keys
    ensures AfterDeepDive(AfterDeepDive(m)) == AfterDeepDive(m)
  {
  }

  // ---------------------------------------------------------------------
  // Properties of a sequence of visits

  function AfterPageViews(m: map<string, string>, pages: seq<string>): map<string, string>
    decreases |pages|
  {
    if pages == [] then m else AfterPageViews(AfterPageView(m, pages[0]), pages[1..])
  }

  /** How many of `pages` are case studies. */
  function CaseStudyVisits(pages: seq<string>): nat
    decreases |pages|
  {
    if pages == [] then 0 else (if IsCaseStudy(pages[0]) then 1 else 0) + CaseStudyVisits(pages[1..])
  }

  /** The counter is missing, empty, or a decimal numeral. */
  predicate DecimalCounter(m: map<string, string>)
  {
    var v := Get(m, CounterKey);
    !Truthy(v) || AllDigits(v.value)
  }

  lemma DecimalCounterValue(m: map<string, string>)
    requires DecimalCounter(m)
    ensures CaseStudiesViewed(m).Some? && CaseStudiesViewed(m).value >= 0
  {
    var v := Get(m, CounterKey);
    if Truthy(v) {
      ParseIntOfDigits(v.value);
    }
  }

  /**
   * From a decimal counter, any visits that avoid the "caseStudies" page keep
   * the counter decimal and raise it by exactly the number of case-study
   * visits; in particular it never decreases.
   */
  lemma {:induction false} VisitsKeepDecimalCounter(m: map<string, string>, pages: seq<string>)
    requires DecimalCounter(m)
    requires "caseStudies" !in pages
    ensures DecimalCounter(AfterPageViews(m, pages))
    ensures CaseStudiesViewed(m).Some? && CaseStudiesViewed(AfterPageViews(m, pages)).Some?
    ensures CaseStudiesViewed(AfterPageViews(m, pages)).value ==
      CaseStudiesViewed(m).value + CaseStudyVisits(pages)
    decreases |pages|
  {
    DecimalCounterValue(m);
    if pages != [] {
      var page := pages[0];
      var next := AfterPageView(m, page);
      var n := CaseStudiesViewed(m).value;
      PageViewCounter(m, page);
      if IsCaseStudy(page) {
        CaseStudyVisitCounts(m, page, n);
        assert Get(next, CounterKey) == Some(NatToString(n + 1));
      }
      assert forall x :: x in pages[1..] ==> x in pages;
      VisitsKeepDecimalCounter(next, pages[1..]);
    }
  }

  /** Once the counter reads as `NaN`, no sequence of visits makes it a number again. */
  lemma {:induction false} NaNCounterSticks(m: map<string, string>, pages: seq<string>)
    requires CaseStudiesViewed(m) == None
    ensures CaseStudiesViewed(AfterPageViews(m, pages)) == None
    decreases |pages|
  {
    if pages != [] {
      var next := AfterPageView(m, pages[0]);
      PageViewCounter(m, pages[0]);
      ParseIntOfWords();
      assert CaseStudiesViewed(next) == None;
      NaNCounterSticks(next, pages[1..]);
    }
  }

  /**
   * A visit to "caseStudies" replaces a count of two with "true"; the next
   * case-study visit then stores "NaN", which no later visit repairs.
   */
  lemma CaseStudiesPageClobbersCounter()
    ensures Get(AfterPageView(map[CounterKey := "2"], "caseStudies"), CounterKey) == Some("true")
    ensures Get(AfterPageViews(map[CounterKey := "2"], ["caseStudies", "work/cdp"]), CounterKey) == Some("NaN")
  {
    var m := map[CounterKey := "2"];
    var once := AfterPageView(m, "caseStudies");
    assert !IsCaseStudy("caseStudies") by {
      assert "caseStudies"[0] != WorkPrefix[0];
    }
    PageViewCounter(m, "caseStudies");
    ParseIntOfWords();
    PageViewCounter(once, "work/cdp");
    assert AfterPageViews(m, ["caseStudies", "work/cdp"]) == AfterPageView(once, "work/cdp");
  }
}
