/**
 * A visitor's session as the layout wires it: the page tracker records each
 * navigation, the dwell-time signal may call `trackDeepDive`, and the
 * achievement pass runs on mount and on every tick of its two-second
 * interval.  A run is any interleaving of these events over one store.
 */
module Session {
  import opened Wrappers
  import opened Storage
  import Tracking
  import PageTracker
  import Achievements

  /**
   * `Navigate` is one run of the `PageTracker` effect. React re-runs it only
   * when the pathname changes or the component remounts, so repeated identical
   * `Navigate` events stand for reloads; lemmas over all runs cover more runs
   * than the site can produce.
   */
  datatype Event = Navigate(pathname: Option<string>) | DwellElapsed | Poll

  function Apply(m: map<string, string>, e: Event): map<string, string>
  {
    match e
    case Navigate(pathname) => PageTracker.AfterNavigation(m, pathname)
    case DwellElapsed => Tracking.AfterDeepDive(m)
    case Poll => Achievements.PassStore(m, Achievements.Catalog)
  }

  function Run(m: map<string, string>, events: seq<Event>): map<string, string>
    decreases |events|
  {
    if events == [] then m else Run(Apply(m, events[0]), events[1..])
  }

  predicate IsCatalogId(id: string)
  {
    exists a :: a in Achievements.Catalog && a.id == id
  }

  /** Catalog ids end in 'r' or 't', so no "<page>Viewed" flag is a guard key. */
  lemma FlagIsNotGuard(page: string, id: string)
    requires IsCatalogId(id)
    ensures Tracking.ViewedKey(page) != Achievements.Key(id)
  {
    var flag := Tracking.ViewedKey(page);
    var guard := Achievements.Key(id);
    assert flag[|flag| - 1] == 'd';
    assert guard[|guard| - 1] == id[|id| - 1];
  }

  /** Recording visits and dwell time never writes a catalog guard key. */
  lemma RecordingKeepsGuard(m: map<string, string>, e: Event, id: string)
    requires IsCatalogId(id) && !e.Poll?
    ensures Get(Apply(m, e), Achievements.Key(id)) == Get(m, Achievements.Key(id))
  {
    Achievements.KeyIsNotConditionKey(id, Tracking.CounterKey);
    Achievements.KeyIsNotConditionKey(id, Tracking.FrameworksKey);
    Achievements.KeyIsNotConditionKey(id, Tracking.DeepDiveKey);
    if e.Navigate? && Truthy(e.pathname) {
      var page := PageTracker.PageName(e.pathname.value);
      FlagIsNotGuard(page, id);
      Tracking.PageViewFrame(m, page);
    }
  }

  /** An unlocked achievement stays unlocked: there is no way back to locked. */
  lemma {:induction false} UnlockedStaysUnlocked(m: map<string, string>, events: seq<Event>, id: string)
    requires IsCatalogId(id) && Achievements.Unlocked(m, id)
    ensures Achievements.Unlocked(Run(m, events), id)
    decreases |events|
  {
    if events != [] {
      var e := events[0];
      if e.Poll? {
        var a :| a in Achievements.Catalog && a.id == id;
        Achievements.CatalogPass(m);
      } else {
        RecordingKeepsGuard(m, e, id);
      }
      UnlockedStaysUnlocked(Apply(m, e), events[1..], id);
    }
  }

  /** In every run, "pm-enthusiast" is unlocked only if "framework-explorer" is. */
  lemma {:induction false} RunKeepsPmAfterFramework(m: map<string, string>, events: seq<Event>)
    requires Achievements.PmAfterFramework(m)
    ensures Achievements.PmAfterFramework(Run(m, events))
    decreases |events|
  {
    if events != [] {
      var e := events[0];
      if e.Poll? {
        Achievements.PassKeepsPmAfterFramework(m);
      } else {
        assert IsCatalogId(Achievements.PmEnthusiast.id) by {
          assert Achievements.Catalog[3] == Achievements.PmEnthusiast;
        }
        assert IsCatalogId(Achievements.FrameworkExplorer.id) by {
          assert Achievements.Catalog[1] == Achievements.FrameworkExplorer;
        }
        RecordingKeepsGuard(m, e, Achievements.PmEnthusiast.id);
        RecordingKeepsGuard(m, e, Achievements.FrameworkExplorer.id);
      }
      RunKeepsPmAfterFramework(Apply(m, e), events[1..]);
    }
  }

  lemma {:induction false} RunAppend(m: map<string, string>, events: seq<Event>, e: Event)
    ensures Run(m, events + [e]) == Apply(Run(m, events), e)
    decreases |events|
  {
    if events != [] {
      assert (events + [e])[1..] == events[1..] + [e];
      RunAppend(Apply(m, events[0]), events[1..], e);
    }
  }

  /** A count of at least 3 unlocks a still-locked "problem-hunter" on the next pass. */
  lemma CountOfThreeUnlocksProblemHunter(m: map<string, string>)
    requires Tracking.CaseStudiesViewed(m).Some? && Tracking.CaseStudiesViewed(m).value >= 3
    requires !Achievements.Unlocked(m, "problem-hunter")
    ensures Get(Apply(m, Poll), Achievements.Key("problem-hunter")) == Some("true")
  {
    Achievements.ProblemHunterCondition(m);
    assert Achievements.Catalog[0] == Achievements.ProblemHunter;
    Achievements.CatalogPass(m);
  }

  /** One visit to "/work/cdp" raises the count by one and leaves the "problem-hunter" guard alone. */
  lemma CaseStudyNavigation(m: map<string, string>, n: int)
    requires Tracking.CaseStudiesViewed(m) == Some(n)
    ensures Tracking.CaseStudiesViewed(Apply(m, Navigate(Some("/work/cdp")))) == Some(n + 1)
    ensures Get(Apply(m, Navigate(Some("/work/cdp"))), Achievements.Key("problem-hunter")) ==
      Get(m, Achievements.Key("problem-hunter"))
  {
    assert "/work/cdp" == "/work/" + "cdp";
    PageTracker.CaseStudyNavigationCounts(m, "cdp", n);
    assert IsCatalogId("problem-hunter") by {
      assert Achievements.Catalog[0].id == "problem-hunter";
    }
    RecordingKeepsGuard(m, Navigate(Some("/work/cdp")), "problem-hunter");
  }

  /** Three visits to "/work/cdp" raise the count by three and leave "problem-hunter" locked. */
  lemma ThreeCaseStudyVisits(m: map<string, string>, n: int, events: seq<Event>)
    requires events == [Navigate(Some("/work/cdp")), Navigate(Some("/work/cdp")), Navigate(Some("/work/cdp"))]
    requires Tracking.CaseStudiesViewed(m) == Some(n)
    ensures Tracking.CaseStudiesViewed(Run(m, events)) == Some(n + 3)
    ensures Get(Run(m, events), Achievements.Key("problem-hunter")) == Get(m, Achievements.Key("problem-hunter"))
  {
    var visit := Navigate(Some("/work/cdp"));
    var m1 := Apply(m, visit);
    var m2 := Apply(m1, visit);
    CaseStudyNavigation(m, n);
    CaseStudyNavigation(m1, n + 1);
    CaseStudyNavigation(m2, n + 2);
    var r1, r2 := events[1..], events[2..];
    assert events[0] == visit && r1[0] == visit && r2[0] == visit;
    assert r1[1..] == r2 && r2[1..] == [];
    assert Run(m, events) == Run(m1, r1);
    assert Run(m1, r1) == Run(m2, r2);
    assert Run(m2, r2) == Apply(m2, visit);
  }

  /** From a store with a count of 0 or more and "problem-hunter" locked, three case-study visits and a pass unlock it. */
  lemma ThreeCaseStudiesUnlockProblemHunter(m: map<string, string>, n: int, events: seq<Event>)
    requires events == [Navigate(Some("/work/cdp")), Navigate(Some("/work/cdp")), Navigate(Some("/work/cdp")), Poll]
    requires Tracking.CaseStudiesViewed(m) == Some(n) && n >= 0
    requires !Achievements.Unlocked(m, "problem-hunter")
    ensures Get(Run(m, events), Achievements.Key("problem-hunter")) == Some("true")
  {
    var visits := events[..3];
    assert events == visits + [Poll];
    ThreeCaseStudyVisits(m, n, visits);
    CountOfThreeUnlocksProblemHunter(Run(m, visits));
    RunAppend(m, visits, Poll);
  }

  /** Recording writes "true" everywhere except the counter, so a "true" flag other than the counter stays "true". */
  lemma RecordingKeepsTrueFlag(m: map<string, string>, e: Event, k: string)
    requires !e.Poll? && k != Tracking.CounterKey && Get(m, k) == Some("true")
    ensures Get(Apply(m, e), k) == Some("true")
  {
  }

  /** No event turns a "true" value of any key but the counter into something else. */
  lemma {:induction false} RunKeepsTrueFlag(m: map<string, string>, events: seq<Event>, k: string)
    requires k != Tracking.CounterKey && Get(m, k) == Some("true")
    ensures Get(Run(m, events), k) == Some("true")
    decreases |events|
  {
    if events != [] {
      var e := events[0];
      if e.Poll? {
        Achievements.CatalogPass(m);
        Achievements.KeysOfMembers(Achievements.Catalog, k);
      } else {
        RecordingKeepsTrueFlag(m, e, k);
      }
      RunKeepsTrueFlag(Apply(m, e), events[1..], k);
    }
  }

  /** A page visited at some point of a run has its flag "true" at the end (the counter's own page aside). */
  lemma {:induction false} VisitedPageFlagged(m: map<string, string>, events: seq<Event>, i: nat, path: string)
    requires i < |events| && events[i] == Navigate(Some(path)) && path != ""
    requires Tracking.ViewedKey(PageTracker.PageName(path)) != Tracking.CounterKey
    ensures Get(Run(m, events), Tracking.ViewedKey(PageTracker.PageName(path))) == Some("true")
    decreases i
  {
    if i == 0 {
      Tracking.PageViewSetsFlag(m, PageTracker.PageName(path));
      RunKeepsTrueFlag(Apply(m, events[0]), events[1..], Tracking.ViewedKey(PageTracker.PageName(path)));
    } else {
      VisitedPageFlagged(Apply(m, events[0]), events[1..], i - 1, path);
    }
  }

  /** Recording alone never changes a catalog guard. */
  lemma {:induction false} RecordingRunKeepsGuard(m: map<string, string>, events: seq<Event>, id: string)
    requires IsCatalogId(id)
    requires forall j :: 0 <= j < |events| ==> !events[j].Poll?
    ensures Get(Run(m, events), Achievements.Key(id)) == Get(m, Achievements.Key(id))
    decreases |events|
  {
    if events != [] {
      RecordingKeepsGuard(m, events[0], id);
      assert forall j :: 0 <= j < |events[1..]| ==> events[1..][j] == events[j + 1];
      RecordingRunKeepsGuard(Apply(m, events[0]), events[1..], id);
    }
  }

  const SectionPaths: seq<string> := ["/", "/about", "/work", "/frameworks", "/contact"]

  /** One navigation to each of the section paths, in order. */
  function SectionVisits(): (events: seq<Event>)
    ensures |events| == |SectionPaths|
    ensures forall i :: 0 <= i < |SectionPaths| ==> events[i] == Navigate(Some(SectionPaths[i]))
  {
    seq(|SectionPaths|, i requires 0 <= i < |SectionPaths| => Navigate(Some(SectionPaths[i])))
  }

  /** The five section paths name the pages whose flags "pm-enthusiast" reads. */
  lemma SectionPageNames()
    ensures forall i :: 0 <= i < |SectionPaths| ==> PageTracker.PageName(SectionPaths[i]) == Achievements.SectionPages[i]
  {
    PageTracker.PageNameExamples();
    PageTracker.LeadingSlashStripped(SectionPaths[3]);
    PageTracker.LeadingSlashStripped(SectionPaths[4]);
    assert SectionPaths[3][1..] == Achievements.SectionPages[3];
    assert SectionPaths[4][1..] == Achievements.SectionPages[4];
  }

  /** No section flag is the counter key. */
  lemma SectionFlagsAreNotCounter()
    ensures forall i :: 0 <= i < |SectionPaths| ==> Tracking.ViewedKey(Achievements.SectionPages[i]) != Tracking.CounterKey
  {
    Achievements.SectionFlags();
    forall i | 0 <= i < |SectionPaths| ensures Tracking.ViewedKey(Achievements.SectionPages[i]) != Tracking.CounterKey {
      assert |Achievements.Sections[i]| < |Tracking.CounterKey|;
    }
  }

  /** Visiting the five sections once each (in this order) sets all five flags. */
  lemma SectionsFlagged(m0: map<string, string>, events: seq<Event>)
    requires |events| == |SectionPaths|
    requires forall i :: 0 <= i < |SectionPaths| ==> events[i] == Navigate(Some(SectionPaths[i]))
    ensures Achievements.Condition(Achievements.AllSectionsRule, Run(m0, events))
  {
    var m := Run(m0, events);
    SectionPageNames();
    SectionFlagsAreNotCounter();
    forall i | 0 <= i < |SectionPaths| ensures Get(m, Tracking.ViewedKey(Achievements.SectionPages[i])) == Some("true") {
      VisitedPageFlagged(m0, events, i, SectionPaths[i]);
    }
    Achievements.AllSectionsCondition(m);
  }

  /** Visiting each of the five sections once sets all five flags and leaves a locked "pm-enthusiast" locked. */
  lemma FiveSectionVisits(m0: map<string, string>, events: seq<Event>)
    requires |events| == |SectionPaths|
    requires forall i :: 0 <= i < |SectionPaths| ==> events[i] == Navigate(Some(SectionPaths[i]))
    requires !Achievements.Unlocked(m0, "pm-enthusiast")
    ensures Achievements.Condition(Achievements.AllSectionsRule, Run(m0, events))
    ensures !Achievements.Unlocked(Run(m0, events), "pm-enthusiast")
  {
    SectionsFlagged(m0, events);
    assert IsCatalogId("pm-enthusiast") by {
      assert Achievements.Catalog[3].id == "pm-enthusiast";
    }
    RecordingRunKeepsGuard(m0, events, "pm-enthusiast");
  }

  /** After visiting the five sections once each, the next pass unlocks "pm-enthusiast", with nothing else required first. */
  lemma AllSectionsUnlockPmEnthusiast()
    ensures Get(Run(map[], SectionVisits() + [Poll]), Achievements.Key("pm-enthusiast")) == Some("true")
  {
    var visits := SectionVisits();
    FiveSectionVisits(map[], visits);
    var m := Run(map[], visits);
    assert Achievements.Catalog[3] == Achievements.PmEnthusiast;
    Achievements.CatalogPass(m);
    RunAppend(map[], visits, Poll);
  }
}
