/**
 * `components/PageTracker.tsx`: on every change of the route's pathname it
 * turns the path into a page name and records a visit.  The effect runs
 * only in the browser, so the recorder is called with a window present.
 */
module PageTracker {
  import opened Wrappers
  import opened Storage
  import Tracking

  /** `s.replace("/", "")`: a string pattern replaces only its first occurrence. */
  function RemoveFirstSlash(s: string): (r: string)
    ensures '/' !in s ==> r == s
    ensures '/' in s ==> |r| == |s| - 1
    decreases |s|
  {
    if s == [] then []
    else if s[0] == '/' then s[1..]
    else [s[0]] + RemoveFirstSlash(s[1..])
  }

  /** The page name of a pathname; the root maps to "home". */
  function PageName(pathname: string): (page: string)
    ensures page != []
  {
    var stripped := RemoveFirstSlash(pathname);
    if stripped == [] then "home" else stripped
  }

  /** The store after the effect has seen `pathname` (`null` and "" track nothing). */
  function AfterNavigation(m: map<string, string>, pathname: Option<string>): map<string, string>
  {
    if Truthy(pathname) then Tracking.AfterPageView(m, PageName(pathname.value)) else m
  }

  method OnPathnameChange(storage: LocalStorage, pathname: Option<string>)
    modifies storage
    ensures storage.items == AfterNavigation(old(storage.items), pathname)
  {
    if Truthy(pathname) {
      var page := PageName(pathname.value);
      Tracking.TrackPageView(storage, true, page);
    }
  }

  /** Exactly the first slash goes: the result is the text before it followed by the text after it. */
  lemma {:induction false} RemoveFirstSlashAt(s: string, i: nat)
    requires i < |s| && s[i] == '/' && '/' !in s[..i]
    ensures RemoveFirstSlash(s) == s[..i] + s[i + 1..]
    decreases i
  {
    if i > 0 {
      assert s[0] in s[..i];
      assert '/' !in s[1..][..i - 1] by {
        assert s[1..][..i - 1] == s[1..i];
        assert forall c :: c in s[1..i] ==> c in s[..i];
      }
      RemoveFirstSlashAt(s[1..], i - 1);
      assert s[1..][..i - 1] + s[1..][i..] == s[1..i] + s[i + 1..];
      assert [s[0]] + s[1..i] == s[..i];
    }
  }

  /** A pathname beginning with "/" loses just that slash; "/" alone becomes "home". */
  lemma LeadingSlashStripped(pathname: string)
    requires pathname != [] && pathname[0] == '/'
    ensures PageName(pathname) == if |pathname| == 1 then "home" else pathname[1..]
  {
  }

  lemma PageNameExamples()
    ensures PageName("/") == "home"
    ensures PageName("/about") == "about"
    ensures PageName("/work/cdp") == "work/cdp"
    ensures PageName("/work") == "work"
  {
    LeadingSlashStripped("/");
    LeadingSlashStripped("/about");
    LeadingSlashStripped("/work/cdp");
    LeadingSlashStripped("/work");
  }

  /** `null` and the empty pathname record nothing. */
  lemma NoPathnameNoTracking(m: map<string, string>)
    ensures AfterNavigation(m, None) == m
    ensures AfterNavigation(m, Some("")) == m
  {
  }

  /** Navigating to "/work/<x>" records one more case study. */
  lemma CaseStudyNavigationCounts(m: map<string, string>, x: string, n: int)
    requires Tracking.CaseStudiesViewed(m) == Some(n)
    ensures Tracking.CaseStudiesViewed(AfterNavigation(m, Some("/work/" + x))) == Some(n + 1)
  {
    var path := "/work/" + x;
    LeadingSlashStripped(path);
    assert PageName(path) == "work/" + x;
    Tracking.CaseStudyVisitCounts(m, "work/" + x, n);
  }

  /** Navigating to "/work", the case-study index, leaves the counter alone. */
  lemma WorkIndexNavigationKeepsCounter(m: map<string, string>)
    ensures Get(AfterNavigation(m, Some("/work")), Tracking.CounterKey) == Get(m, Tracking.CounterKey)
  {
    PageNameExamples();
    Tracking.WorkIndexKeepsCounter(m);
  }
}
