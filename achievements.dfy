/**
 * `components/AchievementSystem.tsx`: a fixed catalog of four achievements,
 * each with an unlock condition over `localStorage`, and the pass
 * `checkAchievements` that walks the catalog in order and unlocks each
 * achievement at most once, guarded by its `achievement_<id>` key.
 * `PassStore` and `PassUnlocked` give what one pass leaves behind; the
 * component calls the pass on mount and then every two seconds, which is
 * modelled as calling `CheckAchievements` repeatedly.
 */
module Achievements {
  import opened Wrappers
  import opened Storage
  import opened Numerals
  import Tracking

  /** The four unlock conditions of the catalog. */
  datatype Rule = CaseStudiesRule | FrameworksRule | DeepDiveRule | AllSectionsRule

  datatype Achievement = Achievement(id: string, name: string, description: string, icon: string, rule: Rule)

  const ProblemHunter := Achievement("problem-hunter", "Problem Hunter", "Viewed 3+ case studies", "\U{1F3AF}", CaseStudiesRule)
  const FrameworkExplorer := Achievement("framework-explorer", "Framework Explorer", "Checked frameworks section", "\U{1F9E9}", FrameworksRule)
  const DeepDiver := Achievement("deep-diver", "Deep Diver", "Spent 5+ min on one project", "\U{1F4A1}", DeepDiveRule)
  const PmEnthusiast := Achievement("pm-enthusiast", "PM Enthusiast", "Completed all sections", "\U{1F3C6}", AllSectionsRule)

  const Catalog: seq<Achievement> := [ProblemHunter, FrameworkExplorer, DeepDiver, PmEnthusiast]

  /** The flags the "all sections" condition requires. */
  const Sections: seq<string> := ["homeViewed", "aboutViewed", "workViewed", "frameworksViewed", "contactViewed"]

  /** "problem-hunter": the stored count parses to at least 3 (a missing or empty counter fails). */
  predicate ViewedThreeCaseStudies(m: map<string, string>)
  {
    var viewed := Get(m, Tracking.CounterKey);
    if Truthy(viewed) then ParseInt(viewed.value).Some? && ParseInt(viewed.value).value >= 3 else false
  }

  /** "framework-explorer": the frameworks flag is "true". */
  predicate ViewedFrameworks(m: map<string, string>)
  {
    Get(m, Tracking.FrameworksKey) == Some("true")
  }

  /** "deep-diver": the dwell flag is "true". */
  predicate DeepDived(m: map<string, string>)
  {
    Get(m, Tracking.DeepDiveKey) == Some("true")
  }

  /** "pm-enthusiast": every section flag is "true". */
  predicate ViewedAllSections(m: map<string, string>)
  {
    forall i :: 0 <= i < |Sections| ==> Get(m, Sections[i]) == Some("true")
  }

  predicate Condition(rule: Rule, m: map<string, string>)
  {
    match rule
    case CaseStudiesRule => ViewedThreeCaseStudies(m)
    case FrameworksRule => ViewedFrameworks(m)
    case DeepDiveRule => DeepDived(m)
    case AllSectionsRule => ViewedAllSections(m)
  }

  /** The guard key `achievement_<id>`. */
  function Key(id: string): string
  {
    "achievement_" + id
  }

  /** The guard reads as set: `getItem` gives a non-empty string. */
  predicate Unlocked(m: map<string, string>, id: string)
  {
    Truthy(Get(m, Key(id)))
  }

  predicate Unlocks(m: map<string, string>, a: Achievement)
  {
    !Unlocked(m, a.id) && Condition(a.rule, m)
  }

  /** One iteration of the pass over `a`. */
  function Step(m: map<string, string>, a: Achievement): map<string, string>
  {
    if Unlocks(m, a) then m[Key(a.id) := "true"] else m
  }

  /** The store after a pass over `cs`, each step seeing the writes of the earlier ones. */
  function PassStore(m: map<string, string>, cs: seq<Achievement>): map<string, string>
    decreases |cs|
  {
    if cs == [] then m else Step(PassStore(m, cs[..|cs| - 1]), cs[|cs| - 1])
  }

  /** The achievements a pass over `cs` unlocks, in the order it unlocks them. */
  function PassUnlocked(m: map<string, string>, cs: seq<Achievement>): seq<Achievement>
    decreases |cs|
  {
    if cs == [] then []
    else
      var before := cs[..|cs| - 1];
      var a := cs[|cs| - 1];
      PassUnlocked(m, before) + (if Unlocks(PassStore(m, before), a) then [a] else [])
  }

  /** Reference definition: the entries of `cs` whose guard and condition allow unlocking in `m` itself. */
  function Unlockable(m: map<string, string>, cs: seq<Achievement>): seq<Achievement>
    decreases |cs|
  {
    if cs == [] then []
    else Unlockable(m, cs[..|cs| - 1]) + (if Unlocks(m, cs[|cs| - 1]) then [cs[|cs| - 1]] else [])
  }

  function IdsOf(cs: seq<Achievement>): seq<string>
    decreases |cs|
  {
    if cs == [] then [] else IdsOf(cs[..|cs| - 1]) + [cs[|cs| - 1].id]
  }

  /** Extending the walked prefix by one entry adds one step. */
  lemma PassStep(m: map<string, string>, cs: seq<Achievement>, i: nat)
    requires i < |cs|
    ensures PassStore(m, cs[..i + 1]) == Step(PassStore(m, cs[..i]), cs[i])
    ensures PassUnlocked(m, cs[..i + 1]) ==
      if Unlocks(PassStore(m, cs[..i]), cs[i]) then PassUnlocked(m, cs[..i]) + [cs[i]] else PassUnlocked(m, cs[..i])
  {
    assert cs[..i + 1][..i] == cs[..i];
    assert PassUnlocked(m, cs[..i]) + [] == PassUnlocked(m, cs[..i]);
  }

  /** What one more step of the walk does to each quantity the toast state is built from. */
  lemma PassStepState(m: map<string, string>, cs: seq<Achievement>, i: nat, current: Option<Achievement>)
    requires i < |cs|
    ensures var before, fired := PassUnlocked(m, cs[..i]), Unlocks(PassStore(m, cs[..i]), cs[i]);
      && PassStore(m, cs[..i + 1]) == Step(PassStore(m, cs[..i]), cs[i])
      && IdsOf(PassUnlocked(m, cs[..i + 1])) == IdsOf(before) + (if fired then [cs[i].id] else [])
      && LastOr(PassUnlocked(m, cs[..i + 1]), current) == (if fired then Some(cs[i]) else LastOr(before, current))
      && (PassUnlocked(m, cs[..i + 1]) != []) == (before != [] || fired)
  {
    PassStep(m, cs, i);
    IdsOfAppend(PassUnlocked(m, cs[..i]), cs[i]);
  }

  lemma IdsOfAppend(cs: seq<Achievement>, a: Achievement)
    ensures IdsOf(cs + [a]) == IdsOf(cs) + [a.id]
  {
    assert (cs + [a])[..|cs|] == cs;
  }

  function KeysOf(cs: seq<Achievement>): set<string>
    decreases |cs|
  {
    if cs == [] then {} else KeysOf(cs[..|cs| - 1]) + {Key(cs[|cs| - 1].id)}
  }

  /** The last of `s`, or `current` when `s` is empty (`setCurrentAchievement`: last call wins). */
  function LastOr(s: seq<Achievement>, current: Option<Achievement>): Option<Achievement>
  {
    if s == [] then current else Some(s[|s| - 1])
  }

  predicate DistinctIds(cs: seq<Achievement>)
  {
    forall i, j :: 0 <= i < j < |cs| ==> cs[i].id != cs[j].id
  }

  /** The toast state of `AchievementSystem`. */
  class AchievementSystem {
    var unlockedAchievements: seq<string>
    var currentAchievement: Option<Achievement>
    var showToast: bool

    constructor ()
      ensures unlockedAchievements == [] && currentAchievement == None && !showToast
    {
      unlockedAchievements := [];
      currentAchievement := None;
      showToast := false;
    }

    /** `checkAchievements`: one pass over the catalog. */
    method CheckAchievements(storage: LocalStorage)
      modifies this, storage
      ensures storage.items == PassStore(old(storage.items), Catalog)
      ensures unlockedAchievements ==
        old(unlockedAchievements) + IdsOf(PassUnlocked(old(storage.items), Catalog))
      ensures currentAchievement == LastOr(PassUnlocked(old(storage.items), Catalog), old(currentAchievement))
      ensures showToast == (old(showToast) || PassUnlocked(old(storage.items), Catalog) != [])
    {
      Evaluate(storage, Catalog);
    }

    /** The `forEach` of `checkAchievements` over `achievements`. */
    method Evaluate(storage: LocalStorage, achievements: seq<Achievement>)
      modifies this, storage
      ensures storage.items == PassStore(old(storage.items), achievements)
      ensures unlockedAchievements ==
        old(unlockedAchievements) + IdsOf(PassUnlocked(old(storage.items), achievements))
      ensures currentAchievement == LastOr(PassUnlocked(old(storage.items), achievements), old(currentAchievement))
      ensures showToast == (old(showToast) || PassUnlocked(old(storage.items), achievements) != [])
    {
      ghost var m0 := storage.items;
      var i := 0;
      while i < |achievements|
        invariant 0 <= i <= |achievements|
        invariant storage.items == PassStore(m0, achievements[..i])
        invariant unlockedAchievements == old(unlockedAchievements) + IdsOf(PassUnlocked(m0, achievements[..i]))
        invariant currentAchievement == LastOr(PassUnlocked(m0, achievements[..i]), old(currentAchievement))
        invariant showToast == (old(showToast) || PassUnlocked(m0, achievements[..i]) != [])
      {
        PassStepState(m0, achievements, i, old(currentAchievement));
        var fired := Visit(storage, achievements[i]);
        i := i + 1;
      }
      assert achievements[..i] == achievements;
    }

    /** The body of the `forEach`: unlock `achievement` when its guard is unset and its condition holds. */
    method Visit(storage: LocalStorage, achievement: Achievement) returns (fired: bool)
      modifies this, storage
      ensures fired == Unlocks(old(storage.items), achievement)
      ensures storage.items == Step(old(storage.items), achievement)
      ensures unlockedAchievements == old(unlockedAchievements) + (if fired then [achievement.id] else [])
      ensures currentAchievement == (if fired then Some(achievement) else old(currentAchievement))
      ensures showToast == (old(showToast) || fired)
    {
      var unlocked := storage.GetItem(Key(achievement.id));
      fired := !Truthy(unlocked) && Condition(achievement.rule, storage.items);
      if fired {
        storage.SetItem(Key(achievement.id), "true");
        unlockedAchievements := unlockedAchievements + [achievement.id];
        currentAchievement := Some(achievement);
        showToast := true;
      }
    }

    /** The dismiss button, and the timer five seconds after an unlock, hide the toast. */
    method HideToast()
      modifies this
      ensures !showToast
      ensures unlockedAchievements == old(unlockedAchievements) && currentAchievement == old(currentAchievement)
    {
      showToast := false;
    }
  }

  // ---------------------------------------------------------------------
  // The conditions

  /** "problem-hunter" holds exactly when the count the recorder would increment is at least 3. */
  lemma ProblemHunterCondition(m: map<string, string>)
    ensures Condition(CaseStudiesRule, m) <==>
      Tracking.CaseStudiesViewed(m).Some? && Tracking.CaseStudiesViewed(m).value >= 3
  {
  }

  /** "pm-enthusiast" needs the frameworks flag, so it implies "framework-explorer". */
  lemma AllSectionsImpliesFrameworks(m: map<string, string>)
    ensures Condition(AllSectionsRule, m) ==> Condition(FrameworksRule, m)
  {
    if Condition(AllSectionsRule, m) {
      assert Get(m, Sections[3]) == Some("true");
    }
  }

  /** The pages whose `<page>Viewed` flags the "all sections" condition reads, in the same order. */
  const SectionPages: seq<string> := ["home", "about", "work", "frameworks", "contact"]

  lemma SectionFlags()
    ensures |SectionPages| == |Sections|
    ensures forall i :: 0 <= i < |Sections| ==> Tracking.ViewedKey(SectionPages[i]) == Sections[i]
  {
    assert Tracking.ViewedKey(SectionPages[0]) == Sections[0];
    assert Tracking.ViewedKey(SectionPages[1]) == Sections[1];
    assert Tracking.ViewedKey(SectionPages[2]) == Sections[2];
    assert Tracking.ViewedKey(SectionPages[3]) == Sections[3];
    assert Tracking.ViewedKey(SectionPages[4]) == Sections[4];
  }

  /** "pm-enthusiast" holds exactly when the recorder has flagged home, about, work, frameworks and contact. */
  lemma AllSectionsCondition(m: map<string, string>)
    ensures Condition(AllSectionsRule, m) <==>
      forall i :: 0 <= i < |SectionPages| ==> Get(m, Tracking.ViewedKey(SectionPages[i])) == Some("true")
  {
    SectionFlags();
  }

  /** A guard key starts "ac"; no key a condition reads does. */
  lemma KeyIsNotConditionKey(id: string, k: string)
    requires k == Tracking.CounterKey || k == Tracking.FrameworksKey || k == Tracking.DeepDiveKey || k in Sections
    ensures Key(id) != k
  {
    assert Key(id)[0] == 'a' && Key(id)[1] == 'c';
  }

  /** Writing a guard key does not change any condition. */
  lemma ConditionIgnoresKey(rule: Rule, m: map<string, string>, id: string, v: string)
    ensures Condition(rule, m[Key(id) := v]) == Condition(rule, m)
  {
    var m' := m[Key(id) := v];
    KeyIsNotConditionKey(id, Tracking.CounterKey);
    KeyIsNotConditionKey(id, Tracking.FrameworksKey);
    KeyIsNotConditionKey(id, Tracking.DeepDiveKey);
    forall i | 0 <= i < |Sections| ensures Get(m', Sections[i]) == Get(m, Sections[i]) {
      KeyIsNotConditionKey(id, Sections[i]);
    }
  }

  lemma KeyInjective(a: string, b: string)
    ensures Key(a) == Key(b) ==> a == b
  {
    if Key(a) == Key(b) {
      assert a == Key(a)[12..];
      assert b == Key(b)[12..];
    }
  }

  // ---------------------------------------------------------------------
  // One pass

  lemma {:induction false} KeysOfMembers(cs: seq<Achievement>, k: string)
    ensures k in KeysOf(cs) <==> exists x :: x in cs && k == Key(x.id)
    decreases |cs|
  {
    if cs != [] {
      var before := cs[..|cs| - 1];
      KeysOfMembers(before, k);
      assert cs == before + [cs[|cs| - 1]];
    }
  }

  /** A pass writes only guard keys of the achievements it walks, and never removes a key. */
  lemma {:induction false} PassFrame(m: map<string, string>, cs: seq<Achievement>)
    ensures m.Keys <= PassStore(m, cs).Keys
    ensures forall k :: k !in KeysOf(cs) ==> Get(PassStore(m, cs), k) == Get(m, k)
    decreases |cs|
  {
    if cs != [] {
      PassFrame(m, cs[..|cs| - 1]);
    }
  }

  /** No condition changes during a pass. */
  lemma {:induction false} PassKeepsConditions(m: map<string, string>, cs: seq<Achievement>, rule: Rule)
    ensures Condition(rule, PassStore(m, cs)) == Condition(rule, m)
    decreases |cs|
  {
    if cs != [] {
      var before := cs[..|cs| - 1];
      var a := cs[|cs| - 1];
      PassKeepsConditions(m, before, rule);
      if Unlocks(PassStore(m, before), a) {
        ConditionIgnoresKey(rule, PassStore(m, before), a.id, "true");
      }
    }
  }

  /** The last entry's guard is untouched by the earlier entries of a catalog with distinct ids. */
  lemma LastKeyUntouched(m: map<string, string>, cs: seq<Achievement>)
    requires cs != [] && DistinctIds(cs)
    ensures Get(PassStore(m, cs[..|cs| - 1]), Key(cs[|cs| - 1].id)) == Get(m, Key(cs[|cs| - 1].id))
    ensures Unlocks(PassStore(m, cs[..|cs| - 1]), cs[|cs| - 1]) == Unlocks(m, cs[|cs| - 1])
  {
    var before := cs[..|cs| - 1];
    var a := cs[|cs| - 1];
    PassFrame(m, before);
    PassKeepsConditions(m, before, a.rule);
    KeysOfMembers(before, Key(a.id));
    if Key(a.id) in KeysOf(before) {
      var x :| x in before && Key(a.id) == Key(x.id);
      KeyInjective(a.id, x.id);
      assert false;
    }
  }

  lemma DistinctIdsPrefix(cs: seq<Achievement>)
    requires cs != [] && DistinctIds(cs)
    ensures DistinctIds(cs[..|cs| - 1])
  {
    var before := cs[..|cs| - 1];
    forall i, j | 0 <= i < j < |before| ensures before[i].id != before[j].id {
      assert before[i] == cs[i] && before[j] == cs[j];
    }
  }

  /**
   * After a pass, each achievement's guard reads "true" if the achievement
   * was locked and its condition held, and is as before otherwise.
   */
  lemma {:induction false} PassGuard(m: map<string, string>, cs: seq<Achievement>, a: Achievement)
    requires DistinctIds(cs) && a in cs
    ensures Get(PassStore(m, cs), Key(a.id)) == if Unlocks(m, a) then Some("true") else Get(m, Key(a.id))
    decreases |cs|
  {
    var before := cs[..|cs| - 1];
    var last := cs[|cs| - 1];
    LastKeyUntouched(m, cs);
    if a == last {
    } else {
      assert a in before by {
        var j :| 0 <= j < |cs| && cs[j] == a;
        assert j < |cs| - 1;
        assert before[j] == a;
      }
      DistinctIdsPrefix(cs);
      PassGuard(m, before, a);
      var j :| 0 <= j < |before| && before[j] == a;
      assert cs[j].id != last.id;
      KeyInjective(a.id, last.id);
    }
  }

  /** The pass unlocks exactly the entries that are unlockable in the store it started from, in catalog order. */
  lemma {:induction false} PassUnlocksUnlockable(m: map<string, string>, cs: seq<Achievement>)
    requires DistinctIds(cs)
    ensures PassUnlocked(m, cs) == Unlockable(m, cs)
    decreases |cs|
  {
    if cs != [] {
      LastKeyUntouched(m, cs);
      DistinctIdsPrefix(cs);
      PassUnlocksUnlockable(m, cs[..|cs| - 1]);
    }
  }

  /** An entry is unlockable exactly when it is in the catalog, locked, and its condition holds. */
  lemma {:induction false} UnlockableMembers(m: map<string, string>, cs: seq<Achievement>, a: Achievement)
    ensures a in Unlockable(m, cs) <==> a in cs && Unlocks(m, a)
    decreases |cs|
  {
    if cs != [] {
      var before := cs[..|cs| - 1];
      UnlockableMembers(m, before, a);
      assert cs == before + [cs[|cs| - 1]];
    }
  }

  /** A pass that finds nothing to unlock changes nothing. */
  lemma {:induction false} NothingToUnlock(m: map<string, string>, cs: seq<Achievement>)
    requires forall a :: a in cs ==> !Unlocks(m, a)
    ensures PassStore(m, cs) == m && PassUnlocked(m, cs) == []
    decreases |cs|
  {
    if cs != [] {
      var before := cs[..|cs| - 1];
      assert forall a :: a in before ==> a in cs;
      NothingToUnlock(m, before);
      assert cs[|cs| - 1] in cs;
    }
  }

  /** A second pass over the store the first pass left unlocks nothing and changes nothing. */
  lemma SecondPassIsNoOp(m: map<string, string>, cs: seq<Achievement>)
    requires DistinctIds(cs)
    ensures PassStore(PassStore(m, cs), cs) == PassStore(m, cs)
    ensures PassUnlocked(PassStore(m, cs), cs) == []
  {
    var p := PassStore(m, cs);
    forall a | a in cs ensures !Unlocks(p, a) {
      PassGuard(m, cs, a);
      PassKeepsConditions(m, cs, a.rule);
    }
    NothingToUnlock(p, cs);
  }

  lemma CatalogIdsDistinct()
    ensures DistinctIds(Catalog)
  {
  }

  /**
   * One catalog pass: it unlocks exactly the catalog entries that were locked
   * with their condition true, in catalog order; their guards then read
   * "true"; every other key keeps its value and no key is removed; running
   * it again changes nothing.
   */
  lemma CatalogPass(m: map<string, string>)
    ensures forall a :: a in PassUnlocked(m, Catalog) <==> a in Catalog && Unlocks(m, a)
    ensures PassUnlocked(m, Catalog) == Unlockable(m, Catalog)
    ensures forall a :: a in Catalog ==>
      Get(PassStore(m, Catalog), Key(a.id)) == if Unlocks(m, a) then Some("true") else Get(m, Key(a.id))
    ensures m.Keys <= PassStore(m, Catalog).Keys
    ensures forall k :: k !in KeysOf(Catalog) ==> Get(PassStore(m, Catalog), k) == Get(m, k)
    ensures PassStore(PassStore(m, Catalog), Catalog) == PassStore(m, Catalog)
    ensures PassUnlocked(PassStore(m, Catalog), Catalog) == []
  {
    CatalogIdsDistinct();
    PassUnlocksUnlockable(m, Catalog);
    forall a ensures a in PassUnlocked(m, Catalog) <==> a in Catalog && Unlocks(m, a) {
      UnlockableMembers(m, Catalog, a);
    }
    forall a | a in Catalog
      ensures Get(PassStore(m, Catalog), Key(a.id)) == if Unlocks(m, a) then Some("true") else Get(m, Key(a.id))
    {
      PassGuard(m, Catalog, a);
    }
    PassFrame(m, Catalog);
    SecondPassIsNoOp(m, Catalog);
  }

  /** "pm-enthusiast" is never unlocked without "framework-explorer". */
  predicate PmAfterFramework(m: map<string, string>)
  {
    Unlocked(m, PmEnthusiast.id) ==> Unlocked(m, FrameworkExplorer.id)
  }

  /** A pass keeps that order: the pm condition implies the framework one, and framework is checked first. */
  lemma PassKeepsPmAfterFramework(m: map<string, string>)
    requires PmAfterFramework(m)
    ensures PmAfterFramework(PassStore(m, Catalog))
  {
    CatalogIdsDistinct();
    PassGuard(m, Catalog, PmEnthusiast);
    PassGuard(m, Catalog, FrameworkExplorer);
    AllSectionsImpliesFrameworks(m);
  }
}
