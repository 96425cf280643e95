/** Cardinality facts about finite sets, shared by the modules that count holders. */
module FiniteSets {
  lemma OneMoreOrLess(members: set<int>, t: int)
    ensures t in members ==> members + {t} == members && |members - {t}| == |members| - 1
    ensures t !in members ==> members - {t} == members && |members + {t}| == |members| + 1
    ensures t in members && |members| == 1 ==> members == {t}
  {
    if t in members && |members| == 1 { assert |members - {t}| == 0; }
  }

  lemma SingletonIsUnique(s: set<int>, t: int, u: int)
    requires |s| <= 1 && t in s && u in s
    ensures t == u
  {
    var rest := s - {t};
    assert |rest| == 0;
    assert u !in rest;
  }

  lemma Pick(s: set<int>) returns (t: int)
    requires |s| > 0
    ensures t in s
  {
    assert (forall x :: x !in s) ==> s == {};
    t :| t in s;
  }

  lemma SubsetSize(a: set<int>, b: set<int>)
    requires a <= b
    ensures |a| <= |b|
  {
    assert b == a + (b - a);
  }
}
