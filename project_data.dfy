/**
 * The `Project` record that the landing page's project section and the admin project
 * list both declare, and the subsequence relation their filters satisfy.
 */
module ProjectData {

  datatype Project = Project(id: int, title: string, description: string, image: string,
                             technologies: seq<string>, category: string,
                             liveUrl: string, githubUrl: string)

  /** `a` is `b` with some entries left out and the rest in their original order. */
  predicate SubsequenceOf(a: seq<Project>, b: seq<Project>)
    decreases |b|
  {
    if a == [] then true
    else if b == [] then false
    else if a[|a| - 1] == b[|b| - 1] then SubsequenceOf(a[..|a| - 1], b[..|b| - 1])
    else SubsequenceOf(a, b[..|b| - 1])
  }

  /** A subsequence is never longer than the sequence it is taken from, and holds only
      its entries. */
  lemma {:induction false} SubsequenceBounds(a: seq<Project>, b: seq<Project>)
    requires SubsequenceOf(a, b)
    ensures |a| <= |b|
    ensures forall x :: x in a ==> x in b
    decreases |b|
  {
    if a != [] {
      var b' := b[..|b| - 1];
      assert b == b' + [b[|b| - 1]];
      if a[|a| - 1] == b[|b| - 1] {
        var a' := a[..|a| - 1];
        SubsequenceBounds(a', b');
        assert a == a' + [a[|a| - 1]];
      } else {
        SubsequenceBounds(a, b');
      }
    }
  }

  /** A subsequence of all but the last entry is a subsequence of the whole. */
  lemma SubsequenceDropLast(a: seq<Project>, b: seq<Project>)
    requires b != [] && SubsequenceOf(a, b[..|b| - 1])
    requires a != [] ==> a[|a| - 1] != b[|b| - 1]
    ensures SubsequenceOf(a, b)
  {
  }

  /** Every sequence is a subsequence of itself. */
  lemma {:induction false} SubsequenceSelf(s: seq<Project>)
    ensures SubsequenceOf(s, s)
  {
    if s != [] {
      SubsequenceSelf(s[..|s| - 1]);
    }
  }
}
