/** Workflow ids. A root id is a UUID; a child id is its parent's id, a colon and the spawning step. */
module Ids {
  import opened Wrappers
  import opened Text

  type Id = string

  /** The id `spawn_child` derives for the child spawned at a step of a parent. */
  function ChildId(parent: Id, step: nat): Id {
    parent + ":" + NatText(step)
  }

  /** Ids chosen by the API: no colon occurs in a UUID. */
  predicate RootId(id: Id) {
    ':' !in id
  }

  lemma ChildIdIsLonger(parent: Id, step: nat)
    ensures |parent| < |ChildId(parent, step)|
  {
  }

  /** A child id is never taken by a root workflow. */
  lemma ChildIdIsNotRoot(parent: Id, step: nat)
    ensures !RootId(ChildId(parent, step))
  {
    assert ChildId(parent, step)[|parent|] == ':';
  }

  /** The id is the parent's, a colon, and the step in decimal. */
  lemma ChildIdText(parent: Id, step: nat)
    ensures var id := ChildId(parent, step);
      && parent < id && id[|parent|] == ':' && ParseInt(id[|parent| + 1..]) == Some(step)
      && (id[|parent| + 1] == '0' ==> step == 0) && '0' <= id[|parent| + 1] <= '9'
    ensures ChildId("w", 7) == "w:7"
  {
    var id := ChildId(parent, step);
    assert id[|parent| + 1..] == NatText(step) == IntText(step);
    ParseIntText(step);
    NoLeadingZero(step);
    DigitTexts();
  }

  /**
   * The last colon splits a child id uniquely, so no two spawn sites of any two parents,
   * at any nesting depth, share an id.
   */
  lemma ChildIdInjective(p: Id, i: nat, q: Id, j: nat)
    requires ChildId(p, i) == ChildId(q, j)
    ensures p == q && i == j
  {
    var s := ChildId(p, i);
    assert forall k :: |p| < k < |s| ==> s[k] == NatText(i)[k - |p| - 1];
    assert forall k :: |q| < k < |s| ==> s[k] == NatText(j)[k - |q| - 1];
    assert s[|p|] == ':' && s[|q|] == ':';
    assert |p| == |q|;
    assert p == s[..|p|] && q == s[..|q|];
    assert NatText(i) == s[|p| + 1..] == NatText(j);
    ParseNatText(i);
    ParseNatText(j);
  }
}
