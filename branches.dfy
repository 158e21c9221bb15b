/** The source branch named by the triggering event's `ref`. */
module Branches {
  import opened Strings

  /** The prefix git gives branch refs. */
  const HeadsPrefix: string := "refs/heads/"

  predicate IsSlash(c: char) {
    c == '/'
  }

  /** The event ref with every `refs/heads/` removed, scanning left to right, and
      then every leading and trailing `/` stripped. The result never starts or ends
      with a slash. */
  function NormaliseRef(ref: string): (r: string)
    ensures r != [] ==> r[0] != '/' && r[|r| - 1] != '/'
    ensures forall c :: c in r ==> c in ref
  {
    var removed := RemoveAll(ref, HeadsPrefix);
    forall c | c in removed ensures c in ref {
      RemoveAllChars(ref, HeadsPrefix, c);
    }
    Strip(removed, IsSlash)
  }

  /** A branch ref gives the branch name it carries, as long as that name holds no
      `refs/heads/` of its own and neither starts nor ends with a slash. */
  lemma NormaliseBranchRef(name: string)
    requires !Occurs(name, HeadsPrefix)
    requires name != [] ==> name[0] != '/' && name[|name| - 1] != '/'
    ensures NormaliseRef(HeadsPrefix + name) == name
  {
    RemoveAllHit(name, HeadsPrefix);
    RemoveAllAbsent(name, HeadsPrefix);
  }

  /** `refs/heads/feature/x` names the branch `feature/x`. */
  lemma NormaliseFeatureBranch()
    ensures NormaliseRef("refs/heads/feature/x") == "feature/x"
  {
    var name := "feature/x";
    assert "refs/heads/feature/x" == HeadsPrefix + name;
    RemoveAllHit(name, HeadsPrefix);
    assert RemoveAll(name, HeadsPrefix) == name;
  }

  /** The removal is not anchored at the start: an occurrence in the middle goes too. */
  lemma NormaliseInnerOccurrence()
    ensures NormaliseRef("x/refs/heads/y") == "x/y"
  {
    var rest := "refs/heads/y";
    assert rest == HeadsPrefix + "y";
    RemoveAllHit("y", HeadsPrefix);
    assert ("/" + rest)[0] != HeadsPrefix[0];
    RemoveAllMiss('/', rest, HeadsPrefix);
    RemoveAllMiss('x', "/" + rest, HeadsPrefix);
    assert "x/refs/heads/y" == ['x'] + ("/" + rest);
    assert RemoveAll("x/refs/heads/y", HeadsPrefix) == "x/y";
  }

  /** The removal is a single pass: a `refs/heads/` that only appears once an inner one
      is removed stays in the result. */
  lemma NormaliseSinglePass()
    ensures NormaliseRef("refs/refs/heads/heads/x") == "refs/heads/x"
  {
    assert "refs/refs/heads/heads/x" == "refs/" + (HeadsPrefix + "heads/x");
    NormaliseNested("refs/", "heads/x");
  }

  /** `refs/` + `refs/heads/` + `heads/x` normalises to `refs/heads/x`. */
  lemma NormaliseNested(p: string, tail: string)
    requires p == "refs/" && tail == "heads/x"
    ensures NormaliseRef(p + (HeadsPrefix + tail)) == "refs/heads/x"
  {
    RemoveSinglePass(p, tail);
    var r := p + tail;
    assert r == "refs/heads/x";
    assert r[0] == 'r' && r[|r| - 1] == 'x';
  }

  /** Removing `refs/heads/` from `refs/` + `refs/heads/` + `heads/x` leaves
      `refs/heads/x`: the scan keeps `refs/`, removes the occurrence after it, and does
      not look again at the text the removal joined. */
  lemma RemoveSinglePass(p: string, tail: string)
    requires p == "refs/" && tail == "heads/x"
    ensures RemoveAll(p + (HeadsPrefix + tail), HeadsPrefix) == p + tail
  {
    var rest := HeadsPrefix + tail;
    forall i: nat | i < |p| ensures !OccursAt(p + rest, HeadsPrefix, i) {
      NoOccurrenceAt(p, rest, i);
    }
    RemoveAllKeep(p, rest, HeadsPrefix);
    RemoveAllHit(tail, HeadsPrefix);
  }

  /** No `refs/heads/` starts inside `refs/` when the text after it starts with `r`:
      the first four positions do not hold an `r`, and the fifth is followed by an `r`
      where `refs/heads/` has an `h`. */
  lemma NoOccurrenceAt(p: string, rest: string, i: nat)
    requires p == "refs/" && rest != [] && rest[0] == 'r' && i < 5
    ensures !OccursAt(p + rest, HeadsPrefix, i)
  {
    var s := p + rest;
    if i + |HeadsPrefix| <= |s| {
      if i == 0 {
        assert s[5] == rest[0];
        assert s[..11][5] == s[5];
      } else {
        assert s[i] == p[i];
        assert s[i..i + 11][0] == s[i];
      }
    }
  }
}
