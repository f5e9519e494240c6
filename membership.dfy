/** The list operations the controllers apply to member and application lists:
    MongoDB's `$addToSet` and `$pull`, and the `.find` used to pick a new leader. */
module Membership {
  import opened Types

  /** No element occurs twice. */
  predicate NoDup(s: seq<nat>)
  {
    forall i, j :: 0 <= i < j < |s| ==> s[i] != s[j]
  }

  /** `$addToSet`: append `x` unless it is already present. */
  function AddToSet(s: seq<nat>, x: nat): (r: seq<nat>)
    ensures forall y :: y in r <==> y in s || y == x
    ensures x !in s ==> r == s + [x]
    ensures x in s ==> r == s
    ensures NoDup(s) ==> NoDup(r)
  {
    if x in s then s else s + [x]
  }

  /** `$pull`: remove every occurrence of `x`, keeping the others in order. */
  function Pull(s: seq<nat>, x: nat): (r: seq<nat>)
    ensures forall y :: y in r <==> y in s && y != x
    ensures x !in s ==> r == s
    ensures NoDup(s) ==> NoDup(r)
    ensures NoDup(s) && x in s ==> |r| == |s| - 1
    decreases |s|
  {
    if s == [] then []
    else if s[0] == x then Pull(s[1..], x)
    else
      var rest := Pull(s[1..], x);
      assert s[0] !in s[1..] ==> s[0] !in rest;
      [s[0]] + rest
  }

  /** When `x` occurs exactly once, at index `i`, pulling it leaves the list with that
      one element cut out: the remaining elements keep their order. */
  lemma {:induction false} PullAt(s: seq<nat>, x: nat, i: nat)
    requires i < |s| && s[i] == x
    requires x !in s[..i] && x !in s[i + 1..]
    ensures Pull(s, x) == s[..i] + s[i + 1..]
    decreases i
  {
    if i == 0 {
      assert s[1..] == s[i + 1..];
    } else {
      var t := s[1..];
      assert s[0] != x by { assert s[..i][0] == s[0]; }
      assert t[..i - 1] == s[1..i];
      assert t[i..] == s[i + 1..];
      var before := t[..i - 1];
      assert x !in before by {
        forall k | 0 <= k < |before| ensures before[k] != x {
          assert before[k] == s[..i][k + 1];
        }
      }
      PullAt(t, x, i - 1);
      calc {
        Pull(s, x);
        [s[0]] + Pull(t, x);
        [s[0]] + (s[1..i] + s[i + 1..]);
        { assert s[..i] == [s[0]] + s[1..i]; }
        s[..i] + s[i + 1..];
      }
    }
  }

  /** Under NoDup, a member's position is the unique index where it occurs. */
  lemma NoDupSplit(s: seq<nat>, i: nat)
    requires NoDup(s) && i < |s|
    ensures s[i] !in s[..i] && s[i] !in s[i + 1..]
  {
    var before, after := s[..i], s[i + 1..];
    assert forall k :: 0 <= k < |before| ==> before[k] != s[i];
    assert forall k :: 0 <= k < |after| ==> after[k] == s[i + 1 + k] != s[i];
  }

  /** `.find(m => m !== u)`: the first element different from `u`, if any. */
  function FindOther(s: seq<nat>, u: nat): (r: Option<nat>)
    ensures r.None? <==> forall j :: 0 <= j < |s| ==> s[j] == u
    ensures r.Some? ==> r.value in s && r.value != u
    decreases |s|
  {
    if s == [] then None
    else if s[0] != u then Some(s[0])
    else
      var r := FindOther(s[1..], u);
      assert forall j :: 1 <= j < |s| ==> s[j] == s[1..][j - 1];
      r
  }

  /** What `FindOther` finds comes no later than any element different from `u`: it is
      the first such element in list order. */
  lemma {:induction false} FindOtherIsFirst(s: seq<nat>, u: nat, j: nat)
    requires j < |s| && s[j] != u
    ensures FindOther(s, u).Some? && FindOther(s, u).value in s[..j + 1]
    decreases j
  {
    var prefix := s[..j + 1];
    if s[0] != u {
      assert prefix[0] == s[0];
    } else {
      var tail := s[1..];
      assert tail[j - 1] == s[j];
      FindOtherIsFirst(tail, u, j - 1);
      var found := FindOther(tail, u).value;
      var k :| 0 <= k < j && tail[..j][k] == found;
      assert prefix[k + 1] == found;
    }
  }

  /** A list with no duplicates and more than one element has an element other than `u`. */
  lemma FindOtherInLongList(s: seq<nat>, u: nat)
    requires NoDup(s) && |s| > 1
    ensures FindOther(s, u).Some?
  {
    assert s[0] != s[1];
  }
}
