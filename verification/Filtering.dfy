/** What a filter loop keeps of a list. */
module Filtering {
  /** The elements that pass a test, in order. */
  function Keep<T>(s: seq<T>, test: T -> bool): seq<T> {
    if s == [] then []
    else
      var n := |s| - 1;
      Keep(s[..n], test) + if test(s[n]) then [s[n]] else []
  }

  /** The positions in `picks` are those of the elements that pass, and `part`
      holds these elements in their order. */
  ghost predicate PickedBy<T>(part: seq<T>, s: seq<T>, test: T -> bool, picks: seq<nat>) {
    && |picks| == |part|
    && (forall i, j :: 0 <= i < j < |picks| ==> picks[i] < picks[j])
    && (forall j :: 0 <= j < |picks| ==> picks[j] < |s| && part[j] == s[picks[j]] && test(part[j]))
    && (forall i: nat :: i < |s| && test(s[i]) ==> i in picks)
  }

  lemma PickLast<T(!new)>(part: seq<T>, s: seq<T>, test: T -> bool, picks: seq<nat>, last: T)
    requires PickedBy(part, s, test, picks)
    ensures !test(last) ==> PickedBy(part, s + [last], test, picks)
    ensures test(last) ==> PickedBy(part + [last], s + [last], test, picks + [|s|])
  {
    var all, longer := picks + [|s|], s + [last];
    assert forall i :: 0 <= i < |s| ==> longer[i] == s[i];
    assert longer[|s|] == last && all[|picks|] == |s|;
    assert forall i: nat :: i in picks ==> i in all;
  }

  /** Where the elements stand that pass. */
  function Positions<T>(s: seq<T>, test: T -> bool): seq<nat> {
    if s == [] then []
    else
      var n := |s| - 1;
      Positions(s[..n], test) + if test(s[n]) then [n] else []
  }

  lemma {:induction false} KeepPicks<T(!new)>(s: seq<T>, test: T -> bool)
    ensures PickedBy(Keep(s, test), s, test, Positions(s, test))
  {
    hide PickedBy;
    if s == [] {
      NothingPicked(s, test);
    } else {
      var n := |s| - 1;
      KeepPicks(s[..n], test);
      PickLast(Keep(s[..n], test), s[..n], test, Positions(s[..n], test), s[n]);
      assert s[..n] + [s[n]] == s && Keep(s[..n], test) + [] == Keep(s[..n], test);
      assert Positions(s[..n], test) + [] == Positions(s[..n], test);
    }
  }

  lemma NothingPicked<T(!new)>(s: seq<T>, test: T -> bool)
    requires s == []
    ensures PickedBy(Keep(s, test), s, test, Positions(s, test))
  {
  }
}
