/** Character-level string operations of the Python standard library that the
    scanner and the artifact store depend on, with the laws that connect them. */
module Text {

  datatype Option<+T> = None | Some(value: T)

  function Min(a: int, b: int): (m: int)
    ensures m <= a && m <= b && m in {a, b}
  {
    if a < b then a else b
  }

  predicate Distinct<T(==)>(s: seq<T>) {
    forall i, j :: 0 <= i < j < |s| ==> s[i] != s[j]
  }

  predicate StartsWith(s: string, prefix: string) {
    prefix <= s
  }

  /** Python's `t in s`. */
  predicate Contains(s: string, t: string) {
    exists i :: 0 <= i <= |s| && OccursAt(s, t, i)
  }

  predicate OccursAt(s: string, t: string, i: nat) {
    i + |t| <= |s| && s[i..i + |t|] == t
  }

  /** Lower case of ASCII letters. */
  function Lower(s: string): string {
    seq(|s|, i requires 0 <= i < |s| => if 'A' <= s[i] <= 'Z' then (s[i] as int + 32) as char else s[i])
  }

  /** How one more character in front changes a split. */
  function Cons(c: char, sep: char, rest: seq<string>): seq<string>
    requires |rest| >= 1
  {
    if c == sep then [""] + rest else [[c] + rest[0]] + rest[1..]
  }

  /** Python's `s.split(sep)` for a one-character separator. */
  function Split(s: string, sep: char): (parts: seq<string>)
    ensures |parts| >= 1
  {
    if s == "" then [""]
    else
      Cons(s[0], sep, Split(s[1..], sep))
  }

  /** Python's `sep.join(parts)` for a non-empty list. */
  function Join(parts: seq<string>, sep: char): string
    requires |parts| >= 1
  {
    if |parts| == 1 then parts[0] else parts[0] + [sep] + Join(parts[1..], sep)
  }

  lemma {:induction false} SplitWithoutSeparator(s: string, sep: char)
    requires sep !in s
    ensures Split(s, sep) == [s]
  {
    if s != "" {
      SplitWithoutSeparator(s[1..], sep);
      assert [s[0]] + s[1..] == s;
    }
  }

  /** Splitting distributes over a separator. */
  lemma {:induction false} SplitAppend(a: string, sep: char, b: string)
    ensures Split(a + [sep] + b, sep) == Split(a, sep) + Split(b, sep)
  {
    var s := a + [sep] + b;
    if a == "" {
      assert s[1..] == b;
    } else {
      SplitAppend(a[1..], sep, b);
      assert s[1..] == a[1..] + [sep] + b;
      ConsAppend(a[0], sep, Split(a[1..], sep), Split(b, sep));
    }
  }

  lemma ConsAppend(c: char, sep: char, front: seq<string>, back: seq<string>)
    requires |front| >= 1
    ensures Cons(c, sep, front + back) == Cons(c, sep, front) + back
  {
    if c != sep {
      assert (front + back)[1..] == front[1..] + back;
    }
  }

  lemma {:induction false} JoinAppend(a: seq<string>, b: seq<string>, sep: char)
    requires |a| >= 1 && |b| >= 1
    ensures Join(a + b, sep) == Join(a, sep) + [sep] + Join(b, sep)
  {
    if |a| == 1 {
      assert (a + b)[1..] == b;
    } else {
      assert (a + b)[1..] == a[1..] + b;
      JoinAppend(a[1..], b, sep);
    }
  }

  /** Joining undoes splitting. */
  lemma {:induction false} JoinSplit(s: string, sep: char)
    ensures Join(Split(s, sep), sep) == s
  {
    if s != "" {
      var rest := Split(s[1..], sep);
      JoinSplit(s[1..], sep);
      if s[0] == sep {
        assert ([""] + rest)[1..] == rest;
      } else {
        var parts := [[s[0]] + rest[0]] + rest[1..];
        assert parts[1..] == rest[1..];
      }
    }
  }

  /** Splitting undoes joining, provided no part holds the separator. */
  lemma {:induction false} SplitJoin(parts: seq<string>, sep: char)
    requires |parts| >= 1
    requires forall k :: 0 <= k < |parts| ==> sep !in parts[k]
    ensures Split(Join(parts, sep), sep) == parts
  {
    SplitWithoutSeparator(parts[0], sep);
    if |parts| > 1 {
      SplitJoin(parts[1..], sep);
      SplitAppend(parts[0], sep, Join(parts[1..], sep));
    }
  }

  lemma SplitWrapped(s: string, sep: char)
    ensures Split([sep] + s + [sep], sep) == [""] + Split(s, sep) + [""]
  {
    SplitAppend("", sep, s + [sep]);
    SplitAppend(s, sep, "");
    assert [sep] + s + [sep] == "" + [sep] + (s + [sep]);
    assert s + [sep] == s + [sep] + "";
  }

  lemma SplitAround(a: string, sep: char, part: string, b: string)
    requires sep !in part
    ensures Split(a + [sep] + part + [sep] + b, sep) == Split(a, sep) + [part] + Split(b, sep)
  {
    SplitAppend(a + [sep] + part, sep, b);
    SplitAppend(a, sep, part);
    SplitWithoutSeparator(part, sep);
  }

  lemma JoinAround(before: seq<string>, sep: char, part: string, after: seq<string>)
    requires |before| >= 1 && |after| >= 1
    ensures Join(before + [part] + after, sep) == Join(before, sep) + [sep] + part + [sep] + Join(after, sep)
  {
    JoinAppend(before + [part], after, sep);
    JoinAppend(before, [part], sep);
  }

  lemma OccursBetween(before: string, needle: string, after: string)
    ensures Contains(before + needle + after, needle)
  {
    assert OccursAt(before + needle + after, needle, |before|);
  }

  lemma SplitPartOccurs(s: string, sep: char, k: nat)
    requires 0 < k < |Split(s, sep)| - 1
    ensures Contains(s, [sep] + Split(s, sep)[k] + [sep])
  {
    hide Split, Join, Contains;
    var parts := Split(s, sep);
    assert parts == parts[..k] + [parts[k]] + parts[k + 1..];
    JoinSplit(s, sep);
    JoinAround(parts[..k], sep, parts[k], parts[k + 1..]);
    var needle := [sep] + parts[k] + [sep];
    var before, after := Join(parts[..k], sep), Join(parts[k + 1..], sep);
    assert s == before + needle + after;
    OccursBetween(before, needle, after);
  }

  lemma OccurrenceIsSplitPart(s: string, sep: char, part: string)
    requires sep !in part && Contains(s, [sep] + part + [sep])
    ensures part in Split(s, sep)
  {
    var needle := [sep] + part + [sep];
    var i :| 0 <= i <= |s| && OccursAt(s, needle, i);
    var a, b := s[..i], s[i + |needle|..];
    assert s == a + [sep] + part + [sep] + b;
    SplitAround(a, sep, part, b);
  }

  /** A non-empty component is present exactly when that component between two
      separators is a substring of the text wrapped in separators. */
  lemma ComponentIffSubstring(s: string, sep: char, part: string)
    requires part != "" && sep !in part
    ensures part in Split(s, sep) <==> Contains([sep] + s + [sep], [sep] + part + [sep])
  {
    SplitWrapped(s, sep);
    if part in Split(s, sep) {
      var j :| 0 <= j < |Split(s, sep)| && Split(s, sep)[j] == part;
      SplitPartOccurs([sep] + s + [sep], sep, j + 1);
    }
    if Contains([sep] + s + [sep], [sep] + part + [sep]) {
      OccurrenceIsSplitPart([sep] + s + [sep], sep, part);
    }
  }

  // ---- Order ------------------------------------------------------------------

  /** Python's order on strings. */
  predicate TextLess(a: string, b: string) {
    b != "" && (a == "" || a[0] < b[0] || (a[0] == b[0] && TextLess(a[1..], b[1..])))
  }

  lemma {:induction false} TextOrder(a: string, b: string, c: string)
    ensures TextLess(a, b) || TextLess(b, a) || a == b
    ensures !(TextLess(a, b) && TextLess(b, a)) && !TextLess(a, a)
    ensures TextLess(a, b) && TextLess(b, c) ==> TextLess(a, c)
    decreases |a| + |b| + |c|
  {
    if a != "" {
      assert b != "" ==> a == [a[0]] + a[1..] && b == [b[0]] + b[1..];
      TextOrder(a[1..], if b != "" then b[1..] else b, if c != "" then c[1..] else c);
    }
  }

  /** The first difference decides; a text comes before everything it begins. */
  ghost predicate Earlier(a: string, b: string) {
    exists n: nat :: n <= |a| && n < |b| && a[..n] == b[..n] && (n == |a| || a[n] < b[n])
  }

  lemma {:induction false} TextLessIff(a: string, b: string)
    ensures TextLess(a, b) <==> Earlier(a, b)
  {
    if a != "" && b != "" && a[0] == b[0] {
      TextLessIff(a[1..], b[1..]);
      assert a == [a[0]] + a[1..] && b == [b[0]] + b[1..];
      if Earlier(a[1..], b[1..]) {
        EarlierLater(a, b);
      }
      if Earlier(a, b) {
        var n: nat :| n <= |a| && n < |b| && a[..n] == b[..n] && (n == |a| || a[n] < b[n]);
        assert a[1..][..n - 1] == a[..n][1..] && b[1..][..n - 1] == b[..n][1..];
      }
    } else if b != "" && (a == "" || a[0] < b[0]) {
      assert a[..0] == b[..0];
    } else {
      EarlierHeads(a, b);
    }
  }

  lemma EarlierHeads(a: string, b: string)
    ensures Earlier(a, b) ==> b != "" && (a == "" || a[0] <= b[0])
  {
    if Earlier(a, b) {
      var n: nat :| n <= |a| && n < |b| && a[..n] == b[..n] && (n == |a| || a[n] < b[n]);
      if n > 0 {
        assert a[..n][0] == b[..n][0];
      }
    }
  }

  lemma EarlierLater(a: string, b: string)
    requires a != "" && b != "" && a[0] == b[0] && Earlier(a[1..], b[1..])
    ensures Earlier(a, b)
  {
    var a', b' := a[1..], b[1..];
    var n: nat :| n <= |a'| && n < |b'| && a'[..n] == b'[..n] && (n == |a'| || a'[n] < b'[n]);
    assert a[..n + 1] == [a[0]] + a'[..n] && b[..n + 1] == [b[0]] + b'[..n];
  }

  /** The keys of a report or a listing in Python's sorted order. */
  predicate Ascending(keys: seq<string>) {
    forall i, j :: 0 <= i < j < |keys| ==> TextLess(keys[i], keys[j])
  }

  method Least(keys: set<string>) returns (least: string)
    requires keys != {}
    ensures least in keys && forall k :: k in keys && k != least ==> TextLess(least, k)
  {
    least :| least in keys;
    var rest := keys - {least};
    while rest != {}
      invariant rest <= keys && least in keys && least !in rest
      invariant forall k :: k in keys - rest && k != least ==> TextLess(least, k)
      decreases rest
    {
      var k :| k in rest;
      rest := rest - {k};
      TextOrder(k, least, k);
      if TextLess(k, least) {
        forall other | other in keys - rest && other != k ensures TextLess(k, other) {
          TextOrder(k, least, other);
        }
        least := k;
      }
    }
  }

  method Sorted(keys: set<string>) returns (order: seq<string>)
    ensures Ascending(order) && forall k :: k in order <==> k in keys
  {
    order := [];
    var rest := keys;
    while rest != {}
      invariant rest <= keys && forall k :: k in order <==> k in keys - rest
      invariant Ascending(order)
      invariant forall a, b :: a in order && b in rest ==> TextLess(a, b)
      decreases rest
    {
      var k := Least(rest);
      forall a, b | a in order + [k] && b in rest - {k} ensures TextLess(a, b) {
      }
      order := order + [k];
      rest := rest - {k};
    }
  }

  lemma AscendingIsDistinct(order: seq<string>)
    requires Ascending(order)
    ensures Distinct(order)
  {
    forall i, j | 0 <= i < j < |order| ensures order[i] != order[j] {
      TextOrder(order[i], order[j], order[i]);
    }
  }

  /** There is only one ascending listing of a set of keys. */
  lemma {:induction false} AscendingUnique(a: seq<string>, b: seq<string>)
    requires Ascending(a) && Ascending(b) && forall k :: k in a <==> k in b
    ensures a == b
  {
    assert b != [] ==> b[0] in b;
    if a != [] {
      assert a[0] in b && b[0] in a;
      TextOrder(a[0], b[0], a[0]);
      assert a[0] == b[0];
      AscendingIsDistinct(a);
      AscendingIsDistinct(b);
      forall k ensures k in a[1..] <==> k in b[1..] {
        assert k in a[1..] <==> k in a && k != a[0];
        assert k in b[1..] <==> k in b && k != b[0];
      }
      AscendingUnique(a[1..], b[1..]);
    }
  }
}
