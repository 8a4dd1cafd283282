/** Searching, split, join and trim, over any alphabet. */
module Text {
  import opened Basics

  /** indexOf(x, from) */
  function IndexFrom<T(==)>(s: seq<T>, x: T, from: nat): (at: Option<nat>)
    ensures at.Some? ==> from <= at.value < |s| && s[at.value] == x && forall i | from <= i < at.value :: s[i] != x
    ensures at.None? ==> forall i | from <= i < |s| :: s[i] != x
    decreases |s| - from
  {
    if from >= |s| then None else if s[from] == x then Some(from) else IndexFrom(s, x, from + 1)
  }

  /** lastIndexOf(x), among the first `before` elements */
  function LastIndex<T(==)>(s: seq<T>, x: T, before: nat): (at: Option<nat>)
    requires before <= |s|
    ensures at.Some? ==> at.value < before && s[at.value] == x && forall i | at.value < i < before :: s[i] != x
    ensures at.None? ==> forall i | 0 <= i < before :: s[i] != x
  {
    if before == 0 then None else if s[before - 1] == x then Some(before - 1) else LastIndex(s, x, before - 1)
  }

  function Split<T(==)>(s: seq<T>, sep: T): (parts: seq<seq<T>>)
    ensures parts != []
    ensures forall i | 0 <= i < |parts| :: sep !in parts[i]
  {
    if s == [] then [[]]
    else
      var rest := Split(s[1..], sep);
      if s[0] == sep then [[]] + rest else [[s[0]] + rest[0]] + rest[1..]
  }

  function Join<T>(parts: seq<seq<T>>, sep: T): seq<T> {
    if parts == [] then [] else if |parts| == 1 then parts[0] else parts[0] + [sep] + Join(parts[1..], sep)
  }

  lemma {:induction false} SplitOfJoinedTwo<T>(a: seq<T>, b: seq<T>, sep: T)
    requires sep !in a
    ensures Split(a, sep) == [a]
    ensures Split(a + [sep] + b, sep) == [a] + Split(b, sep)
  {
    var s := a + [sep] + b;
    if a == [] {
      assert s[1..] == b;
    } else {
      assert a[0] in a;
      assert s[1..] == a[1..] + [sep] + b;
      SplitOfJoinedTwo(a[1..], b, sep);
      assert [a[0]] + a[1..] == a;
    }
  }

  /** Splitting undoes joining when no part holds the separator. */
  lemma {:induction false} SplitOfJoin<T>(parts: seq<seq<T>>, sep: T)
    requires parts != [] && forall i | 0 <= i < |parts| :: sep !in parts[i]
    ensures Split(Join(parts, sep), sep) == parts
  {
    if |parts| == 1 {
      SplitOfJoinedTwo(parts[0], [], sep);
    } else {
      SplitOfJoinedTwo(parts[0], Join(parts[1..], sep), sep);
      SplitOfJoin(parts[1..], sep);
    }
  }

  /** And joining undoes splitting, always. */
  lemma {:induction false} JoinOfSplit<T>(s: seq<T>, sep: T)
    ensures Join(Split(s, sep), sep) == s
  {
    if s != [] {
      JoinOfSplit(s[1..], sep);
      var rest := Split(s[1..], sep);
      assert s == [s[0]] + s[1..];
      if s[0] == sep {
        JoinCons([], rest, sep);
      } else {
        JoinHead(s[0], rest, sep);
      }
    }
  }

  lemma JoinCons<T>(part: seq<T>, rest: seq<seq<T>>, sep: T)
    requires rest != []
    ensures Join([part] + rest, sep) == part + [sep] + Join(rest, sep)
  {
    assert ([part] + rest)[1..] == rest;
  }

  lemma JoinHead<T>(x: T, rest: seq<seq<T>>, sep: T)
    requires rest != []
    ensures Join([[x] + rest[0]] + rest[1..], sep) == [x] + Join(rest, sep)
  {
    var parts := [[x] + rest[0]] + rest[1..];
    assert parts[1..] == rest[1..];
    if |rest| == 1 {
      assert parts == [[x] + rest[0]];
    } else {
      assert [x] + rest[0] + [sep] + Join(rest[1..], sep) == [x] + (rest[0] + [sep] + Join(rest[1..], sep));
    }
  }

  /** The white space trim() takes away. */
  predicate IsSpace(c: char) {
    var n := c as int;
    || 0x09 <= n <= 0x0d || n == 0x20 || n == 0xa0 || n == 0x1680 || 0x2000 <= n <= 0x200a
    || n == 0x2028 || n == 0x2029 || n == 0x202f || n == 0x205f || n == 0x3000 || n == 0xfeff
  }

  function TrimStart<T>(s: seq<T>, blank: T -> bool): (t: seq<T>)
    ensures t != [] ==> !blank(t[0])
    ensures t != [] && s != [] ==> t[|t| - 1] == s[|s| - 1]
    ensures forall x | x in t :: x in s
  {
    if s != [] && blank(s[0]) then TrimStart(s[1..], blank) else s
  }

  function TrimEnd<T>(s: seq<T>, blank: T -> bool): (t: seq<T>)
    ensures t != [] ==> !blank(t[|t| - 1]) && s != [] && t[0] == s[0]
    ensures forall x | x in t :: x in s
  {
    if s != [] && blank(s[|s| - 1]) then TrimEnd(s[..|s| - 1], blank) else s
  }

  ghost predicate Trimmed<T>(s: seq<T>, blank: T -> bool) {
    s != [] ==> !blank(s[0]) && !blank(s[|s| - 1])
  }

  function Trim<T>(s: seq<T>, blank: T -> bool): (t: seq<T>)
    ensures Trimmed(t, blank)
    ensures forall x | x in t :: x in s
    ensures Trimmed(s, blank) ==> t == s
  {
    TrimEnd(TrimStart(s, blank), blank)
  }

  ghost predicate Blank<T>(s: seq<T>, blank: T -> bool) { forall x | x in s :: blank(x) }

  lemma {:induction false} TrimStartSkips<T>(before: seq<T>, s: seq<T>, blank: T -> bool)
    requires Blank(before, blank)
    ensures TrimStart(before + s, blank) == TrimStart(s, blank)
  {
    if before == [] {
      assert before + s == s;
    } else {
      assert (before + s)[1..] == before[1..] + s;
      TrimStartSkips(before[1..], s, blank);
    }
  }

  lemma {:induction false} TrimEndSkips<T>(s: seq<T>, after: seq<T>, blank: T -> bool)
    requires Blank(after, blank)
    ensures TrimEnd(s + after, blank) == TrimEnd(s, blank)
  {
    if after == [] {
      assert s + after == s;
    } else {
      assert (s + after)[..|s + after| - 1] == s + after[..|after| - 1];
      TrimEndSkips(s, after[..|after| - 1], blank);
    }
  }

  lemma {:induction false} TrimStartKeepsEnd<T>(s: seq<T>, after: seq<T>, blank: T -> bool)
    requires !Blank(s, blank)
    ensures TrimStart(s + after, blank) == TrimStart(s, blank) + after
  {
    assert s == [s[0]] + s[1..];
    assert (s + after)[1..] == s[1..] + after;
    if blank(s[0]) {
      TrimStartKeepsEnd(s[1..], after, blank);
    }
  }

  /** White space around a text, however much, is exactly what trimming takes. */
  lemma PaddingIsTrimmed<T>(before: seq<T>, s: seq<T>, after: seq<T>, blank: T -> bool)
    requires Blank(before, blank) && Blank(after, blank)
    ensures Trim(before + s + after, blank) == Trim(s, blank)
    ensures Trimmed(s, blank) ==> Trim(before + s + after, blank) == s
  {
    assert before + s + after == before + (s + after);
    TrimStartSkips(before, s + after, blank);
    if Blank(s, blank) {
      TrimStartSkips(s, after, blank);
      TrimStartSkips(after, [], blank);
      TrimStartSkips(s, [], blank);
      assert after + [] == after && s + [] == s;
    } else {
      TrimStartKeepsEnd(s, after, blank);
      TrimEndSkips(TrimStart(s, blank), after, blank);
    }
  }
}
