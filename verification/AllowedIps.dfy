/** Allowed-IP lists in canonical form (reconciler.js 53-62). */
module AllowedIps {
  import opened Basics
  import opened Text

  const COMMA := ','

  predicate Tidy(p: string) { p != "" && Trim(p, IsSpace) == p && COMMA !in p }

  /** What an entry comes to: nothing, if it is blank. */
  function Kept(entry: string): (kept: seq<string>)
    ensures forall i | 0 <= i < |kept| :: kept[i] != "" && Trim(kept[i], IsSpace) == kept[i]
    ensures COMMA !in entry ==> forall i | 0 <= i < |kept| :: COMMA !in kept[i]
  {
    var p := Trim(entry, IsSpace);
    if p == "" then [] else [p]
  }

  /** The entries of a list, trimmed, blank ones dropped. */
  function Clean(items: seq<string>): (pieces: seq<string>)
    ensures forall i | 0 <= i < |pieces| :: pieces[i] != "" && Trim(pieces[i], IsSpace) == pieces[i]
    ensures (forall i | 0 <= i < |items| :: COMMA !in items[i]) ==> forall i | 0 <= i < |pieces| :: Tidy(pieces[i])
  {
    if items == [] then [] else Kept(items[0]) + Clean(items[1..])
  }

  lemma {:induction false} CleanOfTidy(items: seq<string>)
    requires forall i | 0 <= i < |items| :: Tidy(items[i])
    ensures Clean(items) == items
  {
    if items != [] {
      CleanOfTidy(items[1..]);
    }
  }

  predicate SpelledAt(items: seq<string>, i: nat, x: string)
    requires i < |items|
  {
    Trim(items[i], IsSpace) == x
  }

  ghost function Places(items: seq<string>, x: string): set<nat> { set i | 0 <= i < |items| && SpelledAt(items, i, x) }

  /** How many of the entries are this one, but for white space around it. */
  ghost function Spelled(items: seq<string>, x: string): nat { |Places(items, x)| }

  lemma PlacesSnoc(items: seq<string>, last: string, x: string)
    ensures Places(items + [last], x) ==
            Places(items, x) + if Trim(last, IsSpace) == x then {|items|} else {}
  {
    var more := items + [last];
    assert forall i | 0 <= i < |items| :: SpelledAt(more, i, x) <==> SpelledAt(items, i, x);
    assert SpelledAt(more, |items|, x) <==> Trim(last, IsSpace) == x;
  }

  lemma SpelledSnoc(items: seq<string>, last: string, x: string)
    ensures Spelled(items + [last], x) == Spelled(items, x) + if Trim(last, IsSpace) == x then 1 else 0
  {
    PlacesSnoc(items, last, x);
  }

  lemma {:induction false} CleanSnoc(items: seq<string>, last: string)
    ensures Clean(items + [last]) == Clean(items) + Kept(last)
  {
    if items == [] {
      assert [] + [last] == [last] && [last][1..] == [];
    } else {
      assert (items + [last])[1..] == items[1..] + [last];
      CleanSnoc(items[1..], last);
      Assoc(Kept(items[0]), Clean(items[1..]), Kept(last));
    }
  }

  /** Every entry is kept as often as it is there, and nothing else is. */
  lemma {:induction false} CleanCounts(items: seq<string>, x: string)
    ensures multiset(Clean(items))[x] == if x == "" then 0 else Spelled(items, x)
  {
    if items != [] {
      var init, last := items[..|items| - 1], items[|items| - 1];
      assert items == init + [last];
      CleanSnoc(init, last);
      CleanCounts(init, x);
      SpelledSnoc(init, last, x);
    }
  }

  lemma {:induction false} CleanOfAlike(a: seq<string>, b: seq<string>)
    requires |a| == |b| && forall i | 0 <= i < |a| :: Trim(a[i], IsSpace) == Trim(b[i], IsSpace)
    ensures Clean(a) == Clean(b)
  {
    if a != [] {
      CleanOfAlike(a[1..], b[1..]);
    }
  }

  // -------------------------------------------------------------------- order

  /** The order of sort(): code unit by code unit, prefixes first. */
  predicate Le(a: string, b: string) {
    a == "" || (b != "" && (a[0] < b[0] || (a[0] == b[0] && Le(a[1..], b[1..]))))
  }

  /** The first difference is at this place, and `a` is smaller there. */
  ghost predicate SmallerAt(a: string, b: string, i: nat) { i < |a| && i < |b| && a[..i] == b[..i] && a[i] < b[i] }

  lemma SmallerLater(a: string, b: string, i: nat)
    requires a != "" && b != ""
    ensures SmallerAt(a, b, i + 1) <==> a[0] == b[0] && SmallerAt(a[1..], b[1..], i)
  {
    if i + 1 < |a| && i + 1 < |b| {
      assert a[..i + 1] == [a[0]] + a[1..][..i] && b[..i + 1] == [b[0]] + b[1..][..i];
    }
  }

  /** In other words: a prefix, or smaller where the two first differ. */
  lemma {:induction false} LeMeans(a: string, b: string)
    ensures Le(a, b) <==> a <= b || exists i: nat :: SmallerAt(a, b, i)
  {
    if a != "" && b != "" {
      LeMeans(a[1..], b[1..]);
      assert a == [a[0]] + a[1..] && b == [b[0]] + b[1..];
      if i: nat :| SmallerAt(a[1..], b[1..], i) {
        SmallerLater(a, b, i);
      }
      if i: nat :| SmallerAt(a, b, i) && i > 0 {
        SmallerLater(a, b, i - 1);
      }
      assert SmallerAt(a, b, 0) <==> a[0] < b[0];
    }
  }

  lemma {:induction false} LeTotal(a: string, b: string)
    ensures Le(a, b) || Le(b, a)
  {
    if a != "" && b != "" && a[0] == b[0] {
      LeTotal(a[1..], b[1..]);
    }
  }

  lemma {:induction false} LeAntisymmetric(a: string, b: string)
    requires Le(a, b) && Le(b, a)
    ensures a == b
  {
    if a != "" {
      LeAntisymmetric(a[1..], b[1..]);
      assert a == [a[0]] + a[1..] && b == [b[0]] + b[1..];
    }
  }

  lemma {:induction false} LeTransitive(a: string, b: string, c: string)
    requires Le(a, b) && Le(b, c)
    ensures Le(a, c)
  {
    if a != "" && a[0] == b[0] == c[0] {
      LeTransitive(a[1..], b[1..], c[1..]);
    }
  }

  ghost predicate Sorted(s: seq<string>) { forall i, j | 0 <= i < j < |s| :: Le(s[i], s[j]) }

  function Insert(x: string, s: seq<string>): seq<string> {
    if s == [] || Le(x, s[0]) then [x] + s else [s[0]] + Insert(x, s[1..])
  }

  lemma SortedCons(x: string, s: seq<string>)
    requires s != [] && Le(x, s[0])
    ensures Sorted(s) ==> Sorted([x] + s)
  {
    if Sorted(s) {
      forall i | 1 <= i < |s| ensures Le(x, s[i]) {
        LeTransitive(x, s[0], s[i]);
      }
    }
  }

  lemma SortedConsInserted(x: string, y: string, s: seq<string>, t: seq<string>)
    requires Le(x, y) && multiset(t) == multiset([y]) + multiset(s)
    ensures Sorted([x] + s) && Sorted(t) ==> Sorted([x] + t)
  {
    if Sorted([x] + s) && Sorted(t) {
      forall i | 0 <= i < |t| ensures Le(x, t[i]) {
        assert t[i] in multiset(t);
        if t[i] != y {
          assert t[i] in multiset(s);
          var k :| 0 <= k < |s| && s[k] == t[i];
          assert ([x] + s)[0] == x && ([x] + s)[k + 1] == t[i];
        }
      }
    }
  }

  lemma {:induction false} InsertSorts(x: string, s: seq<string>)
    ensures multiset(Insert(x, s)) == multiset([x]) + multiset(s)
    ensures Sorted(s) ==> Sorted(Insert(x, s))
  {
    if s != [] {
      assert s == [s[0]] + s[1..];
      if Le(x, s[0]) {
        SortedCons(x, s);
      } else {
        LeTotal(x, s[0]);
        InsertSorts(x, s[1..]);
        SortedConsInserted(s[0], x, s[1..], Insert(x, s[1..]));
      }
    }
  }

  function Sort(s: seq<string>): (t: seq<string>)
    ensures Sorted(t) && multiset(t) == multiset(s)
  {
    if s == [] then []
    else
      assert s == [s[0]] + s[1..];
      InsertSorts(s[0], Sort(s[1..]));
      Insert(s[0], Sort(s[1..]))
  }

  lemma TailOf(s: seq<string>)
    requires s != []
    ensures s == [s[0]] + s[1..] && multiset(s[1..]) == multiset(s) - multiset([s[0]])
  {
    assert s == [s[0]] + s[1..];
  }

  /** There is one sorted arrangement only. */
  lemma {:induction false} SortedUnique(s: seq<string>, t: seq<string>)
    requires Sorted(s) && Sorted(t) && multiset(s) == multiset(t)
    ensures s == t
    decreases |s|
  {
    assert |s| == |multiset(s)| && |t| == |multiset(t)|;
    if s != [] {
      LeastFirst(s, t);
      LeastFirst(t, s);
      LeAntisymmetric(s[0], t[0]);
      TailOf(s);
      TailOf(t);
      SortedUnique(s[1..], t[1..]);
    }
  }

  lemma LeastFirst(s: seq<string>, t: seq<string>)
    requires Sorted(s) && s != [] && t != [] && multiset(s) == multiset(t)
    ensures Le(s[0], t[0])
  {
    assert t[0] in multiset(t);
    assert t[0] in multiset(s);
    var k :| 0 <= k < |s| && s[k] == t[0];
    if k == 0 {
      LeTotal(s[0], s[0]);
    }
  }

  // -------------------------------------------------------------- normal form

  /** What a text lists. */
  function Pieces(text: string): (pieces: seq<string>)
    ensures forall i | 0 <= i < |pieces| :: Tidy(pieces[i])
  {
    Clean(Split(text, COMMA))
  }

  function Normalize(text: string): string { Join(Sort(Pieces(text)), COMMA) }

  /** For a list given as an array, whose entries are not split. */
  function NormalizeList(items: seq<string>): string { Join(Sort(Clean(items)), COMMA) }

  lemma PiecesOfJoin(items: seq<string>)
    requires forall i | 0 <= i < |items| :: COMMA !in items[i]
    ensures Pieces(Join(items, COMMA)) == Clean(items)
  {
    if items == [] {
      assert Split("", COMMA) == [""] && [""][1..] == [];
      assert Clean([""]) == Clean([""][1..]);
    } else {
      SplitOfJoin(items, COMMA);
    }
  }

  lemma SortKeepsTidy(pieces: seq<string>)
    requires forall i | 0 <= i < |pieces| :: Tidy(pieces[i])
    ensures forall i | 0 <= i < |Sort(pieces)| :: Tidy(Sort(pieces)[i])
  {
    forall i | 0 <= i < |Sort(pieces)| ensures Tidy(Sort(pieces)[i]) {
      assert Sort(pieces)[i] in multiset(Sort(pieces));
      assert Sort(pieces)[i] in multiset(pieces);
    }
  }

  lemma PiecesOfNormal(text: string)
    ensures Pieces(Normalize(text)) == Sort(Pieces(text))
  {
    var sorted := Sort(Pieces(text));
    SortKeepsTidy(Pieces(text));
    PiecesOfJoin(sorted);
    CleanOfTidy(sorted);
  }

  /** Two texts have the same normal form exactly when they list the same
      addresses, each as often, in whatever order and spacing. */
  lemma NormalizeIsCanonical(x: string, y: string)
    ensures Normalize(x) == Normalize(y) <==> multiset(Pieces(x)) == multiset(Pieces(y))
  {
    PiecesOfNormal(x);
    PiecesOfNormal(y);
    if multiset(Pieces(x)) == multiset(Pieces(y)) {
      SortedUnique(Sort(Pieces(x)), Sort(Pieces(y)));
    }
  }

  lemma NormalizeIdempotent(text: string)
    ensures Normalize(Normalize(text)) == Normalize(text)
  {
    PiecesOfNormal(text);
    SortedUnique(Sort(Sort(Pieces(text))), Sort(Pieces(text)));
  }

  /** An array of comma-free entries normalises like the text that lists them. */
  lemma ListIsText(items: seq<string>)
    requires forall i | 0 <= i < |items| :: COMMA !in items[i]
    ensures NormalizeList(items) == Normalize(Join(items, COMMA))
    ensures Normalize(NormalizeList(items)) == NormalizeList(items)
  {
    PiecesOfJoin(items);
    NormalizeIdempotent(Join(items, COMMA));
  }

  /** White space around the entries of a text changes nothing. */
  lemma PaddedListIsTheSame(items: seq<string>, padded: seq<string>, before: seq<string>, after: seq<string>)
    requires |items| == |padded| == |before| == |after|
    requires forall i | 0 <= i < |items| ::
               && COMMA !in items[i] && COMMA !in padded[i]
               && Blank(before[i], IsSpace) && Blank(after[i], IsSpace) && padded[i] == before[i] + items[i] + after[i]
    ensures Normalize(Join(padded, COMMA)) == Normalize(Join(items, COMMA))
  {
    forall i | 0 <= i < |items| ensures Trim(padded[i], IsSpace) == Trim(items[i], IsSpace) {
      PaddingIsTrimmed(before[i], items[i], after[i], IsSpace);
    }
    CleanOfAlike(padded, items);
    PiecesOfJoin(padded);
    PiecesOfJoin(items);
  }

  /** Every address of a text is in its normal form as often as it is listed, and
      nothing else is. */
  lemma NormalFormLists(text: string, x: string)
    ensures multiset(Pieces(Normalize(text)))[x] == if x == "" then 0 else Spelled(Split(text, COMMA), x)
  {
    PiecesOfNormal(text);
    CleanCounts(Split(text, COMMA), x);
  }

  lemma {:induction false} JoinedIsTrimmed(pieces: seq<string>)
    requires pieces != [] && forall i | 0 <= i < |pieces| :: Tidy(pieces[i])
    ensures Join(pieces, COMMA) != "" && Trimmed(Join(pieces, COMMA), IsSpace)
  {
    assert Trimmed(pieces[0], IsSpace);
    if |pieces| > 1 {
      JoinedIsTrimmed(pieces[1..]);
    }
  }

  lemma NormalOfJoined(pieces: seq<string>)
    requires forall i | 0 <= i < |pieces| :: Tidy(pieces[i])
    ensures Normalize(Join(pieces, COMMA)) == Join(Sort(pieces), COMMA)
  {
    PiecesOfJoin(pieces);
    CleanOfTidy(pieces);
  }

  lemma SortFixes(s: seq<string>)
    ensures Sort(s) == s <==> Sorted(s)
    ensures |Sort(s)| == |s|
  {
    assert |Sort(s)| == |multiset(Sort(s))| == |multiset(s)|;
    if Sorted(s) {
      SortedUnique(s, Sort(s));
    }
  }

  lemma JoinInjective(a: seq<string>, b: seq<string>)
    requires a != [] && b != []
    requires forall i | 0 <= i < |a| :: COMMA !in a[i]
    requires forall i | 0 <= i < |b| :: COMMA !in b[i]
    ensures Join(a, COMMA) == Join(b, COMMA) <==> a == b
  {
    SplitOfJoin(a, COMMA);
    SplitOfJoin(b, COMMA);
  }

  lemma SingleEntry(e: string)
    requires e != "" && Trimmed(e, IsSpace)
    ensures NormalizeList([e]) == e
  {
    assert [e][1..] == [];
    assert Clean([e]) == [e] + Clean([]);
    SortFixes([e]);
  }

  lemma SortedIfJoinedAlike(pieces: seq<string>)
    requires pieces != [] && forall i | 0 <= i < |pieces| :: Tidy(pieces[i])
    ensures Join(Sort(pieces), COMMA) == Join(pieces, COMMA) <==> Sorted(pieces)
  {
    SortFixes(pieces);
    SortKeepsTidy(pieces);
    JoinInjective(Sort(pieces), pieces);
  }

  /** An entry with commas inside is not split, so an array can give a text that
      is no normal form: for one such entry, exactly when its addresses are not
      already sorted. */
  lemma EntryWithCommas(pieces: seq<string>)
    requires pieces != [] && forall i | 0 <= i < |pieces| :: Tidy(pieces[i])
    ensures var e := Join(pieces, COMMA);
            && NormalizeList([e]) == e
            && (Normalize(e) == e <==> Sorted(pieces))
  {
    JoinedIsTrimmed(pieces);
    SingleEntry(Join(pieces, COMMA));
    NormalOfJoined(pieces);
    SortedIfJoinedAlike(pieces);
  }
}
