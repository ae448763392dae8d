/**
 * `items.filter(x => x.category === c)` and the 'All' switch in front of it, shared by the
 * portfolio, the blog and the technology showcase, with the grouping of a list by a list of
 * categories.
 */
module CategoryFilter {
  import opened SiteContent

  /** The entries of `s` whose category is `c`, in their order in `s`. */
  function FilterBy<T>(s: seq<T>, category: T -> string, c: string): (r: seq<T>)
    ensures |r| <= |s|
    ensures forall i :: 0 <= i < |r| ==> category(r[i]) == c
  {
    if s == [] then []
    else (if category(s[0]) == c then [s[0]] else []) + FilterBy(s[1..], category, c)
  }

  /** One entry's contribution to the filter. */
  function Keep<T>(x: T, category: T -> string, c: string): (r: seq<T>)
    ensures r == [x] <==> category(x) == c
    ensures r == [] <==> category(x) != c
  {
    if category(x) == c then [x] else []
  }

  /** The filter of a list with one more entry in front. */
  lemma FilterCons<T>(x: T, s: seq<T>, category: T -> string, c: string)
    ensures FilterBy([x] + s, category, c) == Keep(x, category, c) + FilterBy(s, category, c)
  {
    assert ([x] + s)[1..] == s;
  }

  lemma FilterOne<T>(x: T, category: T -> string, c: string)
    ensures FilterBy([x], category, c) == Keep(x, category, c)
  {
    assert [x][1..] == [];
  }

  /** The filter over a six-entry list, written out entry by entry. */
  lemma FilterOfSix<T>(s: seq<T>, category: T -> string, c: string)
    requires |s| == 6
    ensures FilterBy(s, category, c) ==
      Keep(s[0], category, c) + (Keep(s[1], category, c) + (Keep(s[2], category, c) +
      (Keep(s[3], category, c) + (Keep(s[4], category, c) + Keep(s[5], category, c)))))
  {
    FilterOne(s[5], category, c);
    FilterCons(s[4], [s[5]], category, c);
    FilterCons(s[3], [s[4], s[5]], category, c);
    FilterCons(s[2], [s[3], s[4], s[5]], category, c);
    FilterCons(s[1], [s[2], s[3], s[4], s[5]], category, c);
    FilterCons(s[0], [s[1], s[2], s[3], s[4], s[5]], category, c);
    assert s == [s[0]] + [s[1], s[2], s[3], s[4], s[5]];
  }

  /** `active === 'All' ? items : items.filter(...)` */
  function FilterOrAll<T>(s: seq<T>, category: T -> string, active: string): seq<T>
  {
    if active == "All" then s else FilterBy(s, category, active)
  }

  /** `r` is `s` with some entries left out, the rest in their order. */
  ghost predicate IsSubsequence<T>(r: seq<T>, s: seq<T>)
    decreases |s|
  {
    || r == []
    || (s != [] && ((r[0] == s[0] && IsSubsequence(r[1..], s[1..])) || IsSubsequence(r, s[1..])))
  }

  /** The filter keeps exactly the entries of category `c`. */
  lemma {:induction false} FilterMembership<T>(s: seq<T>, category: T -> string, c: string, x: T)
    ensures x in FilterBy(s, category, c) <==> x in s && category(x) == c
  {
    if s != [] {
      FilterMembership(s[1..], category, c, x);
      assert s == [s[0]] + s[1..];
    }
  }

  /** The filter is an order-preserving subsequence of its input. */
  lemma {:induction false} FilterIsSubsequence<T>(s: seq<T>, category: T -> string, c: string)
    ensures IsSubsequence(FilterBy(s, category, c), s)
  {
    if s != [] {
      FilterIsSubsequence(s[1..], category, c);
      var r := FilterBy(s, category, c);
      if category(s[0]) == c {
        assert r[0] == s[0] && r[1..] == FilterBy(s[1..], category, c);
      } else {
        assert r == FilterBy(s[1..], category, c);
      }
    }
  }

  /** When every entry has category `c`, the filter returns the input. */
  lemma {:induction false} FilterAllMatch<T>(s: seq<T>, category: T -> string, c: string)
    requires forall i :: 0 <= i < |s| ==> category(s[i]) == c
    ensures FilterBy(s, category, c) == s
  {
    if s != [] {
      FilterAllMatch(s[1..], category, c);
      assert s == [s[0]] + s[1..];
    }
  }

  /** Filtering distributes over concatenation. */
  lemma {:induction false} FilterAppend<T>(a: seq<T>, b: seq<T>, category: T -> string, c: string)
    ensures FilterBy(a + b, category, c) == FilterBy(a, category, c) + FilterBy(b, category, c)
  {
    if a == [] {
      assert a + b == b;
    } else {
      assert (a + b)[0] == a[0];
      assert (a + b)[1..] == a[1..] + b;
      FilterAppend(a[1..], b, category, c);
    }
  }

  /** 'All' shows everything in the original order; any other choice shows exactly its category. */
  lemma FilterOrAllMeaning<T>(s: seq<T>, category: T -> string, active: string, x: T)
    ensures active == "All" ==> FilterOrAll(s, category, active) == s
    ensures active != "All" ==> (x in FilterOrAll(s, category, active) <==> x in s && category(x) == active)
    ensures IsSubsequence(FilterOrAll(s, category, active), s)
  {
    FilterMembership(s, category, active, x);
    FilterIsSubsequence(s, category, active);
    if active == "All" {
      SubsequenceRefl(s);
    }
  }

  lemma {:induction false} SubsequenceRefl<T>(s: seq<T>)
    ensures IsSubsequence(s, s)
  {
    if s != [] {
      SubsequenceRefl(s[1..]);
    }
  }

  // ---------------------------------------------------------------------------------------------
  // Grouping by a list of categories.

  /** One filtered group per category, in the order of `categories`. */
  function Groups<T>(s: seq<T>, category: T -> string, categories: seq<string>): (r: seq<seq<T>>)
    ensures |r| == |categories|
    ensures forall i :: 0 <= i < |r| ==> r[i] == FilterBy(s, category, categories[i])
  {
    seq(|categories|, i requires 0 <= i < |categories| => FilterBy(s, category, categories[i]))
  }

  /** The total number of cards over all groups. */
  function TotalSize<T>(groups: seq<seq<T>>): nat
  {
    if groups == [] then 0 else |groups[0]| + TotalSize(groups[1..])
  }

  /** How many entries of `cs` equal `c`. */
  function Occurrences(cs: seq<string>, c: string): nat
  {
    if cs == [] then 0 else (if cs[0] == c then 1 else 0) + Occurrences(cs[1..], c)
  }

  lemma {:induction false} OccurrencesOfDistinct(cs: seq<string>, c: string)
    requires Distinct(cs)
    ensures Occurrences(cs, c) == if c in cs then 1 else 0
  {
    if cs != [] {
      OccurrencesOfDistinct(cs[1..], c);
      assert cs == [cs[0]] + cs[1..];
      if cs[0] == c {
        assert c !in cs[1..];
      }
    }
  }

  /** Adding one entry in front adds it to one card per occurrence of its category. */
  lemma {:induction false} TotalSizeCons<T>(x: T, s: seq<T>, category: T -> string, cs: seq<string>)
    ensures TotalSize(Groups([x] + s, category, cs)) == TotalSize(Groups(s, category, cs)) + Occurrences(cs, category(x))
  {
    if cs != [] {
      TotalSizeCons(x, s, category, cs[1..]);
      assert ([x] + s)[1..] == s;
      assert Groups([x] + s, category, cs)[1..] == Groups([x] + s, category, cs[1..]);
      assert Groups(s, category, cs)[1..] == Groups(s, category, cs[1..]);
    }
  }

  /**
   * With distinct categories that cover every entry, the groups hold exactly as many cards as
   * there are entries: together with `FilterMembership`, every entry is in exactly one group.
   */
  lemma {:induction false} GroupsPartition<T>(s: seq<T>, category: T -> string, cs: seq<string>)
    requires Distinct(cs)
    requires forall i :: 0 <= i < |s| ==> category(s[i]) in cs
    ensures TotalSize(Groups(s, category, cs)) == |s|
  {
    if s == [] {
      EmptyGroups(category, cs);
    } else {
      GroupsPartition(s[1..], category, cs);
      TotalSizeCons(s[0], s[1..], category, cs);
      OccurrencesOfDistinct(cs, category(s[0]));
      assert s == [s[0]] + s[1..];
    }
  }

  lemma {:induction false} EmptyGroups<T>(category: T -> string, cs: seq<string>)
    ensures TotalSize(Groups([], category, cs)) == 0
  {
    if cs != [] {
      EmptyGroups(category, cs[1..]);
      assert Groups([], category, cs)[1..] == Groups([], category, cs[1..]);
    }
  }

  /** An entry lies in the group of its own category and in no other. */
  lemma EntryInOneGroup<T>(s: seq<T>, category: T -> string, cs: seq<string>, x: T)
    requires Distinct(cs) && x in s && category(x) in cs
    ensures exists i :: 0 <= i < |cs| && x in Groups(s, category, cs)[i]
    ensures forall i :: 0 <= i < |cs| && x in Groups(s, category, cs)[i] ==> cs[i] == category(x)
  {
    var i :| 0 <= i < |cs| && cs[i] == category(x);
    FilterMembership(s, category, cs[i], x);
    assert x in Groups(s, category, cs)[i];
    forall j | 0 <= j < |cs| && x in Groups(s, category, cs)[j] ensures cs[j] == category(x) {
      FilterMembership(s, category, cs[j], x);
    }
  }
}
