/** The Societies page's search box: a society is listed when the lower-cased
    query occurs in its lower-cased name or category. Lower-casing is ASCII only. */
module Societies {
  import opened ListFilter

  datatype Society = Society(id: int, name: string, category: string, members: nat, description: string)

  /** ASCII `toLowerCase` of one character. */
  function LowerChar(c: char): (l: char)
    ensures !('A' <= l <= 'Z')
    ensures 'A' <= c <= 'Z' ==> l as int == c as int + 32
    ensures !('A' <= c <= 'Z') ==> l == c
  {
    if 'A' <= c <= 'Z' then (c as int + 32) as char else c
  }

  /** ASCII `toLowerCase` of a string: same length, each character lowered. */
  function Lower(s: string): (r: string)
    ensures |r| == |s|
    ensures forall i :: 0 <= i < |s| ==> r[i] == LowerChar(s[i])
  {
    seq(|s|, i requires 0 <= i < |s| => LowerChar(s[i]))
  }

  /** Lowering twice is lowering once. */
  lemma LowerIdempotent(s: string)
    ensures Lower(Lower(s)) == Lower(s)
  {
  }

  /** `needle` occurs in `hay` starting at index `i`. */
  predicate OccursAt(hay: string, needle: string, i: nat)
  {
    i + |needle| <= |hay| && hay[i..i + |needle|] == needle
  }

  /** `String.prototype.includes`: `needle` is a prefix of `hay` or of one of its
      suffixes. The empty string is found everywhere, and never a longer one. */
  predicate Includes(hay: string, needle: string): (found: bool)
    ensures needle <= hay ==> found
    ensures found ==> |needle| <= |hay|
    decreases |hay|
  {
    needle <= hay || (hay != [] && Includes(hay[1..], needle))
  }

  /** An occurrence in the tail is an occurrence one place further on. */
  lemma OccursInTail(hay: string, needle: string, i: nat)
    requires hay != [] && OccursAt(hay[1..], needle, i)
    ensures OccursAt(hay, needle, i + 1)
  {
    assert hay[1..][i..i + |needle|] == hay[i + 1..i + 1 + |needle|];
  }

  /** When `needle` is not a prefix, each occurrence lies in the tail. */
  lemma OccursPastHead(hay: string, needle: string, i: nat)
    requires !(needle <= hay) && OccursAt(hay, needle, i)
    ensures 0 < i && OccursAt(hay[1..], needle, i - 1)
  {
    assert hay[1..][i - 1..i - 1 + |needle|] == hay[i..i + |needle|];
  }

  /** `Includes` means there is an index at which `needle` occurs. */
  lemma {:induction false} IncludesIffOccurs(hay: string, needle: string)
    ensures Includes(hay, needle) <==> exists i: nat :: OccursAt(hay, needle, i)
    decreases |hay|
  {
    if needle <= hay {
      assert OccursAt(hay, needle, 0);
    } else if hay != [] {
      IncludesIffOccurs(hay[1..], needle);
      if Includes(hay, needle) {
        var i: nat :| OccursAt(hay[1..], needle, i);
        OccursInTail(hay, needle, i);
      }
      if exists i: nat :: OccursAt(hay, needle, i) {
        var i: nat :| OccursAt(hay, needle, i);
        OccursPastHead(hay, needle, i);
      }
    }
  }

  /** The search predicate of the page: name or category, case-insensitively.
      Description and member count take no part. */
  predicate Matches(s: Society, query: string): (m: bool)
    ensures m <==> ((exists i: nat :: OccursAt(Lower(s.name), Lower(query), i))
                    || (exists i: nat :: OccursAt(Lower(s.category), Lower(query), i)))
  {
    var q := Lower(query);
    IncludesIffOccurs(Lower(s.name), q);
    IncludesIffOccurs(Lower(s.category), q);
    Includes(Lower(s.name), q) || Includes(Lower(s.category), q)
  }

  /** The societies listed for `query`, in their original order. */
  function Search(societies: seq<Society>, query: string): (r: seq<Society>)
    ensures IsSubsequence(r, societies)
    ensures forall s :: s in r <==> s in societies && Matches(s, query)
  {
    Filter(societies, s => Matches(s, query))
  }

  /** Each matching society is listed as often as it occurs in the list, and
      no other society is listed. */
  lemma SearchMultiplicity(societies: seq<Society>, query: string, s: Society)
    ensures multiset(Search(societies, query))[s] ==
            if Matches(s, query) then multiset(societies)[s] else 0
  {
    FilterMultiplicity(societies, x => Matches(x, query), s);
  }

  /** The empty query lists every society. */
  lemma EmptyQueryListsAll(societies: seq<Society>)
    ensures Search(societies, "") == societies
  {
    FilterKeepsAll(societies, s => Matches(s, ""));
  }

  /** Queries that differ only in letter case list the same societies. */
  lemma SearchCaseInsensitive(societies: seq<Society>, q1: string, q2: string)
    requires Lower(q1) == Lower(q2)
    ensures Search(societies, q1) == Search(societies, q2)
  {
    FilterCongruent(societies, s => Matches(s, q1), s => Matches(s, q2));
  }

  /** In particular, lower-casing the query first changes nothing. */
  lemma SearchLowerQuery(societies: seq<Society>, query: string)
    ensures Search(societies, Lower(query)) == Search(societies, query)
  {
    LowerIdempotent(query);
    SearchCaseInsensitive(societies, Lower(query), query);
  }

  /** Description and member count are never searched. */
  lemma OnlyNameAndCategorySearched(s: Society, query: string, members: nat, description: string)
    ensures Matches(s.(members := members, description := description), query) == Matches(s, query)
  {
  }

  /** The page's first society, as in its sample data. */
  const TechSociety := Society(1, "Tech Society", "Tech", 320,
    "Coding workshops, hackathons, and tech talks for aspiring developers.")

  /** "tech" finds "Tech Society"; words of its description longer than both
      searched fields find nothing. */
  lemma TechExamples()
    ensures Search([TechSociety], "tech") == [TechSociety]
    ensures Search([TechSociety], "tech talks for") == []
  {
    assert Lower("tech") <= Lower(TechSociety.name);
    assert Matches(TechSociety, "tech");
    var q := "tech talks for";
    assert |Lower(q)| > |Lower(TechSociety.name)| && |Lower(q)| > |Lower(TechSociety.category)|;
    assert !Matches(TechSociety, q);
  }

  /** The "No societies match your search." line appears when nothing is listed,
      that is, exactly when no society matches the query. */
  predicate ShowsNoMatchMessage(societies: seq<Society>, query: string): (shown: bool)
    ensures shown <==> forall s :: s in societies ==> !Matches(s, query)
  {
    var r := Search(societies, query);
    assert r != [] ==> r[0] in r;
    |r| == 0
  }
}
