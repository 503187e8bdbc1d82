/**
 * The header's quick search (components/Header.tsx): a case-insensitive
 * substring match on name or category, shown only for queries whose trimmed
 * length exceeds one UTF-16 code unit, capped at five results.
 */
module QuickSearch {
  import opened Catalog
  import opened Seqs

  const MaxResults: nat := 5

  /** `toLowerCase` on one character; only ASCII letters are mapped. */
  function LowerChar(c: char): char
  {
    if 'A' <= c <= 'Z' then (c as int + 32) as char else c
  }

  function ToLower(s: string): (r: string)
    ensures |r| == |s|
    ensures forall i :: 0 <= i < |s| ==> r[i] == LowerChar(s[i])
  {
    seq(|s|, i requires 0 <= i < |s| => LowerChar(s[i]))
  }

  /** The characters `String.prototype.trim` removes: white space and line terminators. */
  predicate IsWhitespace(c: char)
  {
    || c == '\t' || c == '\n' || c == '\U{000B}' || c == '\U{000C}' || c == '\r'
    || c == ' ' || c == '\U{00A0}' || c == '\U{1680}' || '\U{2000}' <= c <= '\U{200A}'
    || c == '\U{2028}' || c == '\U{2029}' || c == '\U{202F}' || c == '\U{205F}'
    || c == '\U{3000}' || c == '\U{FEFF}'
  }

  function TrimStart(s: string): (r: string)
    ensures |r| <= |s| && r == s[|s| - |r|..]
    ensures r == [] || !IsWhitespace(r[0])
    ensures forall i :: 0 <= i < |s| - |r| ==> IsWhitespace(s[i])
  {
    if s != [] && IsWhitespace(s[0]) then TrimStart(s[1..]) else s
  }

  function TrimEnd(s: string): (r: string)
    ensures |r| <= |s| && r == s[..|r|]
    ensures r == [] || !IsWhitespace(r[|r| - 1])
    ensures forall i :: |r| <= i < |s| ==> IsWhitespace(s[i])
  {
    if s != [] && IsWhitespace(s[|s| - 1]) then TrimEnd(s[..|s| - 1]) else s
  }

  /** `s.trim()`: neither starts nor ends with white space. */
  function Trim(s: string): (r: string)
    ensures |r| <= |s|
    ensures r == [] || (!IsWhitespace(r[0]) && !IsWhitespace(r[|r| - 1]))
  {
    TrimEnd(TrimStart(s))
  }

  /** Trimming drops white space from the two ends and nothing else. */
  lemma TrimDropsOnlyWhitespace(s: string)
    ensures exists k ::
      && 0 <= k <= |s| - |Trim(s)| && Trim(s) <= s[k..]
      && (forall i :: 0 <= i < k ==> IsWhitespace(s[i]))
      && (forall i :: k + |Trim(s)| <= i < |s| ==> IsWhitespace(s[i]))
  {
    var t := TrimStart(s);
    var r := TrimEnd(t);
    var k := |s| - |t|;
    assert t == s[k..] && r == t[..|r|];
    forall i | k + |r| <= i < |s|
      ensures IsWhitespace(s[i])
    {
      assert s[i] == t[i - k];
    }
    assert r <= s[k..];
  }

  /** `s.length`: JavaScript counts UTF-16 code units, so a character outside
      the Basic Multilingual Plane counts twice. */
  function Utf16Length(s: string): (n: nat)
    ensures |s| <= n <= 2 * |s|
    ensures (forall i :: 0 <= i < |s| ==> s[i] as int < 0x1_0000) ==> n == |s|
  {
    if s == [] then 0 else (if s[0] as int < 0x1_0000 then 1 else 2) + Utf16Length(s[1..])
  }

  predicate OccursAt(hay: string, needle: string, i: int)
  {
    0 <= i && i + |needle| <= |hay| && hay[i..i + |needle|] == needle
  }

  /** `hay.includes(needle)`. */
  predicate Includes(hay: string, needle: string)
  {
    exists i :: 0 <= i <= |hay| - |needle| && OccursAt(hay, needle, i)
  }

  /** The search predicate; the query is lower-cased but not trimmed. */
  predicate MatchesQuery(query: string, p: Product)
  {
    Includes(ToLower(p.name), ToLower(query)) || Includes(ToLower(p.category.Name()), ToLower(query))
  }

  function Matching(catalog: seq<Product>, query: string): (r: seq<Product>)
    ensures forall i :: 0 <= i < |r| ==> MatchesQuery(query, r[i])
  {
    Filter(catalog, p => MatchesQuery(query, p))
  }

  /** The `searchResults` and `showSearch` state the effect stores. */
  datatype SearchState = SearchState(results: seq<Product>, showDropdown: bool)

  function Search(catalog: seq<Product>, query: string): (s: SearchState)
    ensures s.showDropdown <==> Utf16Length(Trim(query)) > 1
    ensures !s.showDropdown ==> s.results == []
    ensures |s.results| <= MaxResults
    ensures forall i :: 0 <= i < |s.results| ==> MatchesQuery(query, s.results[i])
    ensures s.showDropdown ==>
      |s.results| == Min(MaxResults, |Matching(catalog, query)|)
      && s.results == Matching(catalog, query)[..|s.results|]
  {
    if Utf16Length(Trim(query)) > 1 then SearchState(Take(Matching(catalog, query), MaxResults), true)
    else SearchState([], false)
  }

  /** Search results appear in catalog order and come from the catalog. */
  lemma SearchKeepsCatalogOrder(catalog: seq<Product>, query: string)
    ensures IsSubsequence(Search(catalog, query).results, catalog)
    ensures forall p :: p in Search(catalog, query).results ==> p in catalog
  {
    var m := Matching(catalog, query);
    FilterIsSubsequence(catalog, p => MatchesQuery(query, p));
    PrefixOfSubsequence(m, catalog, |Search(catalog, query).results|);
  }

  /** Lower-casing never turns a character into white space or back. */
  lemma LowerKeepsWhitespace(c: char)
    ensures IsWhitespace(LowerChar(c)) == IsWhitespace(c)
  {
  }

  lemma {:induction false} TrimStartCommutesWithLower(s: string)
    ensures TrimStart(ToLower(s)) == ToLower(TrimStart(s))
  {
    if s != [] {
      LowerKeepsWhitespace(s[0]);
      if IsWhitespace(s[0]) {
        assert ToLower(s)[1..] == ToLower(s[1..]);
        TrimStartCommutesWithLower(s[1..]);
      }
    }
  }

  lemma {:induction false} TrimEndCommutesWithLower(s: string)
    ensures TrimEnd(ToLower(s)) == ToLower(TrimEnd(s))
  {
    if s != [] {
      LowerKeepsWhitespace(s[|s| - 1]);
      if IsWhitespace(s[|s| - 1]) {
        assert ToLower(s)[..|s| - 1] == ToLower(s[..|s| - 1]);
        TrimEndCommutesWithLower(s[..|s| - 1]);
      }
    }
  }

  /** Lower-casing keeps the UTF-16 length. */
  lemma {:induction false} ToLowerKeepsUtf16Length(s: string)
    ensures Utf16Length(ToLower(s)) == Utf16Length(s)
  {
    if s != [] {
      assert ToLower(s)[1..] == ToLower(s[1..]);
      ToLowerKeepsUtf16Length(s[1..]);
    }
  }

  /** Trimming and lower-casing can be done in either order. */
  lemma TrimCommutesWithLower(s: string)
    ensures Trim(ToLower(s)) == ToLower(Trim(s))
  {
    TrimStartCommutesWithLower(s);
    TrimEndCommutesWithLower(TrimStart(s));
  }

  /** Upper- and lower-case spellings of a query give the same results. */
  lemma SearchIgnoresCase(catalog: seq<Product>, q1: string, q2: string)
    requires ToLower(q1) == ToLower(q2)
    ensures Search(catalog, q1) == Search(catalog, q2)
  {
    TrimCommutesWithLower(q1);
    TrimCommutesWithLower(q2);
    ToLowerKeepsUtf16Length(Trim(q1));
    ToLowerKeepsUtf16Length(Trim(q2));
    assert Utf16Length(Trim(q1)) == Utf16Length(Trim(ToLower(q1)));
    assert Utf16Length(Trim(q2)) == Utf16Length(Trim(ToLower(q2)));
    forall i | 0 <= i < |catalog|
      ensures MatchesQuery(q1, catalog[i]) == MatchesQuery(q2, catalog[i])
    {
      SameLoweredQuery(q1, q2, catalog[i]);
    }
    FilterCongruent(catalog, p => MatchesQuery(q1, p), p => MatchesQuery(q2, p));
    assert Matching(catalog, q1) == Matching(catalog, q2);
  }

  /** The match depends on the query only through its lower-cased form. */
  lemma SameLoweredQuery(q1: string, q2: string, p: Product)
    requires ToLower(q1) == ToLower(q2)
    ensures MatchesQuery(q1, p) == MatchesQuery(q2, p)
  {
  }
}
