/**
 The keyword search of the category screen (src/screens/ItemListCategory.jsx):
 an effect that, whenever the keyword or the fetched products change,
 recomputes the list shown and the error message.

 A keyword with a digit is refused. Otherwise, once the fetch has finished
 with an array, the list is the products whose lower-cased title contains the
 lower-cased keyword, in catalogue order. Lower-casing is modelled for ASCII
 letters only.
 */
module ItemListCategory {
  import opened Catalog
  import opened Seqs

  //----------------------------------------------------------------------
  // Text
  //----------------------------------------------------------------------

  function LowerChar(c: char): char {
    if 'A' <= c <= 'Z' then (c as int + 32) as char else c
  }

  /** `toLocaleLowerCase`, for ASCII letters: each upper-case letter becomes
      its lower-case partner, every other character is kept. */
  function Lower(s: string): (r: string)
    ensures |r| == |s|
    ensures forall i :: 0 <= i < |r| ==> !('A' <= r[i] <= 'Z')
    ensures forall i :: 0 <= i < |s| && 'A' <= s[i] <= 'Z' ==> r[i] as int == s[i] as int + 32
    ensures forall i :: 0 <= i < |s| && !('A' <= s[i] <= 'Z') ==> r[i] == s[i]
  {
    seq(|s|, i requires 0 <= i < |s| => LowerChar(s[i]))
  }

  /** What the regular expression `\d` matches: an ASCII decimal digit. */
  predicate IsDigit(c: char) {
    '0' <= c <= '9'
  }

  /** `/\d/.test(s)`: a scan of the string for a digit, which finds one
      exactly when some position holds a digit. */
  function HasDigit(s: string): (b: bool)
    ensures b <==> exists i :: 0 <= i < |s| && IsDigit(s[i])
    decreases |s|
  {
    |s| > 0 && (IsDigit(s[0]) || HasDigit(s[1..]))
  }

  predicate OccursAt(hay: string, needle: string, i: nat) {
    i + |needle| <= |hay| && hay[i..i + |needle|] == needle
  }

  /** `hay.includes(needle)`: a scan trying each start position in turn,
      which succeeds exactly when `needle` occurs somewhere in `hay`. */
  function Contains(hay: string, needle: string): (b: bool)
    ensures b <==> exists i :: 0 <= i <= |hay| - |needle| && OccursAt(hay, needle, i)
    decreases |hay|
  {
    if OccursAt(hay, needle, 0) then true
    else if |hay| == 0 then false
    else
      OccursShift(hay, needle);
      Contains(hay[1..], needle)
  }

  /** With no occurrence at the front, `needle` occurs in `hay` exactly when
      it occurs in `hay`'s tail. */
  lemma OccursShift(hay: string, needle: string)
    requires |hay| > 0 && !OccursAt(hay, needle, 0)
    ensures (exists i :: 0 <= i <= |hay| - |needle| && OccursAt(hay, needle, i))
        <==> (exists j :: 0 <= j <= |hay[1..]| - |needle| && OccursAt(hay[1..], needle, j))
  {
    if i :| 0 <= i <= |hay| - |needle| && OccursAt(hay, needle, i) {
      assert i > 0;
      assert hay[1..][i - 1..i - 1 + |needle|] == hay[i..i + |needle|];
      assert OccursAt(hay[1..], needle, i - 1);
    }
    if j :| 0 <= j <= |hay[1..]| - |needle| && OccursAt(hay[1..], needle, j) {
      assert hay[1..][j..j + |needle|] == hay[j + 1..j + 1 + |needle|];
      assert OccursAt(hay, needle, j + 1);
    }
  }

  /** The test the filter applies to each product. */
  predicate Matches(keyword: string, p: Product) {
    Contains(Lower(p.title), Lower(keyword))
  }

  function MatchesKeyword(keyword: string): Product -> bool {
    (p: Product) => Matches(keyword, p)
  }

  //----------------------------------------------------------------------
  // The effect
  //----------------------------------------------------------------------

  /** The two pieces of screen state the effect writes. */
  datatype View = View(filtered: seq<Product>, error: string)

  const DigitError: string := "No se permiten números"
  const NoError: string := ""

  /** What the fetch hook reports: whether it is still loading, and the data,
      `None` when it is not an array. */
  datatype Fetch = Fetch(isLoading: bool, products: Option<seq<Product>>)

  /** One run of the filtering effect on the current view. */
  function FilterEffect(v: View, keyword: string, f: Fetch): (r: View)
    ensures HasDigit(keyword) ==> r == View([], DigitError)
    ensures !HasDigit(keyword) && !f.isLoading && f.products.Some? ==>
      && r.error == NoError
      && SubsequenceOf(r.filtered, f.products.value)
      && (forall p :: p in r.filtered ==> p in f.products.value && Matches(keyword, p))
      && (forall p :: p in f.products.value && Matches(keyword, p) ==> p in r.filtered)
    ensures !HasDigit(keyword) && !f.isLoading && f.products.None? ==>
      r == View([], v.error)
    ensures !HasDigit(keyword) && f.isLoading ==> r == v
  {
    if HasDigit(keyword) then View([], DigitError)
    else if !f.isLoading && f.products.Some? then
      var products := f.products.value;
      FilterIsSubsequence(products, MatchesKeyword(keyword));
      View(Filter(products, MatchesKeyword(keyword)), NoError)
    else if !f.isLoading then View([], v.error)
    else v
  }

  //----------------------------------------------------------------------
  // Properties
  //----------------------------------------------------------------------

  lemma LowerCharIdempotent(c: char)
    ensures LowerChar(LowerChar(c)) == LowerChar(c)
  {
  }

  lemma LowerIdempotent(s: string)
    ensures Lower(Lower(s)) == Lower(s)
  {
    forall i | 0 <= i < |s|
      ensures Lower(Lower(s))[i] == Lower(s)[i]
    {
      LowerCharIdempotent(s[i]);
    }
  }

  /** Lower-casing neither creates nor removes digits. */
  lemma HasDigitLower(s: string)
    ensures HasDigit(Lower(s)) <==> HasDigit(s)
  {
    if HasDigit(s) {
      var i :| 0 <= i < |s| && IsDigit(s[i]);
      assert IsDigit(Lower(s)[i]);
    }
    if HasDigit(Lower(s)) {
      var i :| 0 <= i < |Lower(s)| && IsDigit(Lower(s)[i]);
      assert IsDigit(s[i]);
    }
  }

  lemma EmptyOccursEverywhere(hay: string)
    ensures Contains(hay, "")
  {
    assert OccursAt(hay, "", 0);
  }

  /** An empty keyword keeps every product, in order, and clears the error. */
  lemma EmptyKeywordKeepsAll(v: View, products: seq<Product>)
    ensures FilterEffect(v, "", Fetch(false, Some(products))) == View(products, NoError)
  {
    forall i | 0 <= i < |products|
      ensures MatchesKeyword("")(products[i])
    {
      assert Lower("") == "";
      EmptyOccursEverywhere(Lower(products[i].title));
    }
    FilterKeepsAll(products, MatchesKeyword(""));
  }

  /** The search ignores the case of the keyword: it behaves as if the keyword
      had been typed in lower case. */
  lemma CaseInsensitive(v: View, keyword: string, f: Fetch)
    ensures FilterEffect(v, keyword, f) == FilterEffect(v, Lower(keyword), f)
  {
    HasDigitLower(keyword);
    LowerIdempotent(keyword);
    if f.products.Some? {
      FilterCongruent(f.products.value, MatchesKeyword(keyword), MatchesKeyword(Lower(keyword)));
    }
  }

  /** The list shown keeps every occurrence of a matching product and no
      occurrence of any other, so it is exactly the matching products. */
  lemma FilteredCounts(v: View, keyword: string, products: seq<Product>)
    requires !HasDigit(keyword)
    ensures var r := FilterEffect(v, keyword, Fetch(false, Some(products)));
      forall p :: multiset(r.filtered)[p] == if Matches(keyword, p) then multiset(products)[p] else 0
  {
  }
}
