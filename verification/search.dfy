/**
 * `filterResults` and the slice that bounds the dropdown: which records a query
 * selects from the dataset, and which of them are shown.
 */
module Search {
  import opened Records
  import opened DecimalText
  import opened JsStrings

  /** A query shorter than this selects nothing. */
  const MinQueryLength: nat := 2

  /** `/^\d+$/.test(query)`: one or more ASCII digits and nothing else. */
  predicate IsDigitQuery(q: string) {
    |q| > 0 && AllDigits(q)
  }

  /** The callback given to `some` for one `[key, value]` entry of a record. */
  predicate EntryMatches(lang: Language, q: string, key: string, value: FieldValue) {
    if key != "id" && value.Str? && lang == En && EndsWith(key, "NameEn") then
      Includes(ToLower(value.s), ToLower(q))
    else if key != "id" && value.Str? && lang == Th && EndsWith(key, "NameTh") then
      Includes(ToLower(value.s), ToLower(q))
    else if key != "id" && value.Num? then
      Includes(IntToDecimal(value.n), q)
    else
      false
  }

  /** The predicate given to `filter`: does record `r` match query `q`? */
  predicate Matches(lang: Language, q: string, r: ThailandData) {
    if IsDigitQuery(q) then
      StartsWith(IntToDecimal(r.postalCode), q)
    else
      var es := Entries(r);
      exists i :: 0 <= i < |es| && EntryMatches(lang, q, es[i].0, es[i].1)
  }

  /** `data.filter(item => Matches(...))`: the matching records, in dataset order. */
  function Filter(data: seq<ThailandData>, lang: Language, q: string): (rs: seq<ThailandData>)
    ensures |rs| <= |data|
    ensures forall x :: x in rs <==> x in data && Matches(lang, q, x)
    decreases |data|
  {
    if data == [] then []
    else (if Matches(lang, q, data[0]) then [data[0]] else []) + Filter(data[1..], lang, q)
  }

  /**
   * `filterResults(query)`: nothing for a query shorter than two UTF-16 code
   * units, otherwise every match.
   */
  function FilterResults(data: seq<ThailandData>, lang: Language, q: string): seq<ThailandData> {
    if Length(q) < MinQueryLength then [] else Filter(data, lang, q)
  }

  function Min(a: int, b: int): int {
    if a <= b then a else b
  }

  function Max(a: int, b: int): int {
    if a >= b then a else b
  }

  /** `s.slice(0, end)`: a prefix; a negative `end` counts back from the length. */
  function SliceTo<T>(s: seq<T>, end: int): (r: seq<T>)
    ensures |r| <= |s| && r == s[..|r|]
    ensures end >= 0 ==> |r| == Min(end, |s|)
    ensures end < 0 ==> |r| == Max(|s| + end, 0)
  {
    if end >= 0 then (if end <= |s| then s[..end] else s)
    else if |s| + end >= 0 then s[..|s| + end]
    else []
  }

  /** The dropdown's list for a search term: `filterResults(term).slice(0, maxResults)`. */
  function Shown(props: Props, data: seq<ThailandData>, term: string): seq<ThailandData> {
    SliceTo(FilterResults(data, props.language, term), props.maxResults)
  }

  // ---- order ---------------------------------------------------------------

  /** `a` is `b` with some elements left out and the others kept in order. */
  ghost predicate IsSubsequence<T>(a: seq<T>, b: seq<T>)
    decreases |b|
  {
    a == [] || (b != [] && ((a[0] == b[0] && IsSubsequence(a[1..], b[1..])) || IsSubsequence(a, b[1..])))
  }

  lemma {:induction false} SubsequenceTransitive<T>(a: seq<T>, b: seq<T>, c: seq<T>)
    requires IsSubsequence(a, b) && IsSubsequence(b, c)
    ensures IsSubsequence(a, c)
    decreases |c|
  {
    if a != [] {
      assert b != [] && c != [];
      if b[0] == c[0] && IsSubsequence(b[1..], c[1..]) {
        if a[0] == b[0] && IsSubsequence(a[1..], b[1..]) {
          SubsequenceTransitive(a[1..], b[1..], c[1..]);
        } else {
          SubsequenceTransitive(a, b[1..], c[1..]);
        }
      } else {
        SubsequenceTransitive(a, b, c[1..]);
      }
    }
  }

  lemma {:induction false} PrefixIsSubsequence<T>(s: seq<T>, n: nat)
    requires n <= |s|
    ensures IsSubsequence(s[..n], s)
    decreases |s|
  {
    if n > 0 {
      assert s[..n][1..] == s[1..][..n - 1];
      PrefixIsSubsequence(s[1..], n - 1);
    }
  }

  lemma {:induction false} FilterIsSubsequence(data: seq<ThailandData>, lang: Language, q: string)
    ensures IsSubsequence(Filter(data, lang, q), data)
    decreases |data|
  {
    if data != [] {
      FilterIsSubsequence(data[1..], lang, q);
      var rs := Filter(data, lang, q);
      if Matches(lang, q, data[0]) {
        assert rs[0] == data[0] && rs[1..] == Filter(data[1..], lang, q);
      } else {
        assert rs == Filter(data[1..], lang, q);
      }
    }
  }

  /**
   * Filtering a concatenation filters each part. With filtering a single record
   * (keep it if it matches), this fixes the filter completely: it keeps every
   * match, once per occurrence, in dataset order.
   */
  lemma {:induction false} FilterAppend(a: seq<ThailandData>, b: seq<ThailandData>, lang: Language, q: string)
    ensures Filter(a + b, lang, q) == Filter(a, lang, q) + Filter(b, lang, q)
    decreases |a|
  {
    if a == [] {
      assert a + b == b;
    } else {
      assert (a + b)[0] == a[0] && (a + b)[1..] == a[1..] + b;
      FilterAppend(a[1..], b, lang, q);
    }
  }

  /**
   * What the dropdown shows: nothing for a short query; otherwise the first
   * `maxResults` matches in dataset order, so never more than `maxResults`
   * records, each a matching record of the dataset.
   */
  lemma ShownSpec(props: Props, data: seq<ThailandData>, term: string)
    ensures Length(term) < MinQueryLength ==> Shown(props, data, term) == []
    ensures Length(term) >= MinQueryLength ==>
      var all := Filter(data, props.language, term);
      && Shown(props, data, term) == all[..|Shown(props, data, term)|]
      && (props.maxResults >= 0 ==> |Shown(props, data, term)| == Min(props.maxResults, |all|))
    ensures props.maxResults >= 0 ==> |Shown(props, data, term)| <= props.maxResults
    ensures IsSubsequence(Shown(props, data, term), data)
    ensures forall x :: x in Shown(props, data, term) ==> x in data && Matches(props.language, term, x)
  {
    var all := FilterResults(data, props.language, term);
    var shown := Shown(props, data, term);
    FilterIsSubsequence(data, props.language, term);
    PrefixIsSubsequence(all, |shown|);
    if Length(term) >= MinQueryLength {
      SubsequenceTransitive(shown, all, data);
    }
    forall x | x in shown ensures x in data && Matches(props.language, term, x) {
      assert x in all;
    }
  }

  /**
   * Once the records before `r` already supply `maxResults` matches, `r` is not
   * shown, even for a query that `r` matches (its own postal code, say).
   */
  lemma BeyondLimitNotShown(props: Props, before: seq<ThailandData>, r: ThailandData,
                            after: seq<ThailandData>, term: string)
    requires r !in before && props.maxResults >= 0
    requires |FilterResults(before, props.language, term)| >= props.maxResults
    ensures r !in Shown(props, before + [r] + after, term)
  {
    var lang := props.language;
    if Length(term) >= MinQueryLength {
      var data := before + [r] + after;
      var pre := Filter(before, lang, term);
      assert r !in pre;
      assert data == before + ([r] + after);
      FilterAppend(before, [r] + after, lang, term);
      PrefixOfAppend(pre, Filter([r] + after, lang, term), props.maxResults);
    }
  }

  lemma PrefixOfAppend<T>(a: seq<T>, b: seq<T>, n: int)
    requires 0 <= n <= |a|
    ensures (a + b)[..n] == a[..n]
  {
  }

  // ---- the match predicate, field by field --------------------------------

  /** For an all-digit query a record matches exactly when its postal code's text starts with it. */
  lemma DigitQueryMatches(lang: Language, q: string, r: ThailandData)
    requires IsDigitQuery(q)
    ensures Matches(lang, q, r) <==> r.postalCode >= 0 && StartsWith(NatToDecimal(r.postalCode), q)
  {
  }

  lemma KeySuffixes()
    ensures EndsWith("provinceNameEn", "NameEn") && !EndsWith("provinceNameEn", "NameTh")
    ensures EndsWith("districtNameEn", "NameEn") && !EndsWith("districtNameEn", "NameTh")
    ensures EndsWith("subdistrictNameEn", "NameEn") && !EndsWith("subdistrictNameEn", "NameTh")
    ensures EndsWith("provinceNameTh", "NameTh") && !EndsWith("provinceNameTh", "NameEn")
    ensures EndsWith("districtNameTh", "NameTh") && !EndsWith("districtNameTh", "NameEn")
    ensures EndsWith("subdistrictNameTh", "NameTh") && !EndsWith("subdistrictNameTh", "NameEn")
  {
  }

  /** The `some` callback never accepts the `id` entry. */
  lemma IdEntry(lang: Language, q: string, r: ThailandData)
    ensures !EntryMatches(lang, q, Entries(r)[0].0, Entries(r)[0].1)
  {
  }

  /** The callback accepts a code entry exactly when the code's text contains the query. */
  lemma CodeEntries(lang: Language, q: string, r: ThailandData)
    ensures var es := Entries(r);
      && (EntryMatches(lang, q, es[1].0, es[1].1) <==> Includes(IntToDecimal(r.provinceCode), q))
      && (EntryMatches(lang, q, es[4].0, es[4].1) <==> Includes(IntToDecimal(r.districtCode), q))
      && (EntryMatches(lang, q, es[7].0, es[7].1) <==> Includes(IntToDecimal(r.subdistrictCode), q))
      && (EntryMatches(lang, q, es[10].0, es[10].1) <==> Includes(IntToDecimal(r.postalCode), q))
  {
  }

  /**
   * The callback accepts a name entry exactly when the name is in the chosen
   * language and contains the query, ignoring case.
   */
  lemma NameEntries(lang: Language, q: string, r: ThailandData)
    ensures var es := Entries(r);
      && (EntryMatches(lang, q, es[2].0, es[2].1) <==> lang == En && Includes(ToLower(r.provinceNameEn), ToLower(q)))
      && (EntryMatches(lang, q, es[3].0, es[3].1) <==> lang == Th && Includes(ToLower(r.provinceNameTh), ToLower(q)))
      && (EntryMatches(lang, q, es[5].0, es[5].1) <==> lang == En && Includes(ToLower(r.districtNameEn), ToLower(q)))
      && (EntryMatches(lang, q, es[6].0, es[6].1) <==> lang == Th && Includes(ToLower(r.districtNameTh), ToLower(q)))
      && (EntryMatches(lang, q, es[8].0, es[8].1) <==> lang == En && Includes(ToLower(r.subdistrictNameEn), ToLower(q)))
      && (EntryMatches(lang, q, es[9].0, es[9].1) <==> lang == Th && Includes(ToLower(r.subdistrictNameTh), ToLower(q)))
  {
    KeySuffixes();
  }

  /** A name in the chosen language contains the query, ignoring case. */
  predicate NameHit(lang: Language, q: string, r: ThailandData) {
    exists n :: n in NamesIn(lang, r) && Includes(ToLower(n), ToLower(q))
  }

  /** The text of a numeric field other than `id` contains the query. */
  predicate CodeHit(q: string, r: ThailandData) {
    exists c :: c in Codes(r) && Includes(IntToDecimal(c), q)
  }

  lemma MatchingEntryIsHit(lang: Language, q: string, r: ThailandData, i: int)
    requires 0 <= i < |Entries(r)| && EntryMatches(lang, q, Entries(r)[i].0, Entries(r)[i].1)
    ensures NameHit(lang, q, r) || CodeHit(q, r)
  {
    var names := NamesIn(lang, r);
    var codes := Codes(r);
    if i == 0 {
      IdEntry(lang, q, r);
    } else if i == 1 || i == 4 || i == 7 || i == 10 {
      CodeEntries(lang, q, r);
      if i == 1 { assert codes[0] in codes; }
      else if i == 4 { assert codes[1] in codes; }
      else if i == 7 { assert codes[2] in codes; }
      else { assert codes[3] in codes; }
    } else {
      NameEntries(lang, q, r);
      if i == 2 || i == 3 { assert names[0] in names; }
      else if i == 5 || i == 6 { assert names[1] in names; }
      else { assert names[2] in names; }
    }
  }

  lemma HitHasMatchingEntry(lang: Language, q: string, r: ThailandData)
    requires NameHit(lang, q, r) || CodeHit(q, r)
    ensures exists i :: 0 <= i < |Entries(r)| && EntryMatches(lang, q, Entries(r)[i].0, Entries(r)[i].1)
  {
    if NameHit(lang, q, r) {
      NameHitHasEntry(lang, q, r);
    } else {
      CodeHitHasEntry(lang, q, r);
    }
  }

  lemma NameHitHasEntry(lang: Language, q: string, r: ThailandData)
    requires NameHit(lang, q, r)
    ensures exists i :: 0 <= i < |Entries(r)| && EntryMatches(lang, q, Entries(r)[i].0, Entries(r)[i].1)
  {
    var es := Entries(r);
    var names := NamesIn(lang, r);
    NameEntries(lang, q, r);
    var n :| n in names && Includes(ToLower(n), ToLower(q));
    var k := if lang == En then 2 else 3;
    if n == names[0] { assert EntryMatches(lang, q, es[k].0, es[k].1); }
    else if n == names[1] { assert EntryMatches(lang, q, es[k + 3].0, es[k + 3].1); }
    else { assert EntryMatches(lang, q, es[k + 6].0, es[k + 6].1); }
  }

  lemma CodeHitHasEntry(lang: Language, q: string, r: ThailandData)
    requires CodeHit(q, r)
    ensures exists i :: 0 <= i < |Entries(r)| && EntryMatches(lang, q, Entries(r)[i].0, Entries(r)[i].1)
  {
    var es := Entries(r);
    var codes := Codes(r);
    CodeEntries(lang, q, r);
    var c :| c in codes && Includes(IntToDecimal(c), q);
    if c == codes[0] { assert EntryMatches(lang, q, es[1].0, es[1].1); }
    else if c == codes[1] { assert EntryMatches(lang, q, es[4].0, es[4].1); }
    else if c == codes[2] { assert EntryMatches(lang, q, es[7].0, es[7].1); }
    else { assert EntryMatches(lang, q, es[10].0, es[10].1); }
  }

  /**
   * For any other query a record matches exactly when a name in the chosen
   * language contains the query, ignoring case, or the text of a numeric field
   * other than `id` contains it.
   */
  lemma NonDigitQueryMatches(lang: Language, q: string, r: ThailandData)
    requires !IsDigitQuery(q)
    ensures Matches(lang, q, r) <==> NameHit(lang, q, r) || CodeHit(q, r)
  {
    if Matches(lang, q, r) {
      var es := Entries(r);
      var i :| 0 <= i < |es| && EntryMatches(lang, q, es[i].0, es[i].1);
      MatchingEntryIsHit(lang, q, r, i);
    }
    if NameHit(lang, q, r) || CodeHit(q, r) {
      HitHasMatchingEntry(lang, q, r);
    }
  }

  /** Only the chosen-language names and the numeric fields other than `id` decide a match. */
  lemma OnlySearchedFieldsMatter(lang: Language, q: string, r: ThailandData, s: ThailandData)
    requires NamesIn(lang, r) == NamesIn(lang, s) && Codes(r) == Codes(s)
    ensures Matches(lang, q, r) <==> Matches(lang, q, s)
  {
    assert r.postalCode == Codes(r)[3] == Codes(s)[3] == s.postalCode;
    if !IsDigitQuery(q) {
      NonDigitQueryMatches(lang, q, r);
      NonDigitQueryMatches(lang, q, s);
    }
  }

  /** Every character of a number's text is a digit or the minus sign. */
  lemma DecimalChars(n: int, c: char)
    requires c in IntToDecimal(n)
    ensures IsDigit(c) || c == '-'
  {
    var s := IntToDecimal(n);
    var k :| 0 <= k < |s| && s[k] == c;
    if n < 0 && k > 0 {
      assert s[k] == s[1..][k - 1];
    }
  }

  /** A query containing an upper-case letter occurs in no number's text, nor does its lower-case form. */
  lemma NoLetterInNumber(n: int, q: string, k: int)
    requires 0 <= k < |q| && IsUpper(q[k])
    ensures !Includes(IntToDecimal(n), q) && !Includes(IntToDecimal(n), ToLower(q))
  {
    if Includes(IntToDecimal(n), q) {
      CharsOfIncluded(IntToDecimal(n), q, q[k]);
      DecimalChars(n, q[k]);
    }
    var lq := ToLower(q);
    if Includes(IntToDecimal(n), lq) {
      assert lq[k] in lq;
      CharsOfIncluded(IntToDecimal(n), lq, lq[k]);
      DecimalChars(n, lq[k]);
    }
  }

  /**
   * When no code is negative, a query that is not all digits matches a record
   * exactly when a name in the chosen language contains it, ignoring case: such
   * a query holds a character that no code's text holds.
   */
  lemma NonDigitQueryIsNameHit(lang: Language, q: string, r: ThailandData)
    requires !IsDigitQuery(q) && forall c :: c in Codes(r) ==> c >= 0
    ensures Matches(lang, q, r) <==> NameHit(lang, q, r)
  {
    NonDigitQueryMatches(lang, q, r);
    if CodeHit(q, r) && !NameHit(lang, q, r) {
      var names := NamesIn(lang, r);
      if q == [] {
        assert StartsWith(ToLower(names[0]), ToLower(q));
        assert false;
      }
      var k :| 0 <= k < |q| && !IsDigit(q[k]);
      var c :| c in Codes(r) && Includes(IntToDecimal(c), q);
      CharsOfIncluded(IntToDecimal(c), q, q[k]);
      assert false;
    }
  }

  /**
   * With non-negative codes, every row the dropdown shows for a query that is not
   * all digits has a name in the chosen language that contains the query.
   */
  lemma ShownRowsHitByName(props: Props, data: seq<ThailandData>, term: string)
    requires !IsDigitQuery(term)
    requires forall r, c :: r in data && c in Codes(r) ==> c >= 0
    ensures forall x :: x in Shown(props, data, term) ==> NameHit(props.language, term, x)
  {
    ShownSpec(props, data, term);
    forall x | x in Shown(props, data, term) ensures NameHit(props.language, term, x) {
      NonDigitQueryIsNameHit(props.language, term, x);
    }
  }

  /** The search ignores the case of the query: a query and its lower-case form select the same records. */
  lemma QueryCaseIgnored(lang: Language, q: string, r: ThailandData)
    ensures Matches(lang, q, r) <==> Matches(lang, ToLower(q), r)
  {
    var lq := ToLower(q);
    if forall k :: 0 <= k < |q| ==> !IsUpper(q[k]) {
      ToLowerOfLower(q);
    } else {
      var k :| 0 <= k < |q| && IsUpper(q[k]);
      assert !IsDigitQuery(q);
      assert !IsDigit(lq[k]);
      ToLowerIdempotent(q);
      NonDigitQueryMatches(lang, q, r);
      NonDigitQueryMatches(lang, lq, r);
      assert NameHit(lang, q, r) <==> NameHit(lang, lq, r);
      forall c | c in Codes(r)
        ensures !Includes(IntToDecimal(c), q) && !Includes(IntToDecimal(c), lq)
      {
        NoLetterInNumber(c, q, k);
      }
    }
  }

  /**
   * Typing a record's own postal code (two digits or more) finds the record among
   * the matches.
   */
  lemma OwnPostalCodeFound(data: seq<ThailandData>, lang: Language, r: ThailandData)
    requires r in data && r.postalCode >= 10
    ensures r in FilterResults(data, lang, IntToDecimal(r.postalCode))
  {
    var q := IntToDecimal(r.postalCode);
    NatToDecimalLength(r.postalCode);
    assert IsDigitQuery(q);
    LengthInBmp(q);
    assert StartsWith(q, q) by {
      assert q[..|q|] == q;
    }
  }
}
