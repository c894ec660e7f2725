/**
 * The therapist directory: a case-insensitive search over names and
 * specializations combined with a price-band filter, and the colour used to
 * show an hourly rate.
 */
module TherapistSearch {
  import Text
  import LanguageContext

  datatype Therapist = Therapist(id: string, name: string, specializations: seq<string>, hourlyRate: int)

  // ---------------------------------------------------------------------------
  // Price bands
  // ---------------------------------------------------------------------------

  datatype PriceFilter = All | Low | Medium | High

  const LowLimit: int := 1500
  const HighFrom: int := 2000

  /** `matchesPrice`: "all" lets every rate through, each band its own range. */
  predicate MatchesPrice(f: PriceFilter, rate: int) {
    match f
    case All => true
    case Low => rate < LowLimit
    case Medium => LowLimit <= rate < HighFrom
    case High => rate >= HighFrom
  }

  /** The one band a rate belongs to. */
  function BandOf(rate: int): (f: PriceFilter)
    ensures f != All
    ensures MatchesPrice(f, rate)
  {
    if rate < LowLimit then Low else if rate < HighFrom then Medium else High
  }

  /** The three bands partition the rates: a rate passes a band filter
      exactly when that band is its own. */
  lemma BandsPartition(rate: int, f: PriceFilter)
    requires f != All
    ensures MatchesPrice(f, rate) <==> f == BandOf(rate)
  {
  }

  datatype PriceColor = Green | Blue | Orange

  /** `getPriceColor`. */
  function PriceColorOf(rate: int): PriceColor {
    if rate < 1500 then Green else if rate < 2000 then Blue else Orange
  }

  /** The rate colours follow the filter bands one for one. */
  lemma PriceColorAgreesWithBands(rate: int)
    ensures PriceColorOf(rate) == Green <==> MatchesPrice(Low, rate)
    ensures PriceColorOf(rate) == Blue <==> MatchesPrice(Medium, rate)
    ensures PriceColorOf(rate) == Orange <==> MatchesPrice(High, rate)
  {
  }

  // ---------------------------------------------------------------------------
  // Search
  // ---------------------------------------------------------------------------

  /** `specializations.some(spec => lower(spec).includes(query))`, scanned front to back. */
  predicate SomeSpecIncludes(specs: seq<string>, query: string)
    decreases |specs|
  {
    |specs| > 0 && (Text.Contains(Text.Lower(specs[0]), query) || SomeSpecIncludes(specs[1..], query))
  }

  lemma {:induction false} SomeSpecIncludesIff(specs: seq<string>, query: string)
    ensures SomeSpecIncludes(specs, query) <==>
      exists i :: 0 <= i < |specs| && Text.Contains(Text.Lower(specs[i]), query)
    decreases |specs|
  {
    if |specs| > 0 {
      SomeSpecIncludesIff(specs[1..], query);
      if SomeSpecIncludes(specs[1..], query) {
        var i :| 0 <= i < |specs[1..]| && Text.Contains(Text.Lower(specs[1..][i]), query);
        assert Text.Contains(Text.Lower(specs[i + 1]), query);
      }
      if !Text.Contains(Text.Lower(specs[0]), query) && !SomeSpecIncludes(specs[1..], query) {
        forall i | 0 <= i < |specs|
          ensures !Text.Contains(Text.Lower(specs[i]), query)
        {
          if i > 0 {
            assert specs[i] == specs[1..][i - 1];
          }
        }
      }
    }
  }

  /** `matchesSearch`: the lower-cased query occurs in the lower-cased name
      or in some lower-cased specialization. */
  predicate MatchesSearch(t: Therapist, query: string) {
    var q := Text.Lower(query);
    Text.Contains(Text.Lower(t.name), q) || SomeSpecIncludes(t.specializations, q)
  }

  /** An empty query matches every therapist. */
  lemma EmptyQueryMatches(t: Therapist)
    ensures MatchesSearch(t, "")
  {
    Text.ContainsEmpty(Text.Lower(t.name));
  }

  /** The query's letter case does not matter. */
  lemma SearchIgnoresQueryCase(t: Therapist, query: string)
    ensures MatchesSearch(t, Text.Lower(query)) == MatchesSearch(t, query)
  {
    Text.LowerIdempotent(query);
  }

  /** The search hits exactly when the query occurs in the name or in one
      of the specializations, all lower-cased. */
  lemma MatchesSearchIff(t: Therapist, query: string)
    ensures MatchesSearch(t, query) <==>
      || Text.Contains(Text.Lower(t.name), Text.Lower(query))
      || exists i :: 0 <= i < |t.specializations| &&
           Text.Contains(Text.Lower(t.specializations[i]), Text.Lower(query))
  {
    SomeSpecIncludesIff(t.specializations, Text.Lower(query));
  }

  // ---------------------------------------------------------------------------
  // The filtered list
  // ---------------------------------------------------------------------------

  predicate Keep(t: Therapist, query: string, f: PriceFilter) {
    MatchesSearch(t, query) && MatchesPrice(f, t.hourlyRate)
  }

  /** `filteredTherapists`: the directory, in order, without the therapists
      that fail the search or the price band. */
  function FilterTherapists(ts: seq<Therapist>, query: string, f: PriceFilter): (r: seq<Therapist>)
    ensures |r| <= |ts|
    ensures forall t :: t in r <==> t in ts && Keep(t, query, f)
    decreases |ts|
  {
    if |ts| == 0 then []
    else
      var rest := FilterTherapists(ts[1..], query, f);
      assert ts == [ts[0]] + ts[1..];
      if Keep(ts[0], query, f) then [ts[0]] + rest else rest
  }

  /** Filtering keeps the relative order: it distributes over concatenation. */
  lemma {:induction false} FilterAppend(a: seq<Therapist>, b: seq<Therapist>, query: string, f: PriceFilter)
    ensures FilterTherapists(a + b, query, f) == FilterTherapists(a, query, f) + FilterTherapists(b, query, f)
    decreases |a|
  {
    if |a| > 0 {
      assert (a + b)[1..] == a[1..] + b;
      FilterAppend(a[1..], b, query, f);
    } else {
      assert a + b == b;
    }
  }

  /** With no query and no price filter the whole directory is shown, in order. */
  lemma {:induction false} NoFilterKeepsAll(ts: seq<Therapist>)
    ensures FilterTherapists(ts, "", All) == ts
    decreases |ts|
  {
    if |ts| > 0 {
      EmptyQueryMatches(ts[0]);
      NoFilterKeepsAll(ts[1..]);
      assert ts == [ts[0]] + ts[1..];
    }
  }

  /** Filtering twice with the same settings gives the same list. */
  lemma {:induction false} FilterIdempotent(ts: seq<Therapist>, query: string, f: PriceFilter)
    ensures FilterTherapists(FilterTherapists(ts, query, f), query, f) == FilterTherapists(ts, query, f)
    decreases |ts|
  {
    if |ts| > 0 {
      FilterIdempotent(ts[1..], query, f);
      var rest := FilterTherapists(ts[1..], query, f);
      if Keep(ts[0], query, f) {
        assert ([ts[0]] + rest)[1..] == rest;
      }
    }
  }

  // ---------------------------------------------------------------------------
  // The directory as listed on the page
  // ---------------------------------------------------------------------------

  /** The three listed therapists; names follow the interface language. */
  function Directory(lang: LanguageContext.Lang): (ts: seq<Therapist>)
    ensures |ts| == 3
    ensures ts[0].hourlyRate == 1500 && ts[1].hourlyRate == 2000 && ts[2].hourlyRate == 1200
  {
    var th := lang.Th?;
    [ Therapist("1", if th then "ดร. สุดา วิทยานันท์" else "Dr. Suda Wityanan",
                ["Anxiety", "Depression", "Stress Management"], 1500),
      Therapist("2", if th then "อ.ดร. วิชัย สันติภาพ" else "Dr. Wichai Santipab",
                ["Mindfulness", "Relationship", "PTSD"], 2000),
      Therapist("3", if th then "ดร. นิรมล ใจดี" else "Dr. Niramal Jaidee",
                ["Teen Counseling", "Family Therapy", "Addiction"], 1200) ]
  }

  /** Each band picks out exactly one listed therapist. */
  lemma DirectoryBands(lang: LanguageContext.Lang)
    ensures FilterTherapists(Directory(lang), "", Low) == [Directory(lang)[2]]
    ensures FilterTherapists(Directory(lang), "", Medium) == [Directory(lang)[0]]
    ensures FilterTherapists(Directory(lang), "", High) == [Directory(lang)[1]]
  {
    var ts := Directory(lang);
    EmptyQueryMatches(ts[0]);
    EmptyQueryMatches(ts[1]);
    EmptyQueryMatches(ts[2]);
    assert ts[1..][1..][1..] == [];
    assert ts[1..][1..] == [ts[2]];
    assert ts[1..] == [ts[1], ts[2]];
    forall f | f != All
      ensures FilterTherapists(ts, "", f) ==
        (if Keep(ts[0], "", f) then [ts[0]] else []) +
        (if Keep(ts[1], "", f) then [ts[1]] else []) +
        (if Keep(ts[2], "", f) then [ts[2]] else [])
    {
      assert FilterTherapists(ts[1..][1..][1..], "", f) == [];
      assert FilterTherapists(ts[1..][1..], "", f) == (if Keep(ts[2], "", f) then [ts[2]] else []);
    }
  }
}
