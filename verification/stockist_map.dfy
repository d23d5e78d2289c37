/** The stockist search box: the query is lower-cased and trimmed, and the
    map moves to the first stockist whose postcode, suburb or location
    contains it. */
module StockistMap {

  datatype Option<T> = None | Some(value: T)

  /** Longitude and latitude, passed through to the map untouched. */
  datatype Coordinates = Coordinates(lng: real, lat: real)

  datatype Stockist = Stockist(
    name: string, location: string, address: string, phone: string,
    email: string, website: string, coordinates: Coordinates,
    postcode: string, suburb: string)

  /** The camera move the search requests from the map. */
  datatype FlyTo = FlyTo(center: Coordinates, zoom: int, durationMs: int)

  const MatchZoom: int := 12
  const FlightDurationMs: int := 2000

  /** The characters JavaScript's `trim` removes: the white space characters
      (tab, vertical tab, form feed, the byte order mark and every space
      separator) and the line terminators. */
  predicate IsWhitespace(c: char) {
    || c == '\t' || c == '\U{000B}' || c == '\U{000C}' || c == ' '
    || c == '\U{00A0}' || c == '\U{1680}' || ('\U{2000}' <= c <= '\U{200A}')
    || c == '\U{202F}' || c == '\U{205F}' || c == '\U{3000}' || c == '\U{FEFF}'
    || c == '\n' || c == '\r' || c == '\U{2028}' || c == '\U{2029}'
  }

  predicate IsBlank(s: string) {
    forall k :: 0 <= k < |s| ==> IsWhitespace(s[k])
  }

  predicate IsUpper(c: char) {
    'A' <= c <= 'Z'
  }

  /** Lower-cases an ASCII capital; every other character is kept. */
  function LowerChar(c: char): char {
    if IsUpper(c) then (c as int + 32) as char else c
  }

  /** Lower-cases a string: the length and every non-capital are kept, and
      no ASCII capital is left. */
  function ToLower(s: string): (r: string)
    ensures |r| == |s|
    ensures forall k :: 0 <= k < |s| ==> !IsUpper(r[k])
    ensures forall k :: 0 <= k < |s| && !IsUpper(s[k]) ==> r[k] == s[k]
    ensures forall k :: 0 <= k < |s| && IsUpper(s[k]) ==> r[k] as int == s[k] as int + 32
  {
    seq(|s|, k requires 0 <= k < |s| => LowerChar(s[k]))
  }

  /** Number of whitespace characters before the first other one. */
  function LeadingSpace(s: string): (n: nat)
    ensures n <= |s|
    ensures forall k :: 0 <= k < n ==> IsWhitespace(s[k])
    ensures n < |s| ==> !IsWhitespace(s[n])
    decreases |s|
  {
    if |s| == 0 || !IsWhitespace(s[0]) then 0 else 1 + LeadingSpace(s[1..])
  }

  /** Number of whitespace characters after the last other one. */
  function TrailingSpace(s: string): (n: nat)
    ensures n <= |s|
    ensures forall k :: |s| - n <= k < |s| ==> IsWhitespace(s[k])
    ensures n < |s| ==> !IsWhitespace(s[|s| - n - 1])
    decreases |s|
  {
    if |s| == 0 || !IsWhitespace(s[|s| - 1]) then 0 else 1 + TrailingSpace(s[..|s| - 1])
  }

  /** Whitespace is removed from both ends and nowhere else: the result is
      the slice of `s` after its leading whitespace, only whitespace follows
      it in `s`, and it neither starts nor ends with whitespace. */
  function Trim(s: string): (r: string)
    ensures |r| <= |s| - LeadingSpace(s)
    ensures r == s[LeadingSpace(s)..LeadingSpace(s) + |r|]
    ensures forall k :: LeadingSpace(s) + |r| <= k < |s| ==> IsWhitespace(s[k])
    ensures r != [] ==> !IsWhitespace(r[0]) && !IsWhitespace(r[|r| - 1])
    ensures r == [] <==> IsBlank(s)
  {
    var rest := s[LeadingSpace(s)..];
    rest[..|rest| - TrailingSpace(rest)]
  }

  /** `needle` sits in `hay` starting at position `i`. */
  predicate OccursAt(hay: string, needle: string, i: int) {
    0 <= i && i + |needle| <= |hay| && hay[i..i + |needle|] == needle
  }

  /** Substring test, as `String.prototype.includes`. */
  function Contains(hay: string, needle: string): (b: bool)
    ensures b <==> exists i :: OccursAt(hay, needle, i)
    decreases |hay|
  {
    if |needle| > |hay| then
      assert forall i :: !OccursAt(hay, needle, i);
      false
    else if hay[..|needle|] == needle then
      assert OccursAt(hay, needle, 0);
      true
    else
      var b := Contains(hay[1..], needle);
      ShiftOccurs(hay, needle);
      b
  }

  lemma ShiftOccurs(hay: string, needle: string)
    requires |hay| > 0 && !OccursAt(hay, needle, 0)
    ensures (exists i :: OccursAt(hay[1..], needle, i)) <==> (exists i :: OccursAt(hay, needle, i))
  {
    forall i | OccursAt(hay[1..], needle, i)
      ensures OccursAt(hay, needle, i + 1)
    {
      assert hay[1..][i..i + |needle|] == hay[i + 1..i + 1 + |needle|];
    }
    forall i | OccursAt(hay, needle, i)
      ensures i >= 1 && OccursAt(hay[1..], needle, i - 1)
    {
      assert hay[1..][i - 1..i - 1 + |needle|] == hay[i..i + |needle|];
    }
  }

  /** A stockist matches when the query is contained in its lower-cased
      postcode, suburb or location. */
  predicate Matches(st: Stockist, query: string) {
    || Contains(ToLower(st.postcode), query)
    || Contains(ToLower(st.suburb), query)
    || Contains(ToLower(st.location), query)
  }

  /** Position `i` holds a match and nothing before it does. */
  predicate IsFirstMatch(stockists: seq<Stockist>, query: string, i: int) {
    && 0 <= i < |stockists|
    && Matches(stockists[i], query)
    && forall j :: 0 <= j < i ==> !Matches(stockists[j], query)
  }

  /** The position `Array.prototype.find` stops at, if any. */
  function FindFirst(stockists: seq<Stockist>, query: string): (r: Option<nat>)
    ensures r.Some? ==> IsFirstMatch(stockists, query, r.value)
    ensures r.None? <==> forall j :: 0 <= j < |stockists| ==> !Matches(stockists[j], query)
    decreases |stockists|
  {
    if |stockists| == 0 then None
    else if Matches(stockists[0], query) then Some(0)
    else
      match FindFirst(stockists[1..], query)
      case None => None
      case Some(i) => Some(i + 1)
  }

  /** The query as it is compared: lower-cased, then trimmed. */
  function Normalize(searchQuery: string): string {
    Trim(ToLower(searchQuery))
  }

  /** The search: nothing happens for a blank query or before the map has
      loaded; otherwise the map flies to the first matching stockist, or
      stays put when none matches. */
  function HandleSearch(stockists: seq<Stockist>, searchQuery: string, mapLoaded: bool): (r: Option<FlyTo>)
    ensures IsBlank(searchQuery) ==> r.None?
    ensures !mapLoaded ==> r.None?
    ensures r.Some? ==>
      exists i :: IsFirstMatch(stockists, Normalize(searchQuery), i)
        && r.value == FlyTo(stockists[i].coordinates, MatchZoom, FlightDurationMs)
    ensures mapLoaded && !IsBlank(searchQuery) && r.None? ==>
      forall j :: 0 <= j < |stockists| ==> !Matches(stockists[j], Normalize(searchQuery))
  {
    var query := Normalize(searchQuery);
    BlankUnderLower(searchQuery);
    if query == [] || !mapLoaded then None
    else
      match FindFirst(stockists, query)
      case None => None
      case Some(i) => Some(FlyTo(stockists[i].coordinates, MatchZoom, FlightDurationMs))
  }

  /** Lower-casing neither creates nor removes whitespace. */
  lemma BlankUnderLower(s: string)
    ensures IsBlank(ToLower(s)) <==> IsBlank(s)
  {
    assert forall k :: 0 <= k < |s| ==> (IsWhitespace(ToLower(s)[k]) <==> IsWhitespace(s[k]));
  }

  /** The search button is disabled exactly when the search would ignore
      the query. */
  lemma SearchButtonMatchesGuard(searchQuery: string)
    ensures Trim(searchQuery) == [] <==> Normalize(searchQuery) == []
  {
    BlankUnderLower(searchQuery);
  }

  lemma LowerIdempotent(s: string)
    ensures ToLower(ToLower(s)) == ToLower(s)
  {
    assert forall k :: 0 <= k < |s| ==> ToLower(ToLower(s))[k] == ToLower(s)[k];
  }

  /** The search ignores the case of ASCII letters in the query. */
  lemma SearchIgnoresCase(stockists: seq<Stockist>, searchQuery: string, mapLoaded: bool)
    ensures HandleSearch(stockists, ToLower(searchQuery), mapLoaded) == HandleSearch(stockists, searchQuery, mapLoaded)
  {
    LowerIdempotent(searchQuery);
  }

  /** Trim is determined by its shape: whitespace, then a core that neither
      starts nor ends with whitespace, then whitespace, trims to the core. */
  lemma TrimOfPadded(a: string, core: string, b: string)
    requires IsBlank(a) && IsBlank(b)
    requires core != [] ==> !IsWhitespace(core[0]) && !IsWhitespace(core[|core| - 1])
    ensures Trim(a + core + b) == core
  {
    var s := a + core + b;
    if core == [] {
      assert IsBlank(s);
    } else {
      var n := LeadingSpace(s);
      assert s[|a|] == core[0];
      assert n == |a|;
      var rest := s[n..];
      assert rest == core + b;
      var m := TrailingSpace(rest);
      assert rest[|core| - 1] == core[|core| - 1];
      assert m == |b|;
      assert rest[..|rest| - m] == core;
    }
  }

  lemma LowerConcat(a: string, b: string)
    ensures ToLower(a + b) == ToLower(a) + ToLower(b)
  {
    assert forall k :: 0 <= k < |a + b| ==> ToLower(a + b)[k] == (ToLower(a) + ToLower(b))[k];
  }

  lemma LowerBlank(a: string)
    requires IsBlank(a)
    ensures ToLower(a) == a
  {
  }

  lemma BlankConcat(a: string, b: string)
    requires IsBlank(a) && IsBlank(b)
    ensures IsBlank(a + b)
  {
    assert forall k :: 0 <= k < |a + b| ==> (a + b)[k] == (if k < |a| then a[k] else b[k - |a|]);
  }

  /** A trimmed string is its leading whitespace, its core and its trailing
      whitespace. */
  lemma TrimSplit(s: string)
    ensures var n := LeadingSpace(s); var core := Trim(s);
      && s == s[..n] + core + s[n + |core|..]
      && IsBlank(s[..n]) && IsBlank(s[n + |core|..])
  {
    var n := LeadingSpace(s);
    var core := Trim(s);
    assert s == s[..n] + s[n..n + |core|] + s[n + |core|..];
  }

  lemma LowerPadded(before: string, searchQuery: string, after: string)
    requires IsBlank(before) && IsBlank(after)
    ensures ToLower(before + searchQuery + after) == before + ToLower(searchQuery) + after
  {
    LowerConcat(before, searchQuery);
    LowerConcat(before + searchQuery, after);
    LowerBlank(before);
    LowerBlank(after);
  }

  lemma Regroup(a: string, b: string, c: string, d: string, e: string)
    ensures a + (b + c + d) + e == (a + b) + c + (d + e)
  {
  }

  /** Whitespace around a string does not change what it trims to. */
  lemma TrimIgnoresPadding(before: string, s: string, after: string)
    requires IsBlank(before) && IsBlank(after)
    ensures Trim(before + s + after) == Trim(s)
  {
    var core := Trim(s);
    var n := LeadingSpace(s);
    TrimSplit(s);
    var lead, trail := s[..n], s[n + |core|..];
    Regroup(before, lead, core, trail, after);
    BlankConcat(before, lead);
    BlankConcat(trail, after);
    TrimOfPadded(before + lead, core, trail + after);
  }

  /** Whitespace typed around the query leaves the normalised query as it was. */
  lemma NormalizeIgnoresPadding(before: string, searchQuery: string, after: string)
    requires IsBlank(before) && IsBlank(after)
    ensures Normalize(before + searchQuery + after) == Normalize(searchQuery)
  {
    LowerPadded(before, searchQuery, after);
    TrimIgnoresPadding(before, ToLower(searchQuery), after);
  }

  /** Whitespace typed around the query does not change the search. */
  lemma SearchIgnoresPadding(stockists: seq<Stockist>, before: string, searchQuery: string, after: string, mapLoaded: bool)
    requires IsBlank(before) && IsBlank(after)
    ensures HandleSearch(stockists, before + searchQuery + after, mapLoaded) == HandleSearch(stockists, searchQuery, mapLoaded)
  {
    NormalizeIgnoresPadding(before, searchQuery, after);
  }
}
