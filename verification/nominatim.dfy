/**
 * Geocoding candidates as the Nominatim search API returns them, and the
 * country tests the route and the client components apply to them.
 */
module Nominatim {
  import opened Wrappers
  import opened JsText
  import opened JsNumber
  import opened Seqs

  /** The `address` object: every component may be missing. */
  datatype Address = Address(
    road: Option<string>, houseNumber: Option<string>,
    city: Option<string>, town: Option<string>, village: Option<string>,
    municipality: Option<string>, suburb: Option<string>, county: Option<string>,
    state: Option<string>, postcode: Option<string>, country: Option<string>,
    countryCode: Option<string>)

  /** One search hit. Nominatim sends lat/lon as strings; the route re-sends them as numbers. */
  datatype Place = Place(
    placeId: Scalar, displayName: string, lat: Scalar, lon: Scalar,
    address: Option<Address>, kind: Option<string>)

  /** A JavaScript string value that is truthy (present and non-empty). */
  predicate Truthy(o: Option<string>) {
    o.Some? && o.value != ""
  }

  /** `a || b || … || z` over optional strings: the first truthy one, else the last operand. */
  function FirstTruthy(xs: seq<Option<string>>): (r: Option<string>)
    requires xs != []
    ensures Truthy(r) <==> exists i :: 0 <= i < |xs| && Truthy(xs[i])
    ensures Truthy(r) ==> exists i :: 0 <= i < |xs| && r == xs[i] && forall j :: 0 <= j < i ==> !Truthy(xs[j])
    ensures !Truthy(r) ==> r == xs[|xs| - 1]
  {
    if |xs| == 1 || Truthy(xs[0]) then xs[0]
    else
      var r := FirstTruthy(xs[1..]);
      assert forall i :: 1 <= i < |xs| ==> xs[i] == xs[1..][i - 1];
      r
  }

  /** `p.address?.country_code`. */
  function CountryCode(p: Place): Option<string> {
    if p.address.Some? then p.address.value.countryCode else None
  }

  /** `(p.address?.country_code || "").toLowerCase() === "es"`: the route's filter. */
  predicate HasSpanishCode(p: Place) {
    ToLower(CountryCode(p).GetOr("")) == "es"
  }

  /** The letters of "ESPAÑA", compared after the case folding of a /i regular expression. */
  const Espana: string := "ESPAÑA"

  /** Canonicalize of a non-unicode /i regex for the letters that can meet "ESPAÑA". */
  function FoldCase(c: char): char {
    if 'a' <= c <= 'z' then (c as int - 32) as char
    else if c == 'ñ' then 'Ñ'
    else c
  }

  /** `\w` of a non-unicode regular expression. */
  predicate IsWordChar(c: char) {
    'a' <= c <= 'z' || 'A' <= c <= 'Z' || '0' <= c <= '9' || c == '_'
  }

  /** `/\bEspaña\b/i` matches at index i. */
  predicate EspanaAt(s: string, i: int) {
    && 0 <= i && i + |Espana| <= |s|
    && (forall k :: 0 <= k < |Espana| ==> FoldCase(s[i + k]) == Espana[k])
    && (i == 0 || !IsWordChar(s[i - 1]))
    && (i + |Espana| == |s| || !IsWordChar(s[i + |Espana|]))
  }

  /** `/\bEspaña\b/i.test(s)`. */
  predicate MentionsEspana(s: string) {
    exists i | 0 <= i <= |s| :: EspanaAt(s, i)
  }

  /**
   * `isSpain`: a present, non-empty country code decides (lower-cased, must be "es");
   * without one the display name must contain the word "España".
   */
  function IsSpain(p: Place): (r: bool)
    ensures Truthy(CountryCode(p)) ==> (r <==> ToLower(CountryCode(p).value) == "es")
    ensures !Truthy(CountryCode(p)) ==> (r <==> MentionsEspana(p.displayName))
  {
    var cc := if CountryCode(p).Some? then Some(ToLower(CountryCode(p).value)) else None;
    if Truthy(cc) then cc.value == "es" else MentionsEspana(p.displayName)
  }

  /** Whatever passes the route's country filter passes the clients' isSpain. */
  lemma SpanishCodeIsSpain(p: Place)
    requires HasSpanishCode(p)
    ensures IsSpain(p)
  {
  }
}
