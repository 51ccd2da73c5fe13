/**
 * The address autocomplete widget: how a candidate is labelled, which town it
 * names, which parameters a lookup sends, and the lookup effect as a state
 * machine (debounce timer, one abort controller per lookup, the settling of
 * each lookup). Timers and fetches are events the environment chooses; a
 * lookup is known by the number of its controller.
 */
module AddressAutocomplete {
  import opened Wrappers
  import opened JsText
  import opened JsNumber
  import opened Seqs
  import opened Nominatim

  // ---- labels ----

  function Road(p: Place): Option<string> {
    if p.address.Some? then p.address.value.road else None
  }

  function HouseNumber(p: Place): Option<string> {
    if p.address.Some? then p.address.value.houseNumber else None
  }

  /** The first comma-separated piece of the display name, trimmed. */
  function FirstSegment(displayName: string): (r: string)
    ensures Contains(displayName, r)
    ensures ',' !in r
    ensures r != [] ==> !IsSpace(r[0]) && !IsSpace(r[|r| - 1])
    ensures exists pre, post :: AllSpace(pre) && AllSpace(post) && BeforeComma(displayName) == pre + r + post
  {
    SegmentInside(displayName);
    TrimmedWithin(BeforeComma(displayName));
    Trim(BeforeComma(displayName))
  }

  lemma SegmentInside(displayName: string)
    ensures Contains(displayName, Trim(BeforeComma(displayName)))
    ensures ',' !in Trim(BeforeComma(displayName))
  {
    var b := BeforeComma(displayName);
    PieceOfPrefix(displayName, b, TrimOffset(b), Trim(b), ',');
  }

  /** A piece `r` of a prefix `b` of `s` occurs in `s`, and holds no character `b` lacks. */
  lemma PieceOfPrefix(s: string, b: string, i: nat, r: string, c: char)
    requires |b| <= |s| && b == s[..|b|]
    requires i + |r| <= |b| && r == b[i..i + |r|]
    requires c !in b
    ensures Contains(s, r) && c !in r
  {
    assert r == s[i..i + |r|];
    assert OccursAt(s, r, i);
    assert forall k :: 0 <= k < |r| ==> r[k] == b[i + k];
  }

  /**
   * `split(",")[0]?.trim() || display_name`: the trimmed first comma piece of the
   * display name, or the whole display name when that piece is blank.
   */
  function FallbackLabel(displayName: string): (r: string)
    ensures FirstSegment(displayName) != [] ==> r == FirstSegment(displayName)
    ensures FirstSegment(displayName) == [] ==> r == displayName
    ensures Contains(displayName, r)
    ensures r != displayName ==> r != [] && ',' !in r && !IsSpace(r[0]) && !IsSpace(r[|r| - 1])
    ensures r == [] ==> displayName == []
  {
    var first := FirstSegment(displayName);
    if first != [] then first
    else
      assert OccursAt(displayName, displayName, 0);
      displayName
  }

  /**
   * `prettyLabel`: "road number" when both are given, the road alone when only it is,
   * otherwise the fallback label of the display name.
   */
  function PrettyLabel(p: Place): (r: string)
    ensures Truthy(Road(p)) && Truthy(HouseNumber(p)) ==> r == Road(p).value + " " + HouseNumber(p).value
    ensures Truthy(Road(p)) && !Truthy(HouseNumber(p)) ==> r == Road(p).value
    ensures !Truthy(Road(p)) ==> r == FallbackLabel(p.displayName)
    ensures r == [] ==> !Truthy(Road(p)) && p.displayName == []
  {
    var road := Road(p);
    var num := HouseNumber(p);
    if Truthy(road) && Truthy(num) then road.value + " " + num.value
    else if Truthy(road) then road.value
    else FallbackLabel(p.displayName)
  }

  /** `extractCity`: city, town, village, municipality or suburb, the first one given. */
  function ExtractCity(p: Place): (r: Option<string>)
    ensures p.address.None? ==> r.None?
    ensures p.address.Some? ==>
      var a := p.address.value;
      (Truthy(r) <==> Truthy(a.city) || Truthy(a.town) || Truthy(a.village) || Truthy(a.municipality) || Truthy(a.suburb))
      && (Truthy(a.city) ==> r == a.city)
      && (!Truthy(a.city) && Truthy(a.town) ==> r == a.town)
      && (!Truthy(a.city) && !Truthy(a.town) && Truthy(a.village) ==> r == a.village)
      && (!Truthy(a.city) && !Truthy(a.town) && !Truthy(a.village) && Truthy(a.municipality) ==> r == a.municipality)
      && (!Truthy(a.city) && !Truthy(a.town) && !Truthy(a.village) && !Truthy(a.municipality) ==> r == a.suburb)
  {
    if p.address.None? then None
    else
      var a := p.address.value;
      var chain := [a.city, a.town, a.village, a.municipality, a.suburb];
      var r := FirstTruthy(chain);
      assert chain[0] == a.city && chain[1] == a.town && chain[2] == a.village;
      assert chain[3] == a.municipality && chain[4] == a.suburb;
      r
  }

  // ---- the lookup request ----

  /** The props that shape a lookup (`countryCode` defaults to "es", `bounded` to true). */
  datatype Props = Props(countryCode: string, viewbox: Option<string>, bounded: bool)

  const DefaultProps := Props("es", None, true)

  /** Trimmed queries shorter than this issue no lookup. */
  const MinQueryLength: nat := 3

  /** The query-string parameters of one lookup for `q`. */
  function RequestParams(props: Props, q: string): (r: map<string, string>)
    ensures r.Keys >= {"format", "addressdetails", "limit", "dedupe", "countrycodes", "accept-language", "q"}
    ensures r.Keys <= {"format", "addressdetails", "limit", "dedupe", "countrycodes", "accept-language", "q", "viewbox", "bounded"}
    ensures r["limit"] == "6" && r["countrycodes"] == props.countryCode && r["q"] == q
    ensures "viewbox" in r <==> Truthy(props.viewbox)
    ensures "viewbox" in r ==> r["viewbox"] == props.viewbox.value
    ensures "bounded" in r <==> Truthy(props.viewbox) && props.bounded
    ensures "bounded" in r ==> r["bounded"] == "1"
  {
    var base := map["format" := "jsonv2", "addressdetails" := "1", "limit" := "6", "dedupe" := "1",
                    "countrycodes" := props.countryCode, "accept-language" := "es", "q" := q];
    var withBox := if Truthy(props.viewbox) then base["viewbox" := props.viewbox.value] else base;
    if Truthy(props.viewbox) && props.bounded then withBox["bounded" := "1"] else withBox
  }

  // ---- the lookup effect ----

  const SearchFailed := "No hemos podido buscar direcciones ahora mismo."

  /** How a lookup's promise settles when it was not aborted. */
  datatype Outcome = Failed | Data(places: seq<Place>)

  /** Everything the lookup effect reads and writes. */
  datatype Widget = Widget(
    value: string,         // the controlled input text
    open: bool,
    loading: bool,
    items: seq<Place>,
    error: Option<string>,
    timer: Option<string>, // the query a scheduled debounce timer will look up
    current: Option<nat>,  // abortRef.current, by lookup number
    inFlight: set<nat>,    // lookups whose promise has not settled yet
    aborted: set<nat>,     // lookups whose controller has been aborted
    next: nat)             // number of the next lookup

  /** The dropdown of candidates is on screen. */
  predicate ShowsList(w: Widget) {
    w.open && |w.items| > 0
  }

  /** The effect body after its cleanup cleared the previous timer, for the trimmed query `q`. */
  function Effect(w: Widget, q: string): (r: Widget)
    ensures r.error.None? && r.value == w.value
    ensures |q| < MinQueryLength ==> r.items == [] && !r.loading && r.timer.None?
    ensures |q| >= MinQueryLength ==> r.timer == Some(q) && r.items == w.items
    ensures r.current == w.current && r.inFlight == w.inFlight && r.aborted == w.aborted && r.next == w.next
  {
    var cleared := w.(error := None, timer := None);
    if |q| < MinQueryLength then cleared.(items := [], loading := false)
    else cleared.(timer := Some(q))
  }

  /** The first render with input text `value`, then the mount run of the effect. */
  function Mounted(value: string): Widget {
    Effect(Widget(value, false, false, [], None, None, None, {}, {}, 0), Trim(value))
  }

  /** `onChange` as written: the parent takes the new text, the list opens, the effect reruns if the trimmed query changed. */
  function Edited(w: Widget, v: string): (r: Widget)
    ensures r.value == v && r.open
    ensures Trim(v) == Trim(w.value) ==> r == w.(value := v, open := true)
    ensures Trim(v) != Trim(w.value) && |Trim(v)| < MinQueryLength ==> r.items == [] && !r.loading && r.timer.None?
    ensures Trim(v) != Trim(w.value) && |Trim(v)| >= MinQueryLength ==> r.timer == Some(Trim(v)) && r.items == w.items
    ensures r.current == w.current && r.inFlight == w.inFlight && r.aborted == w.aborted
  {
    var typed := w.(value := v, open := true);
    if Trim(v) == Trim(w.value) then typed else Effect(typed, Trim(v))
  }

  /** The debounce timer fires: loading on, the previous controller aborted, a new lookup issued. */
  function TimerFired(w: Widget): (r: Widget)
    requires w.timer.Some?
    ensures r.loading && r.timer.None?
    ensures r.current == Some(w.next) && r.inFlight == w.inFlight + {w.next} && r.next == w.next + 1
    ensures w.current.Some? ==> w.current.value in r.aborted
    ensures r.aborted <= w.aborted + (if w.current.Some? then {w.current.value} else {})
    ensures w.aborted <= r.aborted
    ensures r.items == w.items && r.error == w.error && r.open == w.open && r.value == w.value
  {
    var aborted := if w.current.Some? then w.aborted + {w.current.value} else w.aborted;
    w.(loading := true, timer := None, aborted := aborted, current := Some(w.next),
       inFlight := w.inFlight + {w.next}, next := w.next + 1)
  }

  /**
   * Lookup `id` settles. An aborted one rejects with an AbortError: only `finally` runs.
   * Otherwise data shows the Spanish candidates in response order and opens the list;
   * a failure shows the message and empties the list.
   */
  function Settled(w: Widget, id: nat, outcome: Outcome): (r: Widget)
    requires id in w.inFlight
    ensures r.inFlight == w.inFlight - {id} && !r.loading
    ensures id in w.aborted ==> r.items == w.items && r.error == w.error && r.open == w.open
    ensures id !in w.aborted && outcome.Data? ==>
      r.items == Filter(IsSpain, outcome.places) && r.open && r.error == w.error
    ensures id !in w.aborted && outcome.Failed? ==> r.items == [] && r.error == Some(SearchFailed)
    ensures r.value == w.value && r.timer == w.timer && r.current == w.current && r.aborted == w.aborted
  {
    var done := w.(inFlight := w.inFlight - {id}, loading := false);
    if id in w.aborted then done
    else match outcome
      case Data(places) => done.(items := Filter(IsSpain, places), open := true)
      case Failed => done.(error := Some(SearchFailed), items := [])
  }

  /**
   * Every lookup number in use was issued, and every lookup still in flight
   * other than the current one has been aborted.
   */
  predicate Consistent(w: Widget) {
    && (forall id :: id in w.inFlight ==> id < w.next)
    && (w.current.Some? ==> w.current.value < w.next)
    && (forall id :: id in w.inFlight ==> id in w.aborted || w.current == Some(id))
  }

  lemma MountedConsistent(value: string)
    ensures Consistent(Mounted(value))
  {
  }

  lemma EditedKeepsConsistent(w: Widget, v: string)
    requires Consistent(w)
    ensures Consistent(Edited(w, v))
  {
  }

  lemma TimerFiredKeepsConsistent(w: Widget)
    requires Consistent(w) && w.timer.Some?
    ensures Consistent(TimerFired(w))
  {
  }

  lemma SettledKeepsConsistent(w: Widget, id: nat, outcome: Outcome)
    requires Consistent(w) && id in w.inFlight
    ensures Consistent(Settled(w, id, outcome))
  {
  }

  /** Last request wins: a lookup that is no longer the current one changes neither list nor error. */
  lemma OnlyCurrentLookupShows(w: Widget, id: nat, outcome: Outcome)
    requires Consistent(w) && id in w.inFlight && w.current != Some(id)
    ensures Settled(w, id, outcome).items == w.items
    ensures Settled(w, id, outcome).error == w.error
  {
  }

  /** A response shown on screen only ever lists candidates that pass `isSpain`, in response order. */
  lemma ShownItemsAreSpanish(w: Widget, id: nat, places: seq<Place>)
    requires id in w.inFlight && id !in w.aborted
    ensures forall x :: x in Settled(w, id, Data(places)).items ==> IsSpain(x) && x in places
    ensures IsSubsequence(Settled(w, id, Data(places)).items, places)
  {
    FilterIsSubsequence(IsSpain, places);
  }

  // ---- a short query never aborts ----

  /**
   * As written, shortening the text below three characters clears the list but does not
   * abort the lookup in flight; when that lookup answers with a Spanish candidate, the
   * candidate is listed under the short query.
   */
  lemma StaleListForShortQuery(long: string, short: string, p: Place)
    requires |Trim(long)| >= MinQueryLength && |Trim(short)| < MinQueryLength && IsSpain(p)
    ensures Mounted(long).timer.Some? && 0 in Edited(TimerFired(Mounted(long)), short).inFlight
    ensures var w := Settled(Edited(TimerFired(Mounted(long)), short), 0, Data([p]));
            |Trim(w.value)| < MinQueryLength && ShowsList(w) && w.items == [p]
  {
    MountedLong(long);
    assert Filter(IsSpain, [p]) == [p];
  }

  lemma MountedLong(value: string)
    requires |Trim(value)| >= MinQueryLength
    ensures Mounted(value).timer.Some?
    ensures var w := TimerFired(Mounted(value)); w.inFlight == {0} && w.aborted == {}
  {
    var w0 := Mounted(value);
    assert w0.timer.Some? && w0.inFlight == {} && w0.aborted == {} && w0.current == None && w0.next == 0;
  }

  /** A candidate without an address object, recognised as Spanish by its display name. */
  const MayorStreet := Place(Str("1"), "Calle Mayor, Alcorcón, España", Str("40.3"), Str("-3.8"), None, None)

  /** The stale list occurs: "Calle" is looked up, the text becomes "Ca", then the answer arrives. */
  lemma StaleListExample()
    ensures |Trim("Calle")| >= MinQueryLength && |Trim("Ca")| < MinQueryLength && IsSpain(MayorStreet)
  {
    TrimUnpadded("Calle");
    TrimUnpadded("Ca");
    MayorStreetIsSpanish();
  }

  lemma MayorStreetIsSpanish()
    ensures IsSpain(MayorStreet)
  {
    assert EspanaAt(MayorStreet.displayName, 23);
  }

  /** `onChange` when the effect also aborts the lookup in flight for a query too short to search. */
  function EditedAborting(w: Widget, v: string): (r: Widget)
    ensures r.value == v && r.open
    ensures Trim(v) != Trim(w.value) && |Trim(v)| < MinQueryLength ==>
      r.items == [] && r.timer.None? && (w.current.Some? ==> w.current.value in r.aborted)
  {
    var typed := w.(value := v, open := true);
    if Trim(v) == Trim(w.value) then typed
    else if |Trim(v)| < MinQueryLength && w.current.Some? then
      Effect(typed.(aborted := w.aborted + {w.current.value}), Trim(v))
    else Effect(typed, Trim(v))
  }

  /** The intended state: consistent, and with a query too short to search nothing is listed or pending. */
  predicate Quiet(w: Widget) {
    && Consistent(w)
    && (|Trim(w.value)| < MinQueryLength ==>
          w.items == [] && w.timer.None? && forall id :: id in w.inFlight ==> id in w.aborted)
  }

  lemma MountedQuiet(value: string)
    ensures Quiet(Mounted(value))
  {
  }

  lemma {:induction false} EditedAbortingKeepsQuiet(w: Widget, v: string)
    requires Quiet(w)
    ensures Quiet(EditedAborting(w, v))
  {
    var r := EditedAborting(w, v);
    if Trim(v) != Trim(w.value) && |Trim(v)| < MinQueryLength {
      forall id | id in r.inFlight ensures id in r.aborted {
        assert id in w.inFlight;
        assert id in w.aborted || w.current == Some(id);
      }
    }
  }

  lemma TimerFiredKeepsQuiet(w: Widget)
    requires Quiet(w) && w.timer.Some?
    ensures Quiet(TimerFired(w))
  {
  }

  lemma SettledKeepsQuiet(w: Widget, id: nat, outcome: Outcome)
    requires Quiet(w) && id in w.inFlight
    ensures Quiet(Settled(w, id, outcome))
  {
  }

  /** With the aborting edit, a short query never shows a list, whatever lookup settles. */
  lemma ShortQueryShowsNothing(w: Widget, id: nat, outcome: Outcome)
    requires Quiet(w) && id in w.inFlight && |Trim(w.value)| < MinQueryLength
    ensures !ShowsList(Settled(w, id, outcome))
  {
  }

  // ---- the component ----

  class Autocomplete {
    const props: Props
    var value: string
    var open: bool
    var loading: bool
    var items: seq<Place>
    var error: Option<string>
    var timer: Option<string>
    var current: Option<nat>
    var inFlight: set<nat>
    var aborted: set<nat>
    var next: nat

    function Snapshot(): Widget
      reads this
    {
      Widget(value, open, loading, items, error, timer, current, inFlight, aborted, next)
    }

    /** First render with `value`, then the mount run of the lookup effect. */
    constructor (props: Props, value: string)
      ensures this.props == props && Snapshot() == Mounted(value)
    {
      this.props := props;
      this.value := value;
      open, loading, items := false, false, [];
      error := None;
      current, inFlight, aborted, next := None, {}, {}, 0;
      var q := Trim(value);
      if |q| < MinQueryLength {
        timer := None;
      } else {
        timer := Some(q);
      }
    }

    /** The lookup effect for the trimmed query `q` (its cleanup clears a pending timer first). */
    method RunEffect(q: string)
      modifies this
      ensures Snapshot() == Effect(old(Snapshot()), q)
    {
      timer := None;
      error := None;
      if |q| < MinQueryLength {
        items := [];
        loading := false;
        return;
      }
      timer := Some(q);
    }

    /** The user types `v`. */
    method Edit(v: string)
      modifies this
      ensures Snapshot() == Edited(old(Snapshot()), v)
    {
      var before := Trim(value);
      value := v;
      open := true;
      if Trim(v) != before {
        RunEffect(Trim(v));
      }
    }

    /** The user types `v`, with the in-flight lookup aborted when the query becomes too short. */
    method EditAborting(v: string)
      modifies this
      ensures Snapshot() == EditedAborting(old(Snapshot()), v)
    {
      var before := Trim(value);
      value := v;
      open := true;
      if Trim(v) != before {
        if |Trim(v)| < MinQueryLength && current.Some? {
          aborted := aborted + {current.value};
        }
        RunEffect(Trim(v));
      }
    }

    /** The debounce timer fires; returns the lookup number and the parameters it is sent with. */
    method FireTimer() returns (id: nat, params: map<string, string>)
      requires timer.Some?
      modifies this
      ensures Snapshot() == TimerFired(old(Snapshot()))
      ensures id == old(next) && params == RequestParams(props, old(timer).value)
    {
      var q := timer.value;
      timer := None;
      loading := true;
      if current.Some? {
        aborted := aborted + {current.value};
      }
      id := next;
      current := Some(id);
      inFlight := inFlight + {id};
      next := next + 1;
      params := map[];
      params := params["format" := "jsonv2"];
      params := params["addressdetails" := "1"];
      params := params["limit" := "6"];
      params := params["dedupe" := "1"];
      params := params["countrycodes" := props.countryCode];
      params := params["accept-language" := "es"];
      params := params["q" := q];
      if Truthy(props.viewbox) {
        params := params["viewbox" := props.viewbox.value];
      }
      if Truthy(props.viewbox) && props.bounded {
        params := params["bounded" := "1"];
      }
    }

    /** Lookup `id` settles with `outcome` (ignored when it was aborted). */
    method Settle(id: nat, outcome: Outcome)
      requires id in inFlight
      modifies this
      ensures Snapshot() == Settled(old(Snapshot()), id, outcome)
    {
      inFlight := inFlight - {id};
      if id !in aborted {
        match outcome {
          case Data(places) =>
            items := Filter(IsSpain, places);
            open := true;
          case Failed =>
            error := Some(SearchFailed);
            items := [];
        }
      }
      loading := false;
    }
  }
}
