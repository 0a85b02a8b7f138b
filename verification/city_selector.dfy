/**
 * The city typeahead of the intake form: normalisation of the typed query,
 * the filter/default/cap transform of the records the city-search service
 * returns, the option label, and the component state (`cities`, `isLoading`,
 * `error`) that the debounced search updates.
 *
 * The network is an input: a search ends with a `Response` value handed to
 * `CitySearch.Settle`. Request cancellation is modelled by which response may
 * still change the state (`live`, `requestId`); the debounce delay itself is
 * not, only the order of keystrokes and timer expiry (`timerArmed`).
 */
module CitySelector {
  import opened Wrappers
  import opened JsText

  // ---------------------------------------------------------------------------
  // Query normalisation: trim, toLowerCase, strip, first token

  /** What `.replace(/[^\w\s-]/g, '')` keeps: word characters, whitespace and hyphens. */
  predicate Kept(c: char) {
    IsWordChar(c) || IsSpace(c) || c == '-'
  }

  /** The characters a normalised query is made of. */
  predicate IsQueryChar(c: char) {
    'a' <= c <= 'z' || '0' <= c <= '9' || c == '_' || c == '-'
  }

  predicate NoCapitals(s: string) {
    forall i :: 0 <= i < |s| ==> !('A' <= s[i] <= 'Z')
  }

  /** `.replace(/[^\w\s-]/g, '')`: removes every character that is not kept, keeping the order of the rest. */
  function Strip(s: string): (r: string)
    ensures |r| <= |s|
    ensures forall i :: 0 <= i < |r| ==> Kept(r[i])
    ensures NoCapitals(s) ==> NoCapitals(r)
  {
    if s == [] then [] else (if Kept(s[0]) then [s[0]] else []) + Strip(s[1..])
  }

  /** A single character survives stripping exactly when it is kept. */
  lemma StripChar(c: char)
    ensures Strip([c]) == (if Kept(c) then [c] else [])
  {
    assert [c][1..] == [];
  }

  /** Stripping works character by character: it distributes over concatenation. */
  lemma {:induction false} StripAppend(a: string, b: string)
    ensures Strip(a + b) == Strip(a) + Strip(b)
  {
    if a == [] {
      assert a + b == b;
    } else {
      assert (a + b)[0] == a[0] && (a + b)[1..] == a[1..] + b;
      StripAppend(a[1..], b);
    }
  }

  /** A removed character between two kept ones disappears, as in `a!b` becoming `ab`. */
  lemma StripDropsBetween(x: char, symbol: char, y: char)
    requires Kept(x) && !Kept(symbol) && Kept(y)
    ensures Strip([x, symbol, y]) == [x, y]
  {
    assert [x, symbol, y] == [x] + ([symbol] + [y]);
    StripAppend([x], [symbol] + [y]);
    StripAppend([symbol], [y]);
    StripChar(x);
    StripChar(symbol);
    StripChar(y);
  }

  lemma {:induction false} StripKeepsKept(s: string)
    requires forall i :: 0 <= i < |s| ==> Kept(s[i])
    ensures Strip(s) == s
  {
    if s != [] {
      StripKeepsKept(s[1..]);
    }
  }

  /** Number of characters before the first whitespace. */
  function WordLength(s: string): (n: nat)
    ensures n <= |s|
    ensures forall i :: 0 <= i < n ==> !IsSpace(s[i])
    ensures n < |s| ==> IsSpace(s[n])
  {
    if s != [] && !IsSpace(s[0]) then 1 + WordLength(s[1..]) else 0
  }

  /** `.split(/\s+/)[0]`: the longest prefix without whitespace (empty when `s` starts with whitespace). */
  function FirstToken(s: string): (r: string)
    ensures NoSpace(r)
    ensures |r| <= |s| && r == s[..|r|]
    ensures |r| < |s| ==> IsSpace(s[|r|])
  {
    s[..WordLength(s)]
  }

  /** `toLowerCase` never leaves an ASCII capital behind. */
  lemma {:induction false} LowerHasNoCapitals(s: string)
    ensures NoCapitals(Lower(s))
  {
    if s != [] {
      LowerHasNoCapitals(s[1..]);
      var h := LowerChar(s[0]);
      assert NoCapitals(h);
      assert Lower(s) == h + Lower(s[1..]);
    }
  }

  /** The query `fetchCities` sends: trimmed, lower-cased, stripped of special characters, first word only. */
  function Normalize(query: string): (r: string)
    ensures forall i :: 0 <= i < |r| ==> IsQueryChar(r[i])
  {
    var lowered := Lower(Trim(query));
    LowerHasNoCapitals(Trim(query));
    FirstToken(Strip(lowered))
  }

  /** A string made of query characters is its own normal form. */
  lemma NormalizeKeepsQuery(q: string)
    requires forall i :: 0 <= i < |q| ==> IsQueryChar(q[i])
    ensures Normalize(q) == q
  {
    forall i | 0 <= i < |q|
      ensures !IsSpace(q[i]) && Kept(q[i]) && IsLowerStable(q[i])
    {
      QueryCharIsPlain(q[i]);
    }
    TrimNoEdgeSpace(q);
    LowerStable(q);
    StripKeepsKept(q);
    assert WordLength(q) == |q|;
  }

  lemma QueryCharIsPlain(c: char)
    requires IsQueryChar(c)
    ensures !IsSpace(c) && Kept(c) && IsLowerStable(c)
  {
  }

  /** Normalising a normalised query changes nothing. */
  lemma NormalizeIdempotent(query: string)
    ensures Normalize(Normalize(query)) == Normalize(query)
  {
    NormalizeKeepsQuery(Normalize(query));
  }

  /**
   * Stripping can leave a space in front: a query that starts with a removed
   * symbol followed by whitespace has an empty first token, so no request is made.
   */
  lemma NormalizeSymbolThenSpace(c: char, sp: char, rest: string)
    requires !Kept(c) && IsLowerStable(c) && IsSpace(sp)
    ensures Normalize([c, sp] + rest) == ""
  {
    var s := [c, sp] + rest;
    assert s[0] == c && s[1] == sp;
    var t := Trim(s);
    assert LeadingSpaces(s) == 0;
    assert t != [] && t == s[..|t|];
    var u := t[1..];
    assert t == [c] + u;
    LowerAppend([c], u);
    assert Lower([c]) == [c];
    StripAppend([c], Lower(u));
    StripChar(c);
    assert Strip(Lower(t)) == Strip(Lower(u));
    if u != [] {
      assert u[0] == sp;
      SpaceFirstWord(u);
    }
  }

  /** After a leading whitespace character, lower-casing and stripping still start with it. */
  lemma SpaceFirstWord(u: string)
    requires u != [] && IsSpace(u[0])
    ensures WordLength(Strip(Lower(u))) == 0
  {
    assert u == [u[0]] + u[1..];
    LowerAppend([u[0]], u[1..]);
    assert Lower([u[0]]) == [u[0]];
    StripAppend([u[0]], Lower(u[1..]));
    StripChar(u[0]);
    assert Strip(Lower(u))[0] == u[0];
  }

  lemma NormalizeLeadingSymbol()
    ensures Normalize("! paris") == ""
  {
    assert "! paris" == ['!', ' '] + "paris";
    NormalizeSymbolThenSpace('!', ' ', "paris");
  }

  // ---------------------------------------------------------------------------
  // Records from the city-search service

  /** A JSON field value as `typeof` and truthiness see it; `Composite` is an object or array. */
  datatype Value = Missing | Null | Bool(b: bool) | Number(n: real) | Text(s: string) | Composite

  /** JavaScript truthiness (`Boolean(v)`); JSON numbers are never NaN. */
  predicate Truthy(v: Value) {
    match v
    case Missing => false
    case Null => false
    case Bool(b) => b
    case Number(n) => n != 0.0
    case Text(s) => s != ""
    case Composite => true
  }

  /** One object of the response array; `name` and `country` are the string fields, absent when missing. */
  datatype RawCity = RawCity(
    name: Option<string>,
    country: Option<string>,
    population: Value,
    latitude: Value,
    longitude: Value,
    isCapital: Value)

  /** An element of the response array: an object, or anything else (null, a number, a string, ...). */
  datatype Entry = Record(fields: RawCity) | NotRecord

  /** `CityData`, as the component keeps it. */
  datatype City = City(
    name: string,
    country: string,
    population: real,
    latitude: real,
    longitude: real,
    isCapital: bool)

  const DefaultPopulation: real := 1000000.0
  const DefaultCoordinate: real := 0.0
  const MaxResults: nat := 10

  predicate Named(c: City) {
    c.name != "" && c.country != ""
  }

  /** The `.filter` test: an object whose `name` and `country` are truthy. */
  predicate Accepts(e: Entry) {
    && e.Record?
    && e.fields.name.Some? && e.fields.name.value != ""
    && e.fields.country.Some? && e.fields.country.value != ""
  }

  /** `typeof v === 'number' ? v : default`. */
  function NumberOr(v: Value, default: real): (r: real)
    ensures v.Number? ==> r == v.n
    ensures !v.Number? ==> r == default
  {
    if v.Number? then v.n else default
  }

  /** The `.map` step: copies the strings, defaults the numbers, coerces the capital flag. */
  function ToCity(raw: RawCity): (c: City)
    requires raw.name.Some? && raw.country.Some?
    ensures c.name == raw.name.value && c.country == raw.country.value
    ensures raw.population.Number? ==> c.population == raw.population.n
    ensures !raw.population.Number? ==> c.population == DefaultPopulation
    ensures raw.latitude.Number? ==> c.latitude == raw.latitude.n
    ensures !raw.latitude.Number? ==> c.latitude == DefaultCoordinate
    ensures raw.longitude.Number? ==> c.longitude == raw.longitude.n
    ensures !raw.longitude.Number? ==> c.longitude == DefaultCoordinate
    ensures c.isCapital <==> Truthy(raw.isCapital)
  {
    City(
      raw.name.value,
      raw.country.value,
      NumberOr(raw.population, DefaultPopulation),
      NumberOr(raw.latitude, DefaultCoordinate),
      NumberOr(raw.longitude, DefaultCoordinate),
      Truthy(raw.isCapital))
  }

  /** `.filter(...).map(...)`: the accepted entries, converted, in upstream order. */
  function Accepted(data: seq<Entry>): (r: seq<City>)
    ensures |r| <= |data|
    ensures forall i :: 0 <= i < |r| ==> Named(r[i])
  {
    if data == [] then []
    else (if Accepts(data[0]) then [ToCity(data[0].fields)] else []) + Accepted(data[1..])
  }

  /** Each listed position holds an accepted entry, whose conversion is the corresponding city. */
  ghost predicate PositionsSound(data: seq<Entry>, idx: seq<nat>) {
    && |idx| == |Accepted(data)|
    && forall k :: 0 <= k < |idx| ==>
         && idx[k] < |data| && Accepts(data[idx[k]])
         && Accepted(data)[k] == ToCity(data[idx[k]].fields)
  }

  /** The positions increase: the cities keep the upstream order. */
  ghost predicate PositionsOrdered(idx: seq<nat>) {
    forall k, l :: 0 <= k < l < |idx| ==> idx[k] < idx[l]
  }

  /** Every accepted entry's position is listed. */
  ghost predicate PositionsComplete(data: seq<Entry>, idx: seq<nat>) {
    forall i :: 0 <= i < |data| && Accepts(data[i]) ==> i in idx
  }

  /**
   * `idx` lists the positions of the accepted entries of `data`, in order,
   * and `Accepted(data)[k]` is the conversion of the entry at the k-th.
   */
  ghost predicate ArePositions(data: seq<Entry>, idx: seq<nat>) {
    PositionsSound(data, idx) && PositionsOrdered(idx) && PositionsComplete(data, idx)
  }

  /** Where in the response each accepted city came from. */
  function AcceptedPositions(data: seq<Entry>): (idx: seq<nat>)
    ensures ArePositions(data, idx)
  {
    if data == [] then []
    else
      var rest := AcceptedPositions(data[1..]);
      var idx := if Accepts(data[0]) then [0] + Shift(rest) else Shift(rest);
      StepSound(data, rest, idx);
      StepOrdered(data, rest, idx);
      StepComplete(data, rest, idx);
      idx
  }

  /** Every position plus one. */
  function Shift(s: seq<nat>): (r: seq<nat>)
    ensures |r| == |s|
    ensures forall k :: 0 <= k < |s| ==> r[k] == s[k] + 1
  {
    if s == [] then [] else [s[0] + 1] + Shift(s[1..])
  }

  lemma StepSound(data: seq<Entry>, rest: seq<nat>, idx: seq<nat>)
    requires data != [] && PositionsSound(data[1..], rest)
    requires idx == if Accepts(data[0]) then [0] + Shift(rest) else Shift(rest)
    ensures PositionsSound(data, idx)
  {
    var tail := data[1..];
    var head: seq<City> := if Accepts(data[0]) then [ToCity(data[0].fields)] else [];
    var d := |head|;
    var later := Accepted(tail);
    var all := Accepted(data);
    assert all == head + later;
    assert |idx| == d + |rest| && |all| == d + |later|;
    forall k | 0 <= k < |idx|
      ensures idx[k] < |data| && Accepts(data[idx[k]]) && all[k] == ToCity(data[idx[k]].fields)
    {
      if k < d {
        assert idx[k] == 0 && all[k] == head[0];
      } else {
        var j := rest[k - d];
        assert j < |tail| && Accepts(tail[j]) && later[k - d] == ToCity(tail[j].fields);
        assert idx[k] == Shift(rest)[k - d] == j + 1;
        assert tail[j] == data[j + 1];
        assert all[k] == later[k - d];
      }
    }
  }

  lemma StepOrdered(data: seq<Entry>, rest: seq<nat>, idx: seq<nat>)
    requires data != [] && PositionsOrdered(rest)
    requires idx == if Accepts(data[0]) then [0] + Shift(rest) else Shift(rest)
    ensures PositionsOrdered(idx)
  {
  }

  lemma StepComplete(data: seq<Entry>, rest: seq<nat>, idx: seq<nat>)
    requires data != [] && PositionsComplete(data[1..], rest)
    requires idx == if Accepts(data[0]) then [0] + Shift(rest) else Shift(rest)
    ensures PositionsComplete(data, idx)
  {
    var tail := data[1..];
    var d := if Accepts(data[0]) then 1 else 0;
    forall i | 0 <= i < |data| && Accepts(data[i])
      ensures i in idx
    {
      if i > 0 {
        assert tail[i - 1] == data[i];
        assert i - 1 in rest;
        var k :| 0 <= k < |rest| && rest[k] == i - 1;
        assert idx[k + d] == i;
      }
    }
  }

  /** Filtering and mapping commute with concatenation: the upstream order is kept. */
  lemma {:induction false} AcceptedAppend(a: seq<Entry>, b: seq<Entry>)
    ensures Accepted(a + b) == Accepted(a) + Accepted(b)
  {
    if a == [] {
      assert a + b == b;
    } else {
      assert (a + b)[0] == a[0] && (a + b)[1..] == a[1..] + b;
      AcceptedAppend(a[1..], b);
    }
  }

  function Min(a: nat, b: nat): nat {
    if a <= b then a else b
  }

  /** The whole transform: accepted entries, converted, the first `MaxResults` of them (`.slice(0, 10)`). */
  function Transform(data: seq<Entry>): (r: seq<City>)
    ensures |r| == Min(MaxResults, |Accepted(data)|)
    ensures r == Accepted(data)[..|r|]
    ensures forall i :: 0 <= i < |r| ==> Named(r[i])
  {
    var all := Accepted(data);
    all[..Min(MaxResults, |all|)]
  }

  /** Once ten entries have been accepted, nothing after them reaches the list. */
  lemma TransformIgnoresTail(a: seq<Entry>, b: seq<Entry>)
    requires |Accepted(a)| >= MaxResults
    ensures Transform(a + b) == Transform(a)
  {
    AcceptedAppend(a, b);
  }

  // ---------------------------------------------------------------------------
  // Option label

  const CapitalMark := " (Capital)"

  /** The option's value and text: `name, country`, then ` (Capital)` for a capital. */
  function Label(c: City): (r: string)
    ensures |r| >= |c.name| + 2 && r[..|c.name|] == c.name && r[|c.name|..|c.name| + 2] == ", "
    ensures |r| >= |c.name| + 2 + |c.country| && r[|c.name| + 2..|c.name| + 2 + |c.country|] == c.country
    ensures r[|c.name| + 2 + |c.country|..] == (if c.isCapital then CapitalMark else "")
  {
    c.name + ", " + c.country + (if c.isCapital then CapitalMark else "")
  }

  /** The check mark is shown on an option when the form's current value is its label. */
  predicate IsChecked(value: string, c: City) {
    value == Label(c)
  }

  /** For names without commas, at most one name can be checked for a given value. */
  lemma CheckedNamesAgree(value: string, c: City, d: City)
    requires ',' !in c.name && ',' !in d.name
    requires IsChecked(value, c) && IsChecked(value, d)
    ensures c.name == d.name
  {
    LabelName(c);
    LabelName(d);
  }

  predicate EndsWith(s: string, suffix: string) {
    |suffix| <= |s| && s[|s| - |suffix|..] == suffix
  }

  /** The text before the first occurrence of `sep` (all of `s` when there is none). */
  function TextBefore(s: string, sep: char): (r: string)
    ensures |r| <= |s| && r == s[..|r|]
    ensures sep !in r
    ensures |r| < |s| ==> s[|r|] == sep
  {
    if s == [] || s[0] == sep then [] else [s[0]] + TextBefore(s[1..], sep)
  }

  /** A name without commas can be read back from the label. */
  lemma LabelName(c: City)
    requires ',' !in c.name
    ensures TextBefore(Label(c), ',') == c.name
  {
    var l := Label(c);
    assert l[|c.name|] == ',';
  }

  /**
   * Unless the country itself ends in `(Capital)`, the label ends in
   * ` (Capital)` exactly when the city is a capital.
   */
  lemma LabelMarksCapital(c: City)
    requires !EndsWith(c.country, "(Capital)")
    ensures EndsWith(Label(c), CapitalMark) <==> c.isCapital
  {
    PlainLabelSuffix(c.name, c.country);
  }

  /** Without the mark, ` (Capital)` can end the label only if `(Capital)` ends the country. */
  lemma PlainLabelSuffix(name: string, country: string)
    ensures EndsWith(name + ", " + country, CapitalMark) ==> EndsWith(country, "(Capital)")
  {
    var l := name + ", " + country;
    var n := |l|;
    var comma := n - |country| - 2;
    assert EndsWith(l, CapitalMark) && comma >= n - 10 ==> l[comma] == CapitalMark[comma - (n - 10)];
    assert |country| >= 9 ==> country[|country| - 9..] == l[n - 9..];
    assert EndsWith(l, CapitalMark) ==> l[n - 9..] == CapitalMark[1..];
    assert l[comma] == ',';
    assert forall j :: 0 <= j < |CapitalMark| ==> CapitalMark[j] != ',';
  }

  // ---------------------------------------------------------------------------
  // The search state

  /** A request `fetchCities` sends: its sequence number and the normalised query. */
  datatype Request = Request(id: nat, query: string)

  /** What the parsed body of a successful response is. */
  datatype Body = NotArray | Entries(data: seq<Entry>)

  /** How a request ended, as the component sees it. */
  datatype Response =
    | Rejected(message: Option<string>)   // fetch or response.json() threw; None when the thrown value is not an Error
    | Answered(status: nat, body: Body)

  /** What a settled request shows: a list, or an error message. */
  datatype Search = Found(cities: seq<City>) | Failed(message: string)

  const InvalidFormat := "Invalid API response format"
  const FetchFailed := "Failed to fetch cities"

  predicate IsOk(status: nat) {
    200 <= status <= 299
  }

  /** The `try` block and its `catch`: what a response that is not cancelled leaves on screen. */
  function Interpret(response: Response): (s: Search)
    ensures s.Found? <==> response.Answered? && IsOk(response.status) && response.body.Entries?
    ensures s.Found? ==> s.cities == Transform(response.body.data)
    ensures response.Answered? && !IsOk(response.status) ==> s == Failed("API Error: " + NatToString(response.status))
    ensures response.Answered? && IsOk(response.status) && response.body.NotArray? ==> s == Failed(InvalidFormat)
    ensures response.Rejected? ==> s == Failed(response.message.GetOr(FetchFailed))
  {
    match response
    case Rejected(m) => Failed(m.GetOr(FetchFailed))
    case Answered(status, body) =>
      if !IsOk(status) then Failed("API Error: " + NatToString(status))
      else if body.NotArray? then Failed(InvalidFormat)
      else Found(Transform(body.data))
  }

  class CitySearch {
    var inputValue: string
    var cities: seq<City>
    var isLoading: bool
    var error: Option<string>
    /** A debounce timer is pending: armed by the input effect, disarmed when it fires or is cleaned up. */
    var timerArmed: bool
    /** The latest request is in flight and its controller has not been aborted. */
    var live: bool
    /** The sequence number of the latest request sent. */
    var requestId: nat

    /** What every handler keeps, the handler of the empty input as written included. */
    ghost predicate Consistent()
      reads this
    {
      && |cities| <= MaxResults
      && (forall i :: 0 <= i < |cities| ==> Named(cities[i]))
      && (live ==> isLoading && error == None && !timerArmed)
    }

    /** In addition: the spinner is shown only while a request or a timer is pending. */
    ghost predicate Valid()
      reads this
    {
      Consistent() && (isLoading ==> live || timerArmed)
    }

    /** Mounting: empty state, and the input effect arms its first timer. */
    constructor ()
      ensures Valid()
      ensures inputValue == "" && cities == [] && !isLoading && error == None
      ensures timerArmed && !live && requestId == 0
    {
      inputValue := "";
      cities := [];
      isLoading := false;
      error := None;
      timerArmed := true;
      live := false;
      requestId := 0;
    }

    /**
     * A keystroke. When the text changes, the effect's cleanup clears the
     * pending timer and aborts the latest request, and the effect arms a new
     * timer.
     */
    method ChangeInput(v: string)
      requires Consistent()
      modifies this
      ensures Consistent() && (old(Valid()) ==> Valid())
      ensures inputValue == v && cities == old(cities) && isLoading == old(isLoading)
      ensures error == old(error) && requestId == old(requestId)
      ensures v != old(inputValue) ==> timerArmed && !live
      ensures v == old(inputValue) ==> timerArmed == old(timerArmed) && live == old(live)
    {
      if v != inputValue {
        inputValue := v;
        live := false;
        timerArmed := true;
      }
    }

    /**
     * `fetchCities`, up to the request: aborts the latest request, clears the
     * list for a query under two UTF-16 units or one that normalises to
     * nothing, and otherwise shows the spinner and sends the normalised query.
     */
    method FetchCities(query: string) returns (sent: Option<Request>)
      requires Consistent() && !timerArmed
      modifies this
      ensures Valid() && !timerArmed && inputValue == old(inputValue)
      ensures isLoading <==> live
      ensures JsLength(query) < 2 ==> sent == None && cities == [] && error == None && !isLoading
      ensures JsLength(query) >= 2 && Normalize(query) == "" ==> sent == None && cities == [] && error == None && !isLoading
      ensures sent.None? ==> requestId == old(requestId)
      ensures JsLength(query) >= 2 && Normalize(query) != "" ==>
        && sent == Some(Request(old(requestId) + 1, Normalize(query)))
        && requestId == old(requestId) + 1
        && cities == old(cities) && error == None && isLoading
    {
      live := false;
      if JsLength(query) < 2 {
        cities := [];
        error := None;
        isLoading := false;
        return None;
      }
      isLoading := true;
      error := None;
      var formatted := Normalize(query);
      if formatted == "" {
        cities := [];
        isLoading := false;
        return None;
      }
      requestId := requestId + 1;
      live := true;
      sent := Some(Request(requestId, formatted));
    }

    /**
     * The response to request `id` arrives. Only the latest request, if it
     * was not aborted, changes anything: it stores the list or the error and
     * hides the spinner. An aborted request changes nothing.
     */
    method Settle(id: nat, response: Response)
      requires Consistent()
      modifies this
      ensures Consistent() && (old(Valid()) ==> Valid())
      ensures !(old(live) && id == old(requestId)) ==> unchanged(this)
      ensures old(live) && id == old(requestId) ==>
        && !live && !isLoading
        && inputValue == old(inputValue) && timerArmed == old(timerArmed) && requestId == old(requestId)
        && match Interpret(response)
           case Found(cs) => cities == cs && error == None
           case Failed(m) => cities == [] && error == Some(m)
    {
      if live && id == requestId {
        match Interpret(response) {
          case Found(cs) =>
            cities := cs;
            error := None;
          case Failed(m) =>
            error := Some(m);
            cities := [];
        }
        isLoading := false;
        live := false;
      }
    }

    /**
     * The debounce timer fires: a non-blank input is searched for, trimmed;
     * a blank one clears the list and the error, and also hides the spinner
     * (see `DebounceElapsedAsWritten` for the code as it stands).
     */
    method DebounceElapsed() returns (sent: Option<Request>)
      requires Consistent() && timerArmed
      modifies this
      ensures Valid() && !timerArmed && inputValue == old(inputValue)
      ensures isLoading <==> live
      ensures Trim(old(inputValue)) == "" ==> sent == None && cities == [] && error == None && !isLoading
      ensures sent.Some? <==> Trim(old(inputValue)) != "" && JsLength(Trim(old(inputValue))) >= 2 && Normalize(Trim(old(inputValue))) != ""
      ensures sent.Some? ==>
        && sent.value == Request(old(requestId) + 1, Normalize(Trim(old(inputValue))))
        && requestId == old(requestId) + 1
        && cities == old(cities) && error == None && isLoading
      ensures sent.None? ==> cities == [] && error == None && !isLoading && requestId == old(requestId)
    {
      timerArmed := false;
      var trimmed := Trim(inputValue);
      if trimmed != "" {
        sent := FetchCities(trimmed);
      } else {
        cities := [];
        error := None;
        isLoading := false;
        live := false;
        sent := None;
      }
    }

    /**
     * The timer's handler as written: a blank input clears the list and the
     * error but leaves `isLoading` as it was.
     */
    method DebounceElapsedAsWritten() returns (sent: Option<Request>)
      requires Consistent() && timerArmed
      modifies this
      ensures Consistent() && !timerArmed && inputValue == old(inputValue)
      ensures Trim(old(inputValue)) == "" ==>
        sent == None && cities == [] && error == None && isLoading == old(isLoading) && live == old(live)
        && requestId == old(requestId)
      ensures Trim(old(inputValue)) != "" ==> Valid() && (isLoading <==> live)
      ensures sent.Some? <==> Trim(old(inputValue)) != "" && JsLength(Trim(old(inputValue))) >= 2 && Normalize(Trim(old(inputValue))) != ""
      ensures sent.Some? ==>
        && sent.value == Request(old(requestId) + 1, Normalize(Trim(old(inputValue))))
        && requestId == old(requestId) + 1
        && cities == old(cities) && error == None && isLoading
      ensures Trim(old(inputValue)) != "" && sent.None? ==> cities == [] && error == None && !isLoading && requestId == old(requestId)
    {
      timerArmed := false;
      var trimmed := Trim(inputValue);
      if trimmed != "" {
        sent := FetchCities(trimmed);
      } else {
        cities := [];
        error := None;
        sent := None;
      }
    }

    /** Choosing option `k`: hands the city to the form and empties the search box. */
    method SelectCity(k: nat) returns (chosen: City)
      requires Valid() && k < |cities| && !isLoading
      modifies this
      ensures Valid()
      ensures chosen == old(cities[k]) && Named(chosen)
      ensures inputValue == "" && cities == old(cities) && error == old(error) && !isLoading
      ensures old(inputValue) != "" ==> timerArmed && !live
      ensures old(inputValue) == "" ==> timerArmed == old(timerArmed) && live == old(live)
      ensures requestId == old(requestId)
    {
      chosen := cities[k];
      ChangeInput("");
    }
  }

  /**
   * Typing a city, waiting for the search to start, then clearing the box
   * before the answer arrives: the aborted request never hides the spinner,
   * and the blank-input handler as written does not either. No timer and no
   * request is left that could.
   */
  method StuckSpinner(city: string) returns (s: CitySearch)
    requires |city| >= 2 && forall i :: 0 <= i < |city| ==> IsQueryChar(city[i])
    ensures s.isLoading && !s.live && !s.timerArmed && s.inputValue == ""
    ensures !s.Valid()
  {
    s := new CitySearch();
    s.ChangeInput(city);
    QueryCharIsPlain(city[0]);
    QueryCharIsPlain(city[|city| - 1]);
    TrimNoEdgeSpace(city);
    NormalizeKeepsQuery(city);
    var sent := s.DebounceElapsedAsWritten();
    s.ChangeInput("");
    sent := s.DebounceElapsedAsWritten();
  }

  /**
   * The corrected handler: whatever was typed, clearing the box leaves no
   * spinner without a pending request once the timer has fired.
   */
  method NoStuckSpinner(typed: string) returns (s: CitySearch)
    requires typed != ""
    ensures !s.isLoading && !s.live && !s.timerArmed && s.Valid()
  {
    s := new CitySearch();
    s.ChangeInput(typed);
    var sent := s.DebounceElapsed();
    s.ChangeInput("");
    sent := s.DebounceElapsed();
  }
}
