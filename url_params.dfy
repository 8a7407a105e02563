/** The parameter record of main.js and its query-string form: `parseUrlParams`, the share link of
    `generateShareLink`, the generator page's `generateUrl` and `adjustMaxDimensions`. A query is
    the ordered list of name/value pairs of a `URLSearchParams`; its percent-encoding is left out. */
module UrlParams {
  import opened Wrappers
  import opened Numeric
  import opened JsText
  import opened Geometry

  type Query = seq<(string, string)>

  /** `URLSearchParams.get`: the value of the first pair with the name, if any. */
  function Get(q: Query, name: string): (v: Option<string>)
    ensures v.None? <==> forall i :: 0 <= i < |q| ==> q[i].0 != name
    ensures v.Some? ==> (name, v.value) in q
  {
    if q == [] then None
    else if q[0].0 == name then Some(q[0].1)
    else Get(q[1..], name)
  }

  /** Looking a name up after one appended pair: an earlier pair of that name wins. */
  lemma {:induction false} GetAppend(q: Query, name: string, value: string, key: string)
    ensures Get(q + [(name, value)], key) ==
      if Get(q, key).Some? then Get(q, key) else if name == key then Some(value) else None
  {
    if q != [] {
      assert (q + [(name, value)])[1..] == q[1..] + [(name, value)];
      GetAppend(q[1..], name, value, key);
    }
  }

  lemma GetAppendEvery(q: Query, name: string, value: string)
    ensures forall key :: (Get(q + [(name, value)], key) ==
      if Get(q, key).Some? then Get(q, key) else if name == key then Some(value) else None)
  {
    forall key {
      GetAppend(q, name, value, key);
    }
  }

  /** Drops every pair with the name. */
  function RemoveAll(q: Query, name: string): (r: Query)
    ensures forall i :: 0 <= i < |r| ==> r[i].0 != name
    ensures forall key :: key != name ==> Get(r, key) == Get(q, key)
  {
    if q == [] then []
    else if q[0].0 == name then RemoveAll(q[1..], name)
    else [q[0]] + RemoveAll(q[1..], name)
  }

  /** Gives the first pair with the name the new value and removes the later ones. */
  function ReplaceFirst(q: Query, name: string, value: string): (r: Query)
    ensures Get(r, name) == if Get(q, name).Some? then Some(value) else None
    ensures forall key :: key != name ==> Get(r, key) == Get(q, key)
  {
    if q == [] then []
    else if q[0].0 == name then [(name, value)] + RemoveAll(q[1..], name)
    else [q[0]] + ReplaceFirst(q[1..], name, value)
  }

  /** `URLSearchParams.set`: afterwards the name has the value and other names are untouched; a
      name not yet present is appended at the end. */
  function Set(q: Query, name: string, value: string): (r: Query)
    ensures Get(r, name) == Some(value)
    ensures forall key :: key != name ==> Get(r, key) == Get(q, key)
    ensures Get(q, name).None? ==> r == q + [(name, value)]
  {
    GetAppendEvery(q, name, value);
    if Get(q, name).None? then
      q + [(name, value)]
    else
      ReplaceFirst(q, name, value)
  }

  /** The parameter record; the three sizes hold what `parseInt` returned. */
  datatype Params = Params(
    ratio: string, orient: string, maxSize: int, format: string, maxW: int, maxH: int, desc: string)

  const DefaultRatio: string := "16:9"
  const DefaultOrient: string := "landscape"
  const DefaultMaxSize: int := 1000
  const DefaultFormat: string := "jpeg"
  const DefaultMaxW: int := 1920
  const DefaultMaxH: int := 1080

  const Defaults: Params :=
    Params(DefaultRatio, DefaultOrient, DefaultMaxSize, DefaultFormat, DefaultMaxW, DefaultMaxH, "")

  /** A text that JavaScript's `||` passes over: missing (`null`) or empty. */
  predicate BlankText(v: Option<string>) {
    v.None? || v.value == ""
  }

  /** A `parseInt` result that JavaScript's `||` passes over: NaN or 0. */
  predicate FalsyNumber(v: Option<int>) {
    v.None? || v.value == 0
  }

  /** `text || default` on a string that may be missing: an absent or empty value gives the default. */
  function TextOr(v: Option<string>, default: string): (r: string)
    ensures v.Some? && v.value != "" ==> r == v.value
    ensures BlankText(v) ==> r == default
  {
    if v.Some? && v.value != "" then v.value else default
  }

  /** `parseInt(...) || default`: NaN and 0 both give the default. */
  function NumberOr(v: Option<int>, default: int): (r: int)
    ensures v.Some? && v.value != 0 ==> r == v.value
    ensures FalsyNumber(v) ==> r == default
  {
    if v.Some? && v.value != 0 then v.value else default
  }

  /** The records `parseUrlParams` can produce: every text non-empty, every number non-zero. */
  predicate Reachable(p: Params) {
    && p.ratio != "" && p.orient != "" && p.format != ""
    && p.maxSize != 0 && p.maxW != 0 && p.maxH != 0
  }

  /** `parseUrlParams`: each field from the first pair of its name, unless that is missing, empty
      or (for the numbers) does not parse to a non-zero integer. */
  function ParseUrlParams(q: Query): (p: Params)
    ensures Reachable(p)
    ensures q == [] ==> p == Defaults
    ensures Get(q, "ratio").Some? && Get(q, "ratio").value != "" ==> p.ratio == Get(q, "ratio").value
    ensures Get(q, "orient").Some? && Get(q, "orient").value != "" ==> p.orient == Get(q, "orient").value
    ensures Get(q, "format").Some? && Get(q, "format").value != "" ==> p.format == Get(q, "format").value
    ensures Get(q, "desc").Some? ==> p.desc == Get(q, "desc").value
    ensures var n := ParseIntOpt(Get(q, "maxSize")); n.Some? && n.value != 0 ==> p.maxSize == n.value
    ensures var n := ParseIntOpt(Get(q, "maxW")); n.Some? && n.value != 0 ==> p.maxW == n.value
    ensures var n := ParseIntOpt(Get(q, "maxH")); n.Some? && n.value != 0 ==> p.maxH == n.value
  {
    Params(
      TextOr(Get(q, "ratio"), DefaultRatio),
      TextOr(Get(q, "orient"), DefaultOrient),
      NumberOr(ParseIntOpt(Get(q, "maxSize")), DefaultMaxSize),
      TextOr(Get(q, "format"), DefaultFormat),
      NumberOr(ParseIntOpt(Get(q, "maxW")), DefaultMaxW),
      NumberOr(ParseIntOpt(Get(q, "maxH")), DefaultMaxH),
      TextOr(Get(q, "desc"), ""))
  }

  /** The other half of `parseUrlParams`: a field whose text is missing or empty, or whose number
      `parseInt` reads as NaN or 0, takes its default. */
  lemma ParseUrlParamsDefaults(q: Query)
    ensures var p := ParseUrlParams(q);
      && (BlankText(Get(q, "ratio")) ==> p.ratio == DefaultRatio)
      && (BlankText(Get(q, "orient")) ==> p.orient == DefaultOrient)
      && (BlankText(Get(q, "format")) ==> p.format == DefaultFormat)
      && (Get(q, "desc").None? ==> p.desc == "")
      && (FalsyNumber(ParseIntOpt(Get(q, "maxSize"))) ==> p.maxSize == DefaultMaxSize)
      && (FalsyNumber(ParseIntOpt(Get(q, "maxW"))) ==> p.maxW == DefaultMaxW)
      && (FalsyNumber(ParseIntOpt(Get(q, "maxH"))) ==> p.maxH == DefaultMaxH)
  {
  }

  /** One conditional `set` of a fresh name on a list built from empty. */
  function SetIf(q: Query, emit: bool, name: string, value: string): Query {
    if emit then q + [(name, value)] else q
  }

  lemma GetSetIf(q: Query, emit: bool, name: string, value: string, key: string)
    ensures Get(SetIf(q, emit, name, value), key) ==
      if Get(q, key).Some? then Get(q, key) else if emit && name == key then Some(value) else None
  {
    if emit {
      GetAppend(q, name, value, key);
    }
  }

  /** One field of a generated link: whether the generator sets it, and the text it sets. */
  datatype Field = Field(emit: bool, text: string)

  /** The seven conditional `set`s both generators make on an empty list, in their order. */
  function SetFields(ratio: Field, orient: Field, maxSize: Field, format: Field, maxW: Field, maxH: Field, desc: Field): Query {
    var q1 := SetIf([], ratio.emit, "ratio", ratio.text);
    var q2 := SetIf(q1, orient.emit, "orient", orient.text);
    var q3 := SetIf(q2, maxSize.emit, "maxSize", maxSize.text);
    var q4 := SetIf(q3, format.emit, "format", format.text);
    var q5 := SetIf(q4, maxW.emit, "maxW", maxW.text);
    var q6 := SetIf(q5, maxH.emit, "maxH", maxH.text);
    SetIf(q6, desc.emit, "desc", desc.text)
  }

  /** The pairs of a share link: the fields that differ from the defaults, in a fixed order; the
      numbers are written back as decimal text. */
  function ShareLinkPairs(p: Params): Query {
    SharePairs(p, IntToString(p.maxSize), IntToString(p.maxW), IntToString(p.maxH))
  }

  /** The share link pairs with the number fields already turned into the given texts. */
  function SharePairs(p: Params, maxSizeText: string, maxWText: string, maxHText: string): Query {
    SetFields(Field(p.ratio != DefaultRatio, p.ratio), Field(p.orient != DefaultOrient, p.orient),
      Field(p.maxSize != DefaultMaxSize, maxSizeText), Field(p.format != DefaultFormat, p.format),
      Field(p.maxW != DefaultMaxW, maxWText), Field(p.maxH != DefaultMaxH, maxHText),
      Field(p.desc != "", p.desc))
  }

  /** A share link has no query exactly when the conditions are the defaults, and it has at most
      seven pairs. */
  lemma ShareLinkShape(p: Params)
    ensures ShareLinkPairs(p) == [] <==> p == Defaults
    ensures |ShareLinkPairs(p)| <= 7
  {
  }

  /** A URL: the page address without query, and the query pairs. It serialises to the bare
      address when the query is empty and to `address?query` otherwise. */
  datatype Link = Link(address: string, query: Query)

  /** Every pair of the list has one of the given names. */
  predicate NamesIn(q: Query, names: set<string>) {
    forall i :: 0 <= i < |q| ==> q[i].0 in names
  }

  /** `set` of a name the list cannot hold appends the pair. */
  lemma SetFresh(q: Query, names: set<string>, name: string, value: string)
    requires NamesIn(q, names) && name !in names
    ensures Set(q, name, value) == q + [(name, value)]
    ensures NamesIn(q + [(name, value)], names + {name})
  {
  }

  /** One `if (emit) urlParams.set(name, value)` of the generators, on a list that cannot hold
      the name yet: the pair is appended exactly when `emit` holds. */
  method SetWhen(search: Query, ghost names: set<string>, emit: bool, name: string, value: string)
    returns (r: Query)
    requires NamesIn(search, names) && name !in names
    ensures r == SetIf(search, emit, name, value)
    ensures NamesIn(r, names + {name})
  {
    r := search;
    if emit {
      SetFresh(search, names, name, value);
      r := Set(search, name, value);
    }
  }

  /** Each parameter name is absent from the set of the names the generators set before it. */
  lemma NamesFresh()
    ensures "orient" !in {} + {"ratio"}
    ensures "maxSize" !in {} + {"ratio"} + {"orient"}
    ensures "format" !in {} + {"ratio"} + {"orient"} + {"maxSize"}
    ensures "maxW" !in {} + {"ratio"} + {"orient"} + {"maxSize"} + {"format"}
    ensures "maxH" !in {} + {"ratio"} + {"orient"} + {"maxSize"} + {"format"} + {"maxW"}
    ensures "desc" !in {} + {"ratio"} + {"orient"} + {"maxSize"} + {"format"} + {"maxW"} + {"maxH"}
  {
    assert "maxW"[3] != "maxH"[3];
  }

  /** `generateShareLink` for the page at `address`: the query is cleared and then filled by one
      `set` per non-default field, the numbers converted to their decimal text. */
  method GenerateShareLink(p: Params, address: string) returns (link: Link)
    ensures link == Link(address, ShareLinkPairs(p))
  {
    var search := FillShareQuery(p, IntToString(p.maxSize), IntToString(p.maxW), IntToString(p.maxH));
    link := Link(address, search);
  }

  /** The `set` calls of `generateShareLink` on the cleared query, given the texts of the numbers. */
  method FillShareQuery(p: Params, maxSizeText: string, maxWText: string, maxHText: string)
    returns (search: Query)
    ensures search == SharePairs(p, maxSizeText, maxWText, maxHText)
  {
    NamesFresh();
    search := [];
    ghost var names: set<string> := {};
    search := SetWhen(search, names, p.ratio != DefaultRatio, "ratio", p.ratio);
    names := names + {"ratio"};
    search := SetWhen(search, names, p.orient != DefaultOrient, "orient", p.orient);
    names := names + {"orient"};
    search := SetWhen(search, names, p.maxSize != DefaultMaxSize, "maxSize", maxSizeText);
    names := names + {"maxSize"};
    search := SetWhen(search, names, p.format != DefaultFormat, "format", p.format);
    names := names + {"format"};
    search := SetWhen(search, names, p.maxW != DefaultMaxW, "maxW", maxWText);
    names := names + {"maxW"};
    search := SetWhen(search, names, p.maxH != DefaultMaxH, "maxH", maxHText);
    names := names + {"maxH"};
    search := SetWhen(search, names, p.desc != "", "desc", p.desc);
  }

  /** The seven parameter names are pairwise different. */
  lemma NamesDiffer()
    ensures "orient" != "ratio"
    ensures "maxSize" != "ratio"
    ensures "format" != "ratio"
    ensures "maxW" != "ratio"
    ensures "maxH" != "ratio"
    ensures "desc" != "ratio"
    ensures "maxSize" != "orient"
    ensures "format" != "orient"
    ensures "maxW" != "orient"
    ensures "maxH" != "orient"
    ensures "desc" != "orient"
    ensures "format" != "maxSize"
    ensures "maxW" != "maxSize"
    ensures "maxH" != "maxSize"
    ensures "desc" != "maxSize"
    ensures "maxW" != "format"
    ensures "maxH" != "format"
    ensures "desc" != "format"
    ensures "maxH" != "maxW"
    ensures "desc" != "maxW"
    ensures "desc" != "maxH"
  {
    assert "maxW"[3] != "maxH"[3];
  }

  /** A name's value after one conditional `set` of another name is its value before. */
  lemma GetSetIfOther(q: Query, emit: bool, name: string, value: string, key: string)
    requires key != name
    ensures Get(SetIf(q, emit, name, value), key) == Get(q, key)
  {
    GetSetIf(q, emit, name, value, key);
  }

  /** A conditional `set` of a name the list does not hold gives it the value exactly when emitted. */
  lemma GetSetIfFresh(q: Query, emit: bool, name: string, value: string)
    requires Get(q, name).None?
    ensures Get(SetIf(q, emit, name, value), name) == if emit then Some(value) else None
  {
    GetSetIf(q, emit, name, value, name);
  }

  lemma GetFieldRatio(ratio: Field, orient: Field, maxSize: Field, format: Field, maxW: Field, maxH: Field, desc: Field)
    ensures Get(SetFields(ratio, orient, maxSize, format, maxW, maxH, desc), "ratio") == if ratio.emit then Some(ratio.text) else None
  {
    NamesDiffer();
    var q1 := SetIf([], ratio.emit, "ratio", ratio.text);
    var q2 := SetIf(q1, orient.emit, "orient", orient.text);
    var q3 := SetIf(q2, maxSize.emit, "maxSize", maxSize.text);
    var q4 := SetIf(q3, format.emit, "format", format.text);
    var q5 := SetIf(q4, maxW.emit, "maxW", maxW.text);
    var q6 := SetIf(q5, maxH.emit, "maxH", maxH.text);
    GetSetIfFresh([], ratio.emit, "ratio", ratio.text);
    GetSetIfOther(q1, orient.emit, "orient", orient.text, "ratio");
    GetSetIfOther(q2, maxSize.emit, "maxSize", maxSize.text, "ratio");
    GetSetIfOther(q3, format.emit, "format", format.text, "ratio");
    GetSetIfOther(q4, maxW.emit, "maxW", maxW.text, "ratio");
    GetSetIfOther(q5, maxH.emit, "maxH", maxH.text, "ratio");
    GetSetIfOther(q6, desc.emit, "desc", desc.text, "ratio");
  }

  lemma GetFieldOrient(ratio: Field, orient: Field, maxSize: Field, format: Field, maxW: Field, maxH: Field, desc: Field)
    ensures Get(SetFields(ratio, orient, maxSize, format, maxW, maxH, desc), "orient") == if orient.emit then Some(orient.text) else None
  {
    NamesDiffer();
    var q1 := SetIf([], ratio.emit, "ratio", ratio.text);
    var q2 := SetIf(q1, orient.emit, "orient", orient.text);
    var q3 := SetIf(q2, maxSize.emit, "maxSize", maxSize.text);
    var q4 := SetIf(q3, format.emit, "format", format.text);
    var q5 := SetIf(q4, maxW.emit, "maxW", maxW.text);
    var q6 := SetIf(q5, maxH.emit, "maxH", maxH.text);
    GetSetIfOther([], ratio.emit, "ratio", ratio.text, "orient");
    GetSetIfFresh(q1, orient.emit, "orient", orient.text);
    GetSetIfOther(q2, maxSize.emit, "maxSize", maxSize.text, "orient");
    GetSetIfOther(q3, format.emit, "format", format.text, "orient");
    GetSetIfOther(q4, maxW.emit, "maxW", maxW.text, "orient");
    GetSetIfOther(q5, maxH.emit, "maxH", maxH.text, "orient");
    GetSetIfOther(q6, desc.emit, "desc", desc.text, "orient");
  }

  lemma GetFieldMaxSize(ratio: Field, orient: Field, maxSize: Field, format: Field, maxW: Field, maxH: Field, desc: Field)
    ensures Get(SetFields(ratio, orient, maxSize, format, maxW, maxH, desc), "maxSize") == if maxSize.emit then Some(maxSize.text) else None
  {
    NamesDiffer();
    var q1 := SetIf([], ratio.emit, "ratio", ratio.text);
    var q2 := SetIf(q1, orient.emit, "orient", orient.text);
    var q3 := SetIf(q2, maxSize.emit, "maxSize", maxSize.text);
    var q4 := SetIf(q3, format.emit, "format", format.text);
    var q5 := SetIf(q4, maxW.emit, "maxW", maxW.text);
    var q6 := SetIf(q5, maxH.emit, "maxH", maxH.text);
    GetSetIfOther([], ratio.emit, "ratio", ratio.text, "maxSize");
    GetSetIfOther(q1, orient.emit, "orient", orient.text, "maxSize");
    GetSetIfFresh(q2, maxSize.emit, "maxSize", maxSize.text);
    GetSetIfOther(q3, format.emit, "format", format.text, "maxSize");
    GetSetIfOther(q4, maxW.emit, "maxW", maxW.text, "maxSize");
    GetSetIfOther(q5, maxH.emit, "maxH", maxH.text, "maxSize");
    GetSetIfOther(q6, desc.emit, "desc", desc.text, "maxSize");
  }

  lemma GetFieldFormat(ratio: Field, orient: Field, maxSize: Field, format: Field, maxW: Field, maxH: Field, desc: Field)
    ensures Get(SetFields(ratio, orient, maxSize, format, maxW, maxH, desc), "format") == if format.emit then Some(format.text) else None
  {
    NamesDiffer();
    var q1 := SetIf([], ratio.emit, "ratio", ratio.text);
    var q2 := SetIf(q1, orient.emit, "orient", orient.text);
    var q3 := SetIf(q2, maxSize.emit, "maxSize", maxSize.text);
    var q4 := SetIf(q3, format.emit, "format", format.text);
    var q5 := SetIf(q4, maxW.emit, "maxW", maxW.text);
    var q6 := SetIf(q5, maxH.emit, "maxH", maxH.text);
    GetSetIfOther([], ratio.emit, "ratio", ratio.text, "format");
    GetSetIfOther(q1, orient.emit, "orient", orient.text, "format");
    GetSetIfOther(q2, maxSize.emit, "maxSize", maxSize.text, "format");
    GetSetIfFresh(q3, format.emit, "format", format.text);
    GetSetIfOther(q4, maxW.emit, "maxW", maxW.text, "format");
    GetSetIfOther(q5, maxH.emit, "maxH", maxH.text, "format");
    GetSetIfOther(q6, desc.emit, "desc", desc.text, "format");
  }

  lemma GetFieldMaxW(ratio: Field, orient: Field, maxSize: Field, format: Field, maxW: Field, maxH: Field, desc: Field)
    ensures Get(SetFields(ratio, orient, maxSize, format, maxW, maxH, desc), "maxW") == if maxW.emit then Some(maxW.text) else None
  {
    NamesDiffer();
    var q1 := SetIf([], ratio.emit, "ratio", ratio.text);
    var q2 := SetIf(q1, orient.emit, "orient", orient.text);
    var q3 := SetIf(q2, maxSize.emit, "maxSize", maxSize.text);
    var q4 := SetIf(q3, format.emit, "format", format.text);
    var q5 := SetIf(q4, maxW.emit, "maxW", maxW.text);
    var q6 := SetIf(q5, maxH.emit, "maxH", maxH.text);
    GetSetIfOther([], ratio.emit, "ratio", ratio.text, "maxW");
    GetSetIfOther(q1, orient.emit, "orient", orient.text, "maxW");
    GetSetIfOther(q2, maxSize.emit, "maxSize", maxSize.text, "maxW");
    GetSetIfOther(q3, format.emit, "format", format.text, "maxW");
    GetSetIfFresh(q4, maxW.emit, "maxW", maxW.text);
    GetSetIfOther(q5, maxH.emit, "maxH", maxH.text, "maxW");
    GetSetIfOther(q6, desc.emit, "desc", desc.text, "maxW");
  }

  lemma GetFieldMaxH(ratio: Field, orient: Field, maxSize: Field, format: Field, maxW: Field, maxH: Field, desc: Field)
    ensures Get(SetFields(ratio, orient, maxSize, format, maxW, maxH, desc), "maxH") == if maxH.emit then Some(maxH.text) else None
  {
    NamesDiffer();
    var q1 := SetIf([], ratio.emit, "ratio", ratio.text);
    var q2 := SetIf(q1, orient.emit, "orient", orient.text);
    var q3 := SetIf(q2, maxSize.emit, "maxSize", maxSize.text);
    var q4 := SetIf(q3, format.emit, "format", format.text);
    var q5 := SetIf(q4, maxW.emit, "maxW", maxW.text);
    var q6 := SetIf(q5, maxH.emit, "maxH", maxH.text);
    GetSetIfOther([], ratio.emit, "ratio", ratio.text, "maxH");
    GetSetIfOther(q1, orient.emit, "orient", orient.text, "maxH");
    GetSetIfOther(q2, maxSize.emit, "maxSize", maxSize.text, "maxH");
    GetSetIfOther(q3, format.emit, "format", format.text, "maxH");
    GetSetIfOther(q4, maxW.emit, "maxW", maxW.text, "maxH");
    GetSetIfFresh(q5, maxH.emit, "maxH", maxH.text);
    GetSetIfOther(q6, desc.emit, "desc", desc.text, "maxH");
  }

  lemma GetFieldDesc(ratio: Field, orient: Field, maxSize: Field, format: Field, maxW: Field, maxH: Field, desc: Field)
    ensures Get(SetFields(ratio, orient, maxSize, format, maxW, maxH, desc), "desc") == if desc.emit then Some(desc.text) else None
  {
    NamesDiffer();
    var q1 := SetIf([], ratio.emit, "ratio", ratio.text);
    var q2 := SetIf(q1, orient.emit, "orient", orient.text);
    var q3 := SetIf(q2, maxSize.emit, "maxSize", maxSize.text);
    var q4 := SetIf(q3, format.emit, "format", format.text);
    var q5 := SetIf(q4, maxW.emit, "maxW", maxW.text);
    var q6 := SetIf(q5, maxH.emit, "maxH", maxH.text);
    GetSetIfOther([], ratio.emit, "ratio", ratio.text, "desc");
    GetSetIfOther(q1, orient.emit, "orient", orient.text, "desc");
    GetSetIfOther(q2, maxSize.emit, "maxSize", maxSize.text, "desc");
    GetSetIfOther(q3, format.emit, "format", format.text, "desc");
    GetSetIfOther(q4, maxW.emit, "maxW", maxW.text, "desc");
    GetSetIfOther(q5, maxH.emit, "maxH", maxH.text, "desc");
    GetSetIfFresh(q6, desc.emit, "desc", desc.text);
  }

  /** Each name of a share link holds its field exactly when the field is not its default. */
  lemma GetShareLinkPairs(p: Params)
    ensures Get(ShareLinkPairs(p), "ratio") == if p.ratio != DefaultRatio then Some(p.ratio) else None
    ensures Get(ShareLinkPairs(p), "orient") == if p.orient != DefaultOrient then Some(p.orient) else None
    ensures Get(ShareLinkPairs(p), "maxSize") ==
      if p.maxSize != DefaultMaxSize then Some(IntToString(p.maxSize)) else None
    ensures Get(ShareLinkPairs(p), "format") == if p.format != DefaultFormat then Some(p.format) else None
    ensures Get(ShareLinkPairs(p), "maxW") == if p.maxW != DefaultMaxW then Some(IntToString(p.maxW)) else None
    ensures Get(ShareLinkPairs(p), "maxH") == if p.maxH != DefaultMaxH then Some(IntToString(p.maxH)) else None
    ensures Get(ShareLinkPairs(p), "desc") == if p.desc != "" then Some(p.desc) else None
  {
    GetShareLinkRatio(p, IntToString(p.maxSize), IntToString(p.maxW), IntToString(p.maxH));
    GetShareLinkOrient(p, IntToString(p.maxSize), IntToString(p.maxW), IntToString(p.maxH));
    GetShareLinkMaxSize(p, IntToString(p.maxSize), IntToString(p.maxW), IntToString(p.maxH));
    GetShareLinkFormat(p, IntToString(p.maxSize), IntToString(p.maxW), IntToString(p.maxH));
    GetShareLinkMaxW(p, IntToString(p.maxSize), IntToString(p.maxW), IntToString(p.maxH));
    GetShareLinkMaxH(p, IntToString(p.maxSize), IntToString(p.maxW), IntToString(p.maxH));
    GetShareLinkDesc(p, IntToString(p.maxSize), IntToString(p.maxW), IntToString(p.maxH));
  }

  lemma GetShareLinkRatio(p: Params, maxSizeText: string, maxWText: string, maxHText: string)
    ensures Get(SharePairs(p, maxSizeText, maxWText, maxHText), "ratio") == if p.ratio != DefaultRatio then Some(p.ratio) else None
  {
    GetFieldRatio(Field(p.ratio != DefaultRatio, p.ratio), Field(p.orient != DefaultOrient, p.orient),
      Field(p.maxSize != DefaultMaxSize, maxSizeText), Field(p.format != DefaultFormat, p.format),
      Field(p.maxW != DefaultMaxW, maxWText), Field(p.maxH != DefaultMaxH, maxHText),
      Field(p.desc != "", p.desc));
  }

  lemma GetShareLinkOrient(p: Params, maxSizeText: string, maxWText: string, maxHText: string)
    ensures Get(SharePairs(p, maxSizeText, maxWText, maxHText), "orient") == if p.orient != DefaultOrient then Some(p.orient) else None
  {
    GetFieldOrient(Field(p.ratio != DefaultRatio, p.ratio), Field(p.orient != DefaultOrient, p.orient),
      Field(p.maxSize != DefaultMaxSize, maxSizeText), Field(p.format != DefaultFormat, p.format),
      Field(p.maxW != DefaultMaxW, maxWText), Field(p.maxH != DefaultMaxH, maxHText),
      Field(p.desc != "", p.desc));
  }

  lemma GetShareLinkMaxSize(p: Params, maxSizeText: string, maxWText: string, maxHText: string)
    ensures Get(SharePairs(p, maxSizeText, maxWText, maxHText), "maxSize") ==
      if p.maxSize != DefaultMaxSize then Some(maxSizeText) else None
  {
    GetFieldMaxSize(Field(p.ratio != DefaultRatio, p.ratio), Field(p.orient != DefaultOrient, p.orient),
      Field(p.maxSize != DefaultMaxSize, maxSizeText), Field(p.format != DefaultFormat, p.format),
      Field(p.maxW != DefaultMaxW, maxWText), Field(p.maxH != DefaultMaxH, maxHText),
      Field(p.desc != "", p.desc));
  }

  lemma GetShareLinkFormat(p: Params, maxSizeText: string, maxWText: string, maxHText: string)
    ensures Get(SharePairs(p, maxSizeText, maxWText, maxHText), "format") == if p.format != DefaultFormat then Some(p.format) else None
  {
    GetFieldFormat(Field(p.ratio != DefaultRatio, p.ratio), Field(p.orient != DefaultOrient, p.orient),
      Field(p.maxSize != DefaultMaxSize, maxSizeText), Field(p.format != DefaultFormat, p.format),
      Field(p.maxW != DefaultMaxW, maxWText), Field(p.maxH != DefaultMaxH, maxHText),
      Field(p.desc != "", p.desc));
  }

  lemma GetShareLinkMaxW(p: Params, maxSizeText: string, maxWText: string, maxHText: string)
    ensures Get(SharePairs(p, maxSizeText, maxWText, maxHText), "maxW") == if p.maxW != DefaultMaxW then Some(maxWText) else None
  {
    GetFieldMaxW(Field(p.ratio != DefaultRatio, p.ratio), Field(p.orient != DefaultOrient, p.orient),
      Field(p.maxSize != DefaultMaxSize, maxSizeText), Field(p.format != DefaultFormat, p.format),
      Field(p.maxW != DefaultMaxW, maxWText), Field(p.maxH != DefaultMaxH, maxHText),
      Field(p.desc != "", p.desc));
  }

  lemma GetShareLinkMaxH(p: Params, maxSizeText: string, maxWText: string, maxHText: string)
    ensures Get(SharePairs(p, maxSizeText, maxWText, maxHText), "maxH") == if p.maxH != DefaultMaxH then Some(maxHText) else None
  {
    GetFieldMaxH(Field(p.ratio != DefaultRatio, p.ratio), Field(p.orient != DefaultOrient, p.orient),
      Field(p.maxSize != DefaultMaxSize, maxSizeText), Field(p.format != DefaultFormat, p.format),
      Field(p.maxW != DefaultMaxW, maxWText), Field(p.maxH != DefaultMaxH, maxHText),
      Field(p.desc != "", p.desc));
  }

  lemma GetShareLinkDesc(p: Params, maxSizeText: string, maxWText: string, maxHText: string)
    ensures Get(SharePairs(p, maxSizeText, maxWText, maxHText), "desc") == if p.desc != "" then Some(p.desc) else None
  {
    GetFieldDesc(Field(p.ratio != DefaultRatio, p.ratio), Field(p.orient != DefaultOrient, p.orient),
      Field(p.maxSize != DefaultMaxSize, maxSizeText), Field(p.format != DefaultFormat, p.format),
      Field(p.maxW != DefaultMaxW, maxWText), Field(p.maxH != DefaultMaxH, maxHText),
      Field(p.desc != "", p.desc));
  }

  /** The share link round trip: parsing the pairs of the link of any record `parseUrlParams` can
      produce gives that record back, so a shared link reproduces the sharer's conditions. */
  lemma ShareLinkRoundTrip(p: Params)
    requires Reachable(p)
    ensures ParseUrlParams(ShareLinkPairs(p)) == p
  {
    GetShareLinkPairs(p);
    ParseIntOfIntToString(p.maxSize);
    ParseIntOfIntToString(p.maxW);
    ParseIntOfIntToString(p.maxH);
  }

  /** The generator form's fields as `FormData.get` reads them; a missing field is `None`. */
  datatype Form = Form(
    ratio: Option<string>, orient: Option<string>, maxSize: Option<string>, format: Option<string>,
    maxW: Option<string>, maxH: Option<string>, desc: Option<string>)

  /** The generator's test `value && value !== default`. */
  predicate Differs(v: Option<string>, default: string)
    ensures Differs(v, default) ==> v.Some? && TextOr(v, default) == v.value
  {
    v.Some? && v.value != "" && v.value != default
  }

  /** The pairs `generateUrl` emits for a form: each field whose text is non-empty and not the
      default text, verbatim, and the description trimmed when that leaves something. */
  function GeneratorPairs(f: Form): Query {
    FormPairs(f, Trim(f.desc.GetOr("")))
  }

  /** The generator's pairs with the description already trimmed to `desc`. */
  function FormPairs(f: Form, desc: string): Query {
    SetFields(Field(Differs(f.ratio, "16:9"), f.ratio.GetOr("")),
      Field(Differs(f.orient, "landscape"), f.orient.GetOr("")),
      Field(Differs(f.maxSize, "1000"), f.maxSize.GetOr("")),
      Field(Differs(f.format, "jpeg"), f.format.GetOr("")),
      Field(Differs(f.maxW, "1920"), f.maxW.GetOr("")),
      Field(Differs(f.maxH, "1080"), f.maxH.GetOr("")),
      Field(desc != "", desc))
  }

  /** `generateUrl` for the index page at `address`. */
  method GenerateUrl(f: Form, address: string) returns (link: Link)
    ensures link == Link(address, GeneratorPairs(f))
  {
    var search := FillGeneratorQuery(f, Trim(f.desc.GetOr("")));
    link := Link(address, search);
  }

  /** The `set` calls of `generateUrl` on an empty query, given the trimmed description. */
  method FillGeneratorQuery(f: Form, desc: string) returns (search: Query)
    ensures search == FormPairs(f, desc)
  {
    NamesFresh();
    search := [];
    ghost var names: set<string> := {};
    search := SetWhen(search, names, Differs(f.ratio, "16:9"), "ratio", f.ratio.GetOr(""));
    names := names + {"ratio"};
    search := SetWhen(search, names, Differs(f.orient, "landscape"), "orient", f.orient.GetOr(""));
    names := names + {"orient"};
    search := SetWhen(search, names, Differs(f.maxSize, "1000"), "maxSize", f.maxSize.GetOr(""));
    names := names + {"maxSize"};
    search := SetWhen(search, names, Differs(f.format, "jpeg"), "format", f.format.GetOr(""));
    names := names + {"format"};
    search := SetWhen(search, names, Differs(f.maxW, "1920"), "maxW", f.maxW.GetOr(""));
    names := names + {"maxW"};
    search := SetWhen(search, names, Differs(f.maxH, "1080"), "maxH", f.maxH.GetOr(""));
    names := names + {"maxH"};
    search := SetWhen(search, names, desc != "", "desc", desc);
  }


  /** Each name of a generated link holds the form's text exactly when `Differs` lets it through. */
  lemma GetGeneratorPairs(f: Form)
    ensures Get(GeneratorPairs(f), "ratio") == if Differs(f.ratio, "16:9") then f.ratio else None
    ensures Get(GeneratorPairs(f), "orient") == if Differs(f.orient, "landscape") then f.orient else None
    ensures Get(GeneratorPairs(f), "maxSize") == if Differs(f.maxSize, "1000") then f.maxSize else None
    ensures Get(GeneratorPairs(f), "format") == if Differs(f.format, "jpeg") then f.format else None
    ensures Get(GeneratorPairs(f), "maxW") == if Differs(f.maxW, "1920") then f.maxW else None
    ensures Get(GeneratorPairs(f), "maxH") == if Differs(f.maxH, "1080") then f.maxH else None
    ensures var desc := Trim(f.desc.GetOr(""));
      Get(GeneratorPairs(f), "desc") == if desc != "" then Some(desc) else None
  {
    GetGeneratorRatio(f, Trim(f.desc.GetOr("")));
    GetGeneratorOrient(f, Trim(f.desc.GetOr("")));
    GetGeneratorMaxSize(f, Trim(f.desc.GetOr("")));
    GetGeneratorFormat(f, Trim(f.desc.GetOr("")));
    GetGeneratorMaxW(f, Trim(f.desc.GetOr("")));
    GetGeneratorMaxH(f, Trim(f.desc.GetOr("")));
    GetGeneratorDesc(f, Trim(f.desc.GetOr("")));
  }

  lemma GetGeneratorRatio(f: Form, desc: string)
    ensures Get(FormPairs(f, desc), "ratio") == if Differs(f.ratio, "16:9") then f.ratio else None
  {
    GetFieldRatio(Field(Differs(f.ratio, "16:9"), f.ratio.GetOr("")),
      Field(Differs(f.orient, "landscape"), f.orient.GetOr("")),
      Field(Differs(f.maxSize, "1000"), f.maxSize.GetOr("")),
      Field(Differs(f.format, "jpeg"), f.format.GetOr("")),
      Field(Differs(f.maxW, "1920"), f.maxW.GetOr("")),
      Field(Differs(f.maxH, "1080"), f.maxH.GetOr("")),
      Field(desc != "", desc));
  }

  lemma GetGeneratorOrient(f: Form, desc: string)
    ensures Get(FormPairs(f, desc), "orient") == if Differs(f.orient, "landscape") then f.orient else None
  {
    GetFieldOrient(Field(Differs(f.ratio, "16:9"), f.ratio.GetOr("")),
      Field(Differs(f.orient, "landscape"), f.orient.GetOr("")),
      Field(Differs(f.maxSize, "1000"), f.maxSize.GetOr("")),
      Field(Differs(f.format, "jpeg"), f.format.GetOr("")),
      Field(Differs(f.maxW, "1920"), f.maxW.GetOr("")),
      Field(Differs(f.maxH, "1080"), f.maxH.GetOr("")),
      Field(desc != "", desc));
  }

  lemma GetGeneratorMaxSize(f: Form, desc: string)
    ensures Get(FormPairs(f, desc), "maxSize") == if Differs(f.maxSize, "1000") then f.maxSize else None
  {
    GetFieldMaxSize(Field(Differs(f.ratio, "16:9"), f.ratio.GetOr("")),
      Field(Differs(f.orient, "landscape"), f.orient.GetOr("")),
      Field(Differs(f.maxSize, "1000"), f.maxSize.GetOr("")),
      Field(Differs(f.format, "jpeg"), f.format.GetOr("")),
      Field(Differs(f.maxW, "1920"), f.maxW.GetOr("")),
      Field(Differs(f.maxH, "1080"), f.maxH.GetOr("")),
      Field(desc != "", desc));
  }

  lemma GetGeneratorFormat(f: Form, desc: string)
    ensures Get(FormPairs(f, desc), "format") == if Differs(f.format, "jpeg") then f.format else None
  {
    GetFieldFormat(Field(Differs(f.ratio, "16:9"), f.ratio.GetOr("")),
      Field(Differs(f.orient, "landscape"), f.orient.GetOr("")),
      Field(Differs(f.maxSize, "1000"), f.maxSize.GetOr("")),
      Field(Differs(f.format, "jpeg"), f.format.GetOr("")),
      Field(Differs(f.maxW, "1920"), f.maxW.GetOr("")),
      Field(Differs(f.maxH, "1080"), f.maxH.GetOr("")),
      Field(desc != "", desc));
  }

  lemma GetGeneratorMaxW(f: Form, desc: string)
    ensures Get(FormPairs(f, desc), "maxW") == if Differs(f.maxW, "1920") then f.maxW else None
  {
    GetFieldMaxW(Field(Differs(f.ratio, "16:9"), f.ratio.GetOr("")),
      Field(Differs(f.orient, "landscape"), f.orient.GetOr("")),
      Field(Differs(f.maxSize, "1000"), f.maxSize.GetOr("")),
      Field(Differs(f.format, "jpeg"), f.format.GetOr("")),
      Field(Differs(f.maxW, "1920"), f.maxW.GetOr("")),
      Field(Differs(f.maxH, "1080"), f.maxH.GetOr("")),
      Field(desc != "", desc));
  }

  lemma GetGeneratorMaxH(f: Form, desc: string)
    ensures Get(FormPairs(f, desc), "maxH") == if Differs(f.maxH, "1080") then f.maxH else None
  {
    GetFieldMaxH(Field(Differs(f.ratio, "16:9"), f.ratio.GetOr("")),
      Field(Differs(f.orient, "landscape"), f.orient.GetOr("")),
      Field(Differs(f.maxSize, "1000"), f.maxSize.GetOr("")),
      Field(Differs(f.format, "jpeg"), f.format.GetOr("")),
      Field(Differs(f.maxW, "1920"), f.maxW.GetOr("")),
      Field(Differs(f.maxH, "1080"), f.maxH.GetOr("")),
      Field(desc != "", desc));
  }

  lemma GetGeneratorDesc(f: Form, desc: string)
    ensures Get(FormPairs(f, desc), "desc") == if desc != "" then Some(desc) else None
  {
    GetFieldDesc(Field(Differs(f.ratio, "16:9"), f.ratio.GetOr("")),
      Field(Differs(f.orient, "landscape"), f.orient.GetOr("")),
      Field(Differs(f.maxSize, "1000"), f.maxSize.GetOr("")),
      Field(Differs(f.format, "jpeg"), f.format.GetOr("")),
      Field(Differs(f.maxW, "1920"), f.maxW.GetOr("")),
      Field(Differs(f.maxH, "1080"), f.maxH.GetOr("")),
      Field(desc != "", desc));
  }

  /** The conditions a form describes, as the index page would read its fields if they were
      passed unchanged: missing or empty texts and numbers that are NaN or 0 take the defaults. */
  function FormConditions(f: Form): Params {
    Params(
      TextOr(f.ratio, DefaultRatio), TextOr(f.orient, DefaultOrient),
      NumberOr(ParseIntOpt(f.maxSize), DefaultMaxSize), TextOr(f.format, DefaultFormat),
      NumberOr(ParseIntOpt(f.maxW), DefaultMaxW), NumberOr(ParseIntOpt(f.maxH), DefaultMaxH),
      TextOr(f.desc, ""))
  }

  /** A generated link carries the form's conditions: the index page parses it to the record the
      form describes, with the description trimmed. Leaving out the fields that hold the default
      text loses nothing. */
  lemma GeneratedLinkParses(f: Form)
    ensures var c := FormConditions(f);
      ParseUrlParams(GeneratorPairs(f)) == c.(desc := Trim(c.desc))
  {
    GeneratedTextFields(f);
    GeneratedNumberFields(f);
    GeneratedDescField(f);
  }

  lemma GeneratedDescField(f: Form)
    ensures ParseUrlParams(GeneratorPairs(f)).desc == Trim(TextOr(f.desc, ""))
  {
    GetGeneratorDesc(f, Trim(f.desc.GetOr("")));
    assert Trim("") == "";
  }

  lemma GeneratedTextFields(f: Form)
    ensures var p := ParseUrlParams(GeneratorPairs(f));
      p.ratio == TextOr(f.ratio, DefaultRatio) && p.orient == TextOr(f.orient, DefaultOrient)
      && p.format == TextOr(f.format, DefaultFormat)
  {
    GetGeneratorRatio(f, Trim(f.desc.GetOr("")));
    GetGeneratorOrient(f, Trim(f.desc.GetOr("")));
    GetGeneratorFormat(f, Trim(f.desc.GetOr("")));
  }

  lemma GeneratedNumberFields(f: Form)
    ensures var p := ParseUrlParams(GeneratorPairs(f));
      && p.maxSize == NumberOr(ParseIntOpt(f.maxSize), DefaultMaxSize)
      && p.maxW == NumberOr(ParseIntOpt(f.maxW), DefaultMaxW)
      && p.maxH == NumberOr(ParseIntOpt(f.maxH), DefaultMaxH)
  {
    DefaultTextsParse();
    GetGeneratorMaxSize(f, Trim(f.desc.GetOr("")));
    NumberFieldKept(f.maxSize, "1000", DefaultMaxSize);
    GetGeneratorMaxW(f, Trim(f.desc.GetOr("")));
    NumberFieldKept(f.maxW, "1920", DefaultMaxW);
    GetGeneratorMaxH(f, Trim(f.desc.GetOr("")));
    NumberFieldKept(f.maxH, "1080", DefaultMaxH);
  }

  /** Leaving out a number field whose text is empty or the default's text does not change what
      the index page reads for it. */
  lemma NumberFieldKept(v: Option<string>, text: string, default: int)
    requires ParseInt(text) == Some(default) && default != 0
    ensures NumberOr(ParseIntOpt(if Differs(v, text) then v else None), default)
      == NumberOr(ParseIntOpt(v), default)
  {
    if v == Some("") {
      assert TrimStart("") == "";
      assert ParseUnsigned("") == None;
    }
  }

  /** The default texts parse to the defaults. */
  lemma DefaultTextsParse()
    ensures ParseInt("1000") == Some(DefaultMaxSize)
    ensures ParseInt("1920") == Some(DefaultMaxW)
    ensures ParseInt("1080") == Some(DefaultMaxH)
  {
    DefaultTexts();
    ParseIntOfIntToString(DefaultMaxSize);
    ParseIntOfIntToString(DefaultMaxW);
    ParseIntOfIntToString(DefaultMaxH);
  }

  /** The generator compares the number fields with these texts of the defaults. */
  lemma DefaultTexts()
    ensures IntToString(DefaultMaxSize) == "1000"
    ensures IntToString(DefaultMaxW) == "1920"
    ensures IntToString(DefaultMaxH) == "1080"
  {
    assert NatToString(1) == "1";
    assert NatToString(10) == "10";
    assert NatToString(100) == "100";
    assert NatToString(1000) == "1000";
    assert NatToString(19) == "19";
    assert NatToString(192) == "192";
    assert NatToString(1920) == "1920";
    assert NatToString(108) == "108";
    assert NatToString(1080) == "1080";
  }
}
