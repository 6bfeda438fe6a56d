/** The subscription request a group keeps in its About field: the array
    ["REQ", <device token>, <filter>, ...] decoded by parseREQFromAbout in
    internal/subscription/subscription_matcher.go. */
module Req {
  import opened Nostr

  datatype Json =
    | Null
    | Bool(b: bool)
    | Num(n: int)
    | Str(s: string)
    | Arr(items: seq<Json>)
    | Obj(fields: map<string, Json>)

  /** An About field: the empty string, a text that is not JSON, or a JSON document. */
  datatype About = Empty | Malformed(text: string) | Document(json: Json)

  datatype ParseError = EmptyAbout | NotAnArray | TooShort | NotReq | GroupMissing

  datatype Request = Request(token: string, filters: seq<Filter>)

  datatype Parse = Ok(request: Request) | Err(error: ParseError)

  // Filters -------------------------------------------------------------------------

  predicate IsStrings(j: Json) {
    j.Null? || (j.Arr? && forall i | 0 <= i < |j.items| :: j.items[i].Str?)
  }

  predicate IsInts(j: Json) {
    j.Null? || (j.Arr? && forall i | 0 <= i < |j.items| :: j.items[i].Num?)
  }

  predicate IsInt(j: Json) {
    j.Null? || j.Num?
  }

  function Strings(j: Json): seq<string>
    requires IsStrings(j) && j.Arr?
  {
    seq(|j.items|, i requires 0 <= i < |j.items| => j.items[i].s)
  }

  function Ints(j: Json): seq<int>
    requires IsInts(j) && j.Arr?
  {
    seq(|j.items|, i requires 0 <= i < |j.items| => j.items[i].n)
  }

  predicate IsTagKey(key: string) {
    |key| > 1 && key[0] == '#'
  }

  /** Every known field is absent, null, or of its NIP-01 type. */
  predicate WellTyped(fields: map<string, Json>) {
    && ("ids" in fields ==> IsStrings(fields["ids"]))
    && ("authors" in fields ==> IsStrings(fields["authors"]))
    && ("kinds" in fields ==> IsInts(fields["kinds"]))
    && ("since" in fields ==> IsInt(fields["since"]))
    && ("until" in fields ==> IsInt(fields["until"]))
    && ("limit" in fields ==> IsInt(fields["limit"]))
    && (forall key | key in fields && IsTagKey(key) :: IsStrings(fields[key]))
  }

  function StringsAt(fields: map<string, Json>, key: string): Option<seq<string>>
    requires key in fields ==> IsStrings(fields[key])
  {
    if key in fields && fields[key].Arr? then Some(Strings(fields[key])) else None
  }

  function IntsAt(fields: map<string, Json>, key: string): Option<seq<int>>
    requires key in fields ==> IsInts(fields[key])
  {
    if key in fields && fields[key].Arr? then Some(Ints(fields[key])) else None
  }

  function IntAt(fields: map<string, Json>, key: string): Option<int>
    requires key in fields ==> IsInt(fields[key])
  {
    if key in fields && fields[key].Num? then Some(fields[key].n) else None
  }

  function TagNames(fields: map<string, Json>): set<string> {
    set key | key in fields && IsTagKey(key) && fields[key].Arr? :: key[1..]
  }

  lemma TagKey(fields: map<string, Json>, name: string)
    ensures name in TagNames(fields) <==> name != "" && "#" + name in fields && fields["#" + name].Arr?
  {
    if name in TagNames(fields) {
      var key :| key in fields && IsTagKey(key) && fields[key].Arr? && key[1..] == name;
      assert key == "#" + name;
    }
    if name != "" && "#" + name in fields && fields["#" + name].Arr? {
      assert ("#" + name)[1..] == name;
    }
  }

  function TagsIn(fields: map<string, Json>): map<string, seq<string>>
    requires WellTyped(fields)
  {
    map name | name in TagNames(fields) :: TagKey(fields, name); Strings(fields["#" + name])
  }

  /** Decoding one array element into a filter. A JSON null leaves a Go value at its
      zero, which matches everything; unknown fields are ignored. */
  function DecodeFilter(j: Json): Option<Filter> {
    match j
    case Null => Some(ANYTHING)
    case Obj(fields) =>
      if WellTyped(fields) then
        Some(Filter(StringsAt(fields, "ids"), StringsAt(fields, "authors"), IntsAt(fields, "kinds"), TagsIn(fields),
                    IntAt(fields, "since"), IntAt(fields, "until"), IntAt(fields, "limit")))
      else None
    case _ => None
  }

  function StringArray(ss: seq<string>): Json {
    Arr(seq(|ss|, i requires 0 <= i < |ss| => Str(ss[i])))
  }

  function IntArray(ns: seq<int>): Json {
    Arr(seq(|ns|, i requires 0 <= i < |ns| => Num(ns[i])))
  }

  function Field(key: string, value: Option<Json>): map<string, Json> {
    if value.Some? then map[key := value.value] else map[]
  }

  function MapStrings(o: Option<seq<string>>): Option<Json> {
    if o.Some? then Some(StringArray(o.value)) else None
  }

  function MapInts(o: Option<seq<int>>): Option<Json> {
    if o.Some? then Some(IntArray(o.value)) else None
  }

  function MapInt(o: Option<int>): Option<Json> {
    if o.Some? then Some(Num(o.value)) else None
  }

  function TagFields(tags: map<string, seq<string>>): map<string, Json> {
    map key | key in (set name | name in tags :: "#" + name) :: StringArray(tags[key[1..]])
  }

  function FieldList(names: seq<string>, values: seq<Option<Json>>): map<string, Json>
    requires |names| == |values|
  {
    if names == [] then map[]
    else
      var n := |names| - 1;
      FieldList(names[..n], values[..n]) + Field(names[n], values[n])
  }

  const NAMES: seq<string> := ["ids", "authors", "kinds", "since", "until", "limit"]

  function PlainFields(f: Filter): map<string, Json> {
    FieldList(NAMES, [MapStrings(f.ids), MapStrings(f.authors), MapInts(f.kinds),
                      MapInt(f.since), MapInt(f.until), MapInt(f.limit)])
  }

  function EncodeFilter(f: Filter): Json {
    Obj(PlainFields(f) + TagFields(f.tags))
  }

  // Round trip of one filter ----------------------------------------------------------

  lemma StringsRoundTrip(ss: seq<string>)
    ensures IsStrings(StringArray(ss)) && Strings(StringArray(ss)) == ss
  {}

  lemma IntsRoundTrip(ns: seq<int>)
    ensures IsInts(IntArray(ns)) && Ints(IntArray(ns)) == ns
  {}

  lemma TagFieldKeys(tags: map<string, seq<string>>, key: string)
    ensures key in TagFields(tags) <==> |key| > 0 && key[0] == '#' && key[1..] in tags
  {
    if |key| > 0 && key[0] == '#' && key[1..] in tags {
      assert key == "#" + key[1..];
    }
  }

  predicate Distinct(names: seq<string>) {
    forall i, j | 0 <= i < j < |names| :: names[i] != names[j]
  }

  lemma NamesDistinct()
    ensures Distinct(NAMES) && forall i | 0 <= i < 6 :: |NAMES[i]| > 0 && NAMES[i][0] != '#'
  {
    assert NAMES[2][0] == 'k' && NAMES[3][0] == 's' && NAMES[4][0] == 'u' && NAMES[5][0] == 'l';
    assert |NAMES[0]| == 3 && |NAMES[1]| == 7 && |NAMES[2]| == |NAMES[3]| == |NAMES[4]| == |NAMES[5]| == 5;
  }

  predicate Holds(fields: map<string, Json>, key: string, value: Option<Json>) {
    (key in fields <==> value.Some?) && (value.Some? ==> fields[key] == value.value)
  }

  lemma HoldsStill(fields: map<string, Json>, key: string, value: Option<Json>, other: string, added: Option<Json>)
    requires Holds(fields, key, value) && key != other
    ensures Holds(fields + Field(other, added), key, value)
  {
  }

  lemma HoldsNow(fields: map<string, Json>, key: string, value: Option<Json>)
    requires key !in fields
    ensures Holds(fields + Field(key, value), key, value)
  {
  }

  lemma {:induction false} FieldListAt(names: seq<string>, values: seq<Option<Json>>)
    requires |names| == |values| && Distinct(names)
    ensures var m := FieldList(names, values);
      && (forall i | 0 <= i < |names| :: Holds(m, names[i], values[i]))
      && (forall key | key in m :: key in names)
  {
    if names == [] {
    } else {
      var n := |names| - 1;
      FieldListAt(names[..n], values[..n]);
      var before := FieldList(names[..n], values[..n]);
      forall i | 0 <= i < n ensures Holds(FieldList(names, values), names[i], values[i]) {
        assert Holds(before, names[..n][i], values[..n][i]);
        HoldsStill(before, names[i], values[i], names[n], values[n]);
      }
      HoldsNow(before, names[n], values[n]);
    }
  }

  /** No field of an encoded filter but its tags starts with `#`. */
  lemma PlainKeys(f: Filter)
    ensures forall key | key in PlainFields(f) :: |key| > 0 && key[0] != '#'
  {
    NamesDistinct();
    FieldListAt(NAMES, [MapStrings(f.ids), MapStrings(f.authors), MapInts(f.kinds),
                        MapInt(f.since), MapInt(f.until), MapInt(f.limit)]);
  }

  /** `fields` reads back as the filter's conditions other than tags. */
  predicate ReadsAs(fields: map<string, Json>, f: Filter) {
    && (NAMES[0] in fields ==> IsStrings(fields[NAMES[0]])) && StringsAt(fields, NAMES[0]) == f.ids
    && (NAMES[1] in fields ==> IsStrings(fields[NAMES[1]])) && StringsAt(fields, NAMES[1]) == f.authors
    && (NAMES[2] in fields ==> IsInts(fields[NAMES[2]])) && IntsAt(fields, NAMES[2]) == f.kinds
    && (NAMES[3] in fields ==> IsInt(fields[NAMES[3]])) && IntAt(fields, NAMES[3]) == f.since
    && (NAMES[4] in fields ==> IsInt(fields[NAMES[4]])) && IntAt(fields, NAMES[4]) == f.until
    && (NAMES[5] in fields ==> IsInt(fields[NAMES[5]])) && IntAt(fields, NAMES[5]) == f.limit
  }

  lemma ReadStrings(fields: map<string, Json>, key: string, o: Option<seq<string>>)
    requires Holds(fields, key, MapStrings(o))
    ensures (key in fields ==> IsStrings(fields[key])) && StringsAt(fields, key) == o
  {
    if o.Some? { StringsRoundTrip(o.value); }
  }

  lemma ReadInts(fields: map<string, Json>, key: string, o: Option<seq<int>>)
    requires Holds(fields, key, MapInts(o))
    ensures (key in fields ==> IsInts(fields[key])) && IntsAt(fields, key) == o
  {
    if o.Some? { IntsRoundTrip(o.value); }
  }

  lemma PlainHolds(f: Filter)
    ensures var m := PlainFields(f);
      && Holds(m, NAMES[0], MapStrings(f.ids)) && Holds(m, NAMES[1], MapStrings(f.authors))
          && Holds(m, NAMES[2], MapInts(f.kinds))
      && Holds(m, NAMES[3], MapInt(f.since)) && Holds(m, NAMES[4], MapInt(f.until))
          && Holds(m, NAMES[5], MapInt(f.limit))
  {
    NamesDistinct();
    var values := [MapStrings(f.ids), MapStrings(f.authors), MapInts(f.kinds),
                   MapInt(f.since), MapInt(f.until), MapInt(f.limit)];
    FieldListAt(NAMES, values);
    assert forall i | 0 <= i < 6 :: Holds(PlainFields(f), NAMES[i], values[i]);
  }

  lemma PlainRoundTrip(f: Filter)
    ensures ReadsAs(PlainFields(f), f)
  {
    var m := PlainFields(f);
    PlainHolds(f);
    ReadStrings(m, NAMES[0], f.ids);
    ReadStrings(m, NAMES[1], f.authors);
    ReadInts(m, NAMES[2], f.kinds);
  }

  lemma TagFieldValues(tags: map<string, seq<string>>, key: string)
    requires key in TagFields(tags)
    ensures |key| > 0 && key[0] == '#' && key[1..] in tags
    ensures IsStrings(TagFields(tags)[key]) && TagFields(tags)[key].Arr?
        && Strings(TagFields(tags)[key]) == tags[key[1..]]
  {
    TagFieldKeys(tags, key);
    StringsRoundTrip(tags[key[1..]]);
  }

  /** The tag fields read back as `tags`. */
  predicate TagsReadAs(fields: map<string, Json>, tags: map<string, seq<string>>) {
    && (forall key | key in fields && IsTagKey(key) :: IsStrings(fields[key]))
    && TagNames(fields) == tags.Keys
    && (forall name | name in tags :: "#" + name in fields && IsStrings(fields["#" + name]) &&
          fields["#" + name].Arr? && Strings(fields["#" + name]) == tags[name])
  }

  lemma TagNameOf(plain: map<string, Json>, tags: map<string, seq<string>>, name: string)
    requires "" !in tags && forall key | key in plain :: |key| > 0 && key[0] != '#'
    ensures name in TagNames(plain + TagFields(tags)) <==> name in tags
  {
    var fields := plain + TagFields(tags);
    TagKey(fields, name);
    TagFieldKeys(tags, "#" + name);
    assert ("#" + name)[1..] == name;
    if name in tags {
      TagFieldValues(tags, "#" + name);
    }
  }

  lemma TagRoundTrip(plain: map<string, Json>, tags: map<string, seq<string>>)
    requires "" !in tags && forall key | key in plain :: |key| > 0 && key[0] != '#'
    ensures TagsReadAs(plain + TagFields(tags), tags)
  {
    var fields := plain + TagFields(tags);
    forall key | key in fields && IsTagKey(key) ensures IsStrings(fields[key]) {
      TagFieldValues(tags, key);
    }
    forall name ensures name in TagNames(fields) <==> name in tags {
      TagNameOf(plain, tags, name);
    }
    forall name | name in tags
      ensures "#" + name in fields && IsStrings(fields["#" + name]) &&
              fields["#" + name].Arr? && Strings(fields["#" + name]) == tags[name]
    {
      TagFieldKeys(tags, "#" + name);
      assert ("#" + name)[1..] == name;
      TagFieldValues(tags, "#" + name);
    }
  }

  lemma ReadsAsExtends(plain: map<string, Json>, more: map<string, Json>, f: Filter)
    requires ReadsAs(plain, f) && forall i | 0 <= i < 6 :: NAMES[i] !in more
    ensures ReadsAs(plain + more, f)
  {
  }

  lemma Decodes(fields: map<string, Json>, f: Filter)
    requires ReadsAs(fields, f) && TagsReadAs(fields, f.tags)
    ensures DecodeFilter(Obj(fields)) == Some(f)
  {
    assert WellTyped(fields);
    assert TagsIn(fields) == f.tags;
  }

  /** Encoding a filter and decoding it gives it back. */
  lemma FilterRoundTrip(f: Filter)
    requires "" !in f.tags
    ensures DecodeFilter(EncodeFilter(f)) == Some(f)
  {
    var fields := PlainFields(f) + TagFields(f.tags);
    PlainRoundTrip(f);
    PlainKeys(f);
    NamesDistinct();
    forall i | 0 <= i < 6 ensures NAMES[i] !in TagFields(f.tags) {
      TagFieldKeys(f.tags, NAMES[i]);
    }
    ReadsAsExtends(PlainFields(f), TagFields(f.tags), f);
    TagRoundTrip(PlainFields(f), f.tags);
    Decodes(fields, f);
  }

  // Exactly what decodes -------------------------------------------------------------------

  predicate Known(key: string) {
    key in NAMES || IsTagKey(key)
  }

  /** The fields that matter: the known ones that are not null. */
  function Relevant(fields: map<string, Json>): map<string, Json> {
    map key | key in fields && Known(key) && !fields[key].Null? :: fields[key]
  }

  function At(fields: map<string, Json>, key: string): Option<Json> {
    if key in fields then Some(fields[key]) else None
  }

  lemma ArraysEncode(j: Json)
    ensures j.Arr? && IsStrings(j) ==> StringArray(Strings(j)) == j
    ensures j.Arr? && IsInts(j) ==> IntArray(Ints(j)) == j
  {
  }

  lemma StringsField(fields: map<string, Json>, m: map<string, Json>, key: string)
    requires Known(key) && (key in fields ==> IsStrings(fields[key]))
    requires Holds(m, key, MapStrings(StringsAt(fields, key)))
    ensures At(m, key) == At(Relevant(fields), key)
  {
    if key in fields {
      ArraysEncode(fields[key]);
    }
  }

  lemma IntsField(fields: map<string, Json>, m: map<string, Json>, key: string)
    requires Known(key) && (key in fields ==> IsInts(fields[key]))
    requires Holds(m, key, MapInts(IntsAt(fields, key)))
    ensures At(m, key) == At(Relevant(fields), key)
  {
    if key in fields {
      ArraysEncode(fields[key]);
    }
  }

  lemma IntField(fields: map<string, Json>, m: map<string, Json>, key: string)
    requires Known(key) && (key in fields ==> IsInt(fields[key]))
    requires Holds(m, key, MapInt(IntAt(fields, key)))
    ensures At(m, key) == At(Relevant(fields), key)
  {
  }

  lemma DecodedReads(fields: map<string, Json>, f: Filter)
    requires DecodeFilter(Obj(fields)) == Some(f)
    ensures ReadsAs(fields, f)
  {
  }

  lemma EncodedLists(fields: map<string, Json>, f: Filter)
    requires ReadsAs(fields, f)
    ensures forall i | 0 <= i < 3 :: At(PlainFields(f), NAMES[i]) == At(Relevant(fields), NAMES[i])
  {
    PlainHolds(f);
    StringsField(fields, PlainFields(f), NAMES[0]);
    StringsField(fields, PlainFields(f), NAMES[1]);
    IntsField(fields, PlainFields(f), NAMES[2]);
  }

  lemma EncodedInts(fields: map<string, Json>, f: Filter)
    requires ReadsAs(fields, f)
    ensures forall i | 3 <= i < 6 :: At(PlainFields(f), NAMES[i]) == At(Relevant(fields), NAMES[i])
  {
    PlainHolds(f);
    IntField(fields, PlainFields(f), NAMES[3]);
    IntField(fields, PlainFields(f), NAMES[4]);
    IntField(fields, PlainFields(f), NAMES[5]);
  }

  lemma TagsApart(f: Filter, key: string)
    ensures At(PlainFields(f) + TagFields(f.tags), key) ==
      if |key| > 0 && key[0] == '#' then At(TagFields(f.tags), key) else At(PlainFields(f), key)
  {
    PlainKeys(f);
    TagFieldKeys(f.tags, key);
  }

  lemma EncodedTag(fields: map<string, Json>, f: Filter, key: string)
    requires DecodeFilter(Obj(fields)) == Some(f) && IsTagKey(key)
    ensures At(TagFields(f.tags), key) == At(Relevant(fields), key)
  {
    var name := key[1..];
    assert "#" + name == key;
    TagFieldKeys(f.tags, key);
    TagKey(fields, name);
    if key in fields {
      ArraysEncode(fields[key]);
      assert fields[key].Arr? ==> f.tags[name] == Strings(fields[key]);
    }
  }

  lemma EncodedOther(fields: map<string, Json>, f: Filter, key: string)
    requires DecodeFilter(Obj(fields)) == Some(f) && !Known(key)
    ensures key !in PlainFields(f) && key !in TagFields(f.tags)
  {
    NamesDistinct();
    FieldListAt(NAMES, [MapStrings(f.ids), MapStrings(f.authors), MapInts(f.kinds),
                        MapInt(f.since), MapInt(f.until), MapInt(f.limit)]);
    TagFieldKeys(f.tags, key);
    if key in TagFields(f.tags) {
      TagKey(fields, key[1..]);
    }
  }

  lemma SameFields(a: map<string, Json>, b: map<string, Json>)
    requires forall key :: At(a, key) == At(b, key)
    ensures a == b
  {
    forall key ensures key in a <==> key in b {
      assert At(a, key) == At(b, key);
    }
    forall key | key in a ensures a[key] == b[key] {
      assert At(a, key) == At(b, key);
    }
  }

  lemma DecodedEncodes(fields: map<string, Json>, f: Filter)
    requires DecodeFilter(Obj(fields)) == Some(f)
    ensures "" !in f.tags && EncodeFilter(f) == Obj(Relevant(fields))
  {
    TagKey(fields, "");
    NamesDistinct();
    forall key ensures At(PlainFields(f) + TagFields(f.tags), key) == At(Relevant(fields), key) {
      TagsApart(f, key);
      if key in NAMES {
        var i :| 0 <= i < 6 && NAMES[i] == key;
        DecodedReads(fields, f);
        EncodedLists(fields, f);
        EncodedInts(fields, f);
      } else if IsTagKey(key) {
        EncodedTag(fields, f, key);
      } else {
        EncodedOther(fields, f, key);
      }
    }
    SameFields(PlainFields(f) + TagFields(f.tags), Relevant(fields));
  }

  lemma SameTags(fields: map<string, Json>)
    requires WellTyped(fields) && WellTyped(Relevant(fields))
    ensures TagsIn(fields) == TagsIn(Relevant(fields))
  {
    forall name ensures name in TagNames(fields) <==> name in TagNames(Relevant(fields)) {
      TagKey(fields, name);
      TagKey(Relevant(fields), name);
      assert name != "" ==> IsTagKey("#" + name);
    }
    forall name | name in TagNames(fields) ensures TagsIn(fields)[name] == TagsIn(Relevant(fields))[name] {
      TagKey(fields, name);
    }
  }

  /** Null and unknown fields make no difference. */
  lemma IrrelevantIgnored(fields: map<string, Json>)
    ensures DecodeFilter(Obj(fields)) == DecodeFilter(Obj(Relevant(fields)))
  {
    var rest := Relevant(fields);
    assert forall i | 0 <= i < 6 :: NAMES[i] in rest <==> NAMES[i] in fields && !fields[NAMES[i]].Null?;
    assert WellTyped(fields) <==> WellTyped(rest);
    if WellTyped(fields) {
      SameTags(fields);
    }
  }

  /** An object decodes to a filter if and only if its known fields that are not null are the
      encoding of that filter; null decodes to the filter without conditions, nothing else to
      any. So a field of the wrong type makes the element no filter, and no condition is lost. */
  lemma DecodesIff(j: Json, f: Filter)
    ensures DecodeFilter(j) == Some(f) <==>
      if j.Obj? then "" !in f.tags && EncodeFilter(f) == Obj(Relevant(j.fields)) else j.Null? && f == ANYTHING
  {
    if j.Obj? {
      if DecodeFilter(j) == Some(f) {
        DecodedEncodes(j.fields, f);
      }
      if "" !in f.tags && EncodeFilter(f) == Obj(Relevant(j.fields)) {
        FilterRoundTrip(f);
        IrrelevantIgnored(j.fields);
      }
    }
  }

  // Requests ----------------------------------------------------------------------------

  /** The filters an array's elements decode to; elements that do not decode are skipped. */
  function FiltersOf(items: seq<Json>): seq<Filter> {
    if items == [] then []
    else
      var before := FiltersOf(items[..|items| - 1]);
      match DecodeFilter(items[|items| - 1])
      case Some(f) => before + [f]
      case None => before
  }

  function TokenOf(j: Json): string {
    if j.Str? then j.s else ""
  }

  function ParseAbout(about: About): Parse {
    match about
    case Empty => Err(EmptyAbout)
    case Malformed(_) => Err(NotAnArray)
    case Document(j) =>
      if j.Null? then Err(TooShort)
      else if !j.Arr? then Err(NotAnArray)
      else if |j.items| < 3 then Err(TooShort)
      else if j.items[0] != Str("REQ") then Err(NotReq)
      else Ok(Request(TokenOf(j.items[1]), FiltersOf(j.items[2..])))
  }

  /** parseREQFromAbout, with its loop over the elements from the third on. */
  method ParseREQFromAbout(about: About) returns (result: Parse)
    ensures result == ParseAbout(about)
  {
    if about.Empty? {
      return Err(EmptyAbout);
    }
    if about.Malformed? || !(about.json.Arr? || about.json.Null?) {
      return Err(NotAnArray);
    }
    var elements := if about.json.Arr? then about.json.items else [];
    if |elements| < 3 {
      return Err(TooShort);
    }
    if !elements[0].Str? || elements[0].s != "REQ" {
      return Err(NotReq);
    }
    var token := "";
    if elements[1].Str? {
      token := elements[1].s;
    }
    var filters: seq<Filter> := [];
    for i := 2 to |elements|
      invariant filters == FiltersOf(elements[2..][..i - 2])
    {
      assert elements[2..][..i - 1][..i - 2] == elements[2..][..i - 2];
      var decoded := DecodeFilter(elements[i]);
      if decoded.None? {
        continue;
      }
      filters := filters + [decoded.value];
    }
    assert elements[2..][..|elements| - 2] == elements[2..];
    result := Ok(Request(token, filters));
  }

  /** Which Abouts are subscriptions: exactly the arrays of at least three elements that begin
      with "REQ"; their token is the second element if that is a string, and empty otherwise. */
  lemma AcceptedAbouts(about: About)
    ensures ParseAbout(about).Ok? <==>
      about.Document? && about.json.Arr? && |about.json.items| >= 3 && about.json.items[0] == Str("REQ")
    ensures ParseAbout(about).Ok? ==>
      ParseAbout(about).request.token == if about.json.items[1].Str? then about.json.items[1].s else ""
  {
  }

  /** Why any other is not: an empty text, no array or null, too few elements, another first one. */
  lemma RejectedAbouts(about: About)
    ensures ParseAbout(about) == Err(EmptyAbout) <==> about == Empty
    ensures ParseAbout(about) == Err(NotAnArray) <==>
      about.Malformed? || (about.Document? && !about.json.Arr? && about.json != Null)
    ensures ParseAbout(about) == Err(TooShort) <==>
      about.Document? && (about.json == Null || (about.json.Arr? && |about.json.items| < 3))
    ensures ParseAbout(about) == Err(NotReq) <==>
      about.Document? && about.json.Arr? && |about.json.items| >= 3 && about.json.items[0] != Str("REQ")
  {
  }

  /** Where the decodable elements are, in order. */
  function Positions(items: seq<Json>): (ps: seq<nat>)
    ensures forall k | 0 <= k < |ps| :: ps[k] < |items| && DecodeFilter(items[ps[k]]).Some?
    ensures forall k, l | 0 <= k < l < |ps| :: ps[k] < ps[l]
    ensures forall i | 0 <= i < |items| && DecodeFilter(items[i]).Some? :: i in ps
  {
    if items == [] then []
    else
      var before := Positions(items[..|items| - 1]);
      if DecodeFilter(items[|items| - 1]).Some? then before + [|items| - 1] else before
  }

  /** The filters are the decodable elements, all of them and in their order. */
  lemma {:induction false} FiltersAreDecodableElements(items: seq<Json>)
    ensures |FiltersOf(items)| == |Positions(items)|
    ensures forall k | 0 <= k < |FiltersOf(items)| ::
        DecodeFilter(items[Positions(items)[k]]) == Some(FiltersOf(items)[k])
  {
    if items == [] {
    } else {
      FiltersAreDecodableElements(items[..|items| - 1]);
    }
  }

  lemma {:induction false} FiltersConcat(a: seq<Json>, b: seq<Json>)
    ensures FiltersOf(a + b) == FiltersOf(a) + FiltersOf(b)
  {
    if b == [] {
      assert a + b == a;
    } else {
      assert (a + b)[..|a + b| - 1] == a + b[..|b| - 1];
      FiltersConcat(a, b[..|b| - 1]);
    }
  }

  /** The element decodes to a filter that matches. */
  predicate ElementMatches(item: Json, e: Event) {
    DecodeFilter(item).Some? && FilterMatches(DecodeFilter(item).value, e)
  }

  lemma {:induction false} MatchHasElement(items: seq<Json>, e: Event)
    requires FiltersMatch(FiltersOf(items), e)
    ensures exists i | 0 <= i < |items| :: ElementMatches(items[i], e)
  {
    FiltersAreDecodableElements(items);
    var fs, ps := FiltersOf(items), Positions(items);
    var k :| 0 <= k < |fs| && FilterMatches(fs[k], e);
    assert ElementMatches(items[ps[k]], e);
  }

  lemma {:induction false} ElementMakesMatch(items: seq<Json>, i: nat, e: Event)
    requires i < |items| && ElementMatches(items[i], e)
    ensures FiltersMatch(FiltersOf(items), e)
  {
    FiltersAreDecodableElements(items);
    var fs, ps := FiltersOf(items), Positions(items);
    assert i in ps;
    var k :| 0 <= k < |ps| && ps[k] == i;
    assert FilterMatches(fs[k], e);
  }

  lemma {:induction false} MatchesIffElementMatches(items: seq<Json>, e: Event)
    ensures FiltersMatch(FiltersOf(items), e) <==> exists i | 0 <= i < |items| :: ElementMatches(items[i], e)
  {
    if FiltersMatch(FiltersOf(items), e) {
      MatchHasElement(items, e);
    }
    if exists i | 0 <= i < |items| :: ElementMatches(items[i], e) {
      var i :| 0 <= i < |items| && ElementMatches(items[i], e);
      ElementMakesMatch(items, i, e);
    }
  }

  predicate AboutMatches(about: About, e: Event) {
    ParseAbout(about).Ok? && FiltersMatch(ParseAbout(about).request.filters, e)
  }

  function RequestArray(token: string, filters: seq<Json>): About {
    Document(Arr([Str("REQ"), Str(token)] + filters))
  }

  /** An event matches a subscription exactly when some element from the third on
      decodes and matches; so appending filter elements gives the union of matches. */
  lemma ConcatenatedFiltersUnite(token: string, a: seq<Json>, b: seq<Json>, e: Event)
    requires a != [] && b != []
    ensures AboutMatches(RequestArray(token, a + b), e) <==>
      AboutMatches(RequestArray(token, a), e) || AboutMatches(RequestArray(token, b), e)
    ensures AboutMatches(RequestArray(token, a), e) <==>
      exists i | 0 <= i < |a| :: ElementMatches(a[i], e)
  {
    ArrayParses(token, a);
    ArrayParses(token, b);
    ArrayParses(token, a + b);
    FiltersConcat(a, b);
    MatchesConcat(FiltersOf(a), FiltersOf(b), e);
    MatchesIffElementMatches(a, e);
  }

  lemma {:induction false} ArrayParses(token: string, items: seq<Json>)
    requires items != []
    ensures ParseAbout(RequestArray(token, items)) == Ok(Request(token, FiltersOf(items)))
  {
    assert ([Str("REQ"), Str(token)] + items)[2..] == items;
  }

  lemma MatchesConcat(fs: seq<Filter>, gs: seq<Filter>, e: Event)
    ensures FiltersMatch(fs + gs, e) <==> FiltersMatch(fs, e) || FiltersMatch(gs, e)
  {
    if FiltersMatch(fs, e) {
      var i :| 0 <= i < |fs| && FilterMatches(fs[i], e);
      assert FilterMatches((fs + gs)[i], e);
    }
    if FiltersMatch(gs, e) {
      var i :| 0 <= i < |gs| && FilterMatches(gs[i], e);
      assert FilterMatches((fs + gs)[|fs| + i], e);
    }
  }

  function EncodeFilters(fs: seq<Filter>): seq<Json> {
    seq(|fs|, i requires 0 <= i < |fs| => EncodeFilter(fs[i]))
  }

  predicate DecodesTo(item: Json, f: Filter) {
    DecodeFilter(item) == Some(f)
  }

  lemma {:induction false} AllDecode(items: seq<Json>, fs: seq<Filter>)
    requires |items| == |fs| && forall i | 0 <= i < |fs| :: DecodesTo(items[i], fs[i])
    ensures FiltersOf(items) == fs
  {
    if fs == [] {
    } else {
      AllDecode(items[..|items| - 1], fs[..|fs| - 1]);
      assert DecodesTo(items[|fs| - 1], fs[|fs| - 1]);
    }
  }

  lemma EncodedDecodes(fs: seq<Filter>, i: nat)
    requires i < |fs| && "" !in fs[i].tags
    ensures DecodesTo(EncodeFilters(fs)[i], fs[i])
  {
    FilterRoundTrip(fs[i]);
  }

  lemma {:induction false} FiltersRoundTrip(fs: seq<Filter>)
    requires forall i | 0 <= i < |fs| :: "" !in fs[i].tags
    ensures FiltersOf(EncodeFilters(fs)) == fs
  {
    forall i | 0 <= i < |fs| ensures DecodesTo(EncodeFilters(fs)[i], fs[i]) {
      EncodedDecodes(fs, i);
    }
    AllDecode(EncodeFilters(fs), fs);
  }

  /** Encoding a token and a non-empty filter list and decoding gives both back. */
  lemma {:induction false} RequestRoundTrip(token: string, fs: seq<Filter>)
    requires fs != [] && forall i | 0 <= i < |fs| :: "" !in fs[i].tags
    ensures ParseAbout(RequestArray(token, EncodeFilters(fs))) == Ok(Request(token, fs))
  {
    FiltersRoundTrip(fs);
    ArrayParses(token, EncodeFilters(fs));
  }
}
