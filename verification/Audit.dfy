/** Canonical text and fingerprints of replay inputs: redaction, key order, row order. */
module Audit {
  import opened Common
  import opened Sorting

  /** JSON values. Numbers carry their printed token; objects keep the insertion order of their keys. */
  datatype Json = Null | Bool(b: bool) | Num(token: string) | Str(text: string) | Arr(items: seq<Json>)
                | Obj(fields: seq<(string, Json)>)

  // ----- redaction

  function LowerChar(c: char): char {
    if 'A' <= c <= 'Z' then c + 32 as char else c
  }

  function Lower(s: string): string {
    seq(|s|, i requires 0 <= i < |s| => LowerChar(s[i]))
  }

  predicate FoundAt(text: string, part: string, i: int) {
    0 <= i <= |text| - |part| && text[i..i + |part|] == part
  }

  predicate Contains(text: string, part: string) {
    exists i | 0 <= i <= |text| :: FoundAt(text, part, i)
  }

  predicate SensitiveKey(key: string) {
    var k := Lower(key);
    || Contains(k, "api_key") || Contains(k, "apikey") || Contains(k, "token") || Contains(k, "secret")
    || Contains(k, "password") || Contains(k, "database_url") || Contains(k, "fmp")
  }

  predicate SensitiveText(text: string) {
    var t := Lower(text);
    Contains(t, "fmp_api_key") || Contains(t, "database_url") || Contains(t, "password=")
  }

  const REDACTED := Str("[redacted]")

  function Scrub(v: Json): Json {
    match v
    case Obj(fields) => Obj(seq(|fields|, i requires 0 <= i < |fields| => ScrubField(fields[i])))
    case Arr(items) => Arr(seq(|items|, i requires 0 <= i < |items| => Scrub(items[i])))
    case Str(text) => if SensitiveText(text) then REDACTED else v
    case _ => v
  }

  function ScrubField(f: (string, Json)): (string, Json) {
    (f.0, if SensitiveKey(f.0) then REDACTED else Scrub(f.1))
  }

  /** Nothing secret in sight: sensitive keys hold the redaction mark, no text carries a secret. */
  predicate Clean(v: Json) {
    match v
    case Obj(fields) =>
      forall i :: 0 <= i < |fields| ==>
        if SensitiveKey(fields[i].0) then fields[i].1 == REDACTED else Clean(fields[i].1)
    case Arr(items) => forall i :: 0 <= i < |items| ==> Clean(items[i])
    case Str(text) => !SensitiveText(text)
    case _ => true
  }

  /** The dictionary- and list-filling loops of the source. */
  method ScrubValue(v: Json) returns (r: Json)
    ensures r == Scrub(v)
    decreases v
  {
    match v
    case Obj(fields) =>
      var output: seq<(string, Json)> := [];
      for i := 0 to |fields|
        invariant |output| == i && forall j :: 0 <= j < i ==> output[j] == ScrubField(fields[j])
      {
        if SensitiveKey(fields[i].0) {
          output := output + [(fields[i].0, REDACTED)];
        } else {
          var item := ScrubValue(fields[i].1);
          output := output + [(fields[i].0, item)];
        }
      }
      r := Obj(output);
      assert output == Scrub(v).fields;
    case Arr(items) =>
      var output: seq<Json> := [];
      for i := 0 to |items|
        invariant |output| == i && forall j :: 0 <= j < i ==> output[j] == Scrub(items[j])
      {
        var item := ScrubValue(items[i]);
        output := output + [item];
      }
      r := Arr(output);
      assert output == Scrub(v).items;
    case Str(text) =>
      r := if SensitiveText(text) then REDACTED else v;
    case _ =>
      r := v;
  }

  lemma TheMarkIsClean()
    ensures Clean(REDACTED)
  {
    var t := Lower("[redacted]");
    assert |t| == 10 && t[0] == '[' && t[1] == 'r';
    assert t[0..9][0] == '[' && t[1..10][0] == 'r';
    assert "password="[0] == 'p';
  }

  /** Redaction removes every secret, at any depth. */
  lemma {:induction false} ScrubCleans(v: Json)
    ensures Clean(Scrub(v))
    decreases v
  {
    hide SensitiveKey, SensitiveText;
    TheMarkIsClean();
    match v
    case Obj(fields) =>
      forall i | 0 <= i < |fields|
        ensures var f := Scrub(v).fields[i]; if SensitiveKey(f.0) then f.1 == REDACTED else Clean(f.1)
      {
        ScrubCleans(fields[i].1);
      }
    case Arr(items) =>
      forall i | 0 <= i < |items|
        ensures Clean(Scrub(items[i]))
      {
        ScrubCleans(items[i]);
      }
    case _ =>
  }

  /** Redaction leaves alone exactly the values that hold no secret. */
  lemma {:induction false} ScrubFixesExactlyTheClean(v: Json)
    ensures Scrub(v) == v <==> Clean(v)
    decreases v
  {
    hide SensitiveKey, SensitiveText;
    ScrubCleans(v);
    if Clean(v) {
      match v
      case Obj(fields) =>
        forall i | 0 <= i < |fields|
          ensures ScrubField(fields[i]) == fields[i]
        {
          ScrubFixesExactlyTheClean(fields[i].1);
        }
        assert Scrub(v).fields == fields;
      case Arr(items) =>
        forall i | 0 <= i < |items|
          ensures Scrub(items[i]) == items[i]
        {
          ScrubFixesExactlyTheClean(items[i]);
        }
        assert Scrub(v).items == items;
      case _ =>
    }
  }

  lemma ScrubIsIdempotent(v: Json)
    ensures Scrub(Scrub(v)) == Scrub(v)
  {
    ScrubCleans(v);
    ScrubFixesExactlyTheClean(Scrub(v));
  }

  // ----- canonical text

  function Join(parts: seq<string>): string {
    if parts == [] then "" else if |parts| == 1 then parts[0] else parts[0] + "," + Join(parts[1..])
  }

  function KeyText(escape: string -> string): ((string, string)) -> string {
    (f: (string, string)) => "\"" + escape(f.0) + "\":" + f.1
  }

  function FieldName(): ((string, string)) -> string {
    (f: (string, string)) => f.0
  }

  /** `json.dumps` with sorted keys and tight separators; string escaping is a parameter. */
  function Dumps(v: Json, escape: string -> string): string {
    match v
    case Null => "null"
    case Bool(b) => if b then "true" else "false"
    case Num(token) => token
    case Str(text) => "\"" + escape(text) + "\""
    case Arr(items) => ArrayText(seq(|items|, i requires 0 <= i < |items| => Dumps(items[i], escape)))
    case Obj(fields) =>
      ObjectText(seq(|fields|, i requires 0 <= i < |fields| => (fields[i].0, Dumps(fields[i].1, escape))), escape)
  }

  function ArrayText(items: seq<string>): string {
    "[" + Join(items) + "]"
  }

  function ObjectText(fields: seq<(string, string)>, escape: string -> string): string {
    "{" + Join(Map(SortBy(fields, FieldName(), StrLe()), KeyText(escape))) + "}"
  }

  function StableJson(escape: string -> string): Json -> string {
    v => Dumps(Scrub(v), escape)
  }

  /** Keys of a dictionary occur once. */
  ghost predicate NamedOnce(fields: seq<(string, Json)>) {
    DistinctKeys(fields, KeyName())
  }

  function KeyName(): ((string, Json)) -> string {
    (f: (string, Json)) => f.0
  }

  /** Position of the first field of a name, or the length. */
  function Where(fields: seq<(string, Json)>, name: string): (k: nat)
    ensures k <= |fields|
    ensures k < |fields| ==> fields[k].0 == name
    ensures forall i :: 0 <= i < k ==> fields[i].0 != name
  {
    if fields == [] || fields[0].0 == name then 0
    else
      var k := Where(fields[1..], name);
      assert forall i :: 0 < i < 1 + k ==> fields[i] == fields[1..][i - 1];
      1 + k
  }

  predicate Has(fields: seq<(string, Json)>, name: string) {
    Where(fields, name) < |fields|
  }

  /** Equal up to the order of keys, at any depth: the same names, with values alike. */
  ghost predicate Alike(a: Json, b: Json)
    decreases a
  {
    a == b ||
    match (a, b)
    case (Arr(xs), Arr(ys)) => |xs| == |ys| && forall i :: 0 <= i < |xs| ==> Alike(xs[i], ys[i])
    case (Obj(fs), Obj(gs)) =>
      && NamedOnce(fs) && NamedOnce(gs)
      && (forall j :: 0 <= j < |gs| ==> Has(fs, gs[j].0))
      && (forall i :: 0 <= i < |fs| ==> Has(gs, fs[i].0) && Alike(fs[i].1, gs[Where(gs, fs[i].0)].1))
    case _ => false
  }

  /** The order of keys, at whatever depth, does not reach the text. */
  lemma {:induction false} KeyOrderDoesNotMatter(a: Json, b: Json, escape: string -> string)
    requires Alike(a, b)
    ensures StableJson(escape)(a) == StableJson(escape)(b)
    decreases a
  {
    hide StableJson, NamedOnce, Paired, Where;
    if a != b {
      match (a, b)
      case (Arr(xs), Arr(ys)) =>
        forall i | 0 <= i < |xs|
          ensures StableJson(escape)(xs[i]) == StableJson(escape)(ys[i])
        {
          KeyOrderDoesNotMatter(xs[i], ys[i], escape);
        }
        SameItemTexts(xs, ys, escape);
      case (Obj(fs), Obj(gs)) =>
        forall i | 0 <= i < |fs|
          ensures Paired(fs[i], gs, escape)
        {
          KeyOrderDoesNotMatter(fs[i].1, gs[Where(gs, fs[i].0)].1, escape);
          PairOf(fs[i], gs, escape);
        }
        SameFieldTexts(fs, gs, escape);
      case _ =>
    }
  }

  /** The field of the same name has the same text. */
  ghost predicate Paired(f: (string, Json), gs: seq<(string, Json)>, escape: string -> string) {
    Has(gs, f.0) && FieldText(escape)(f) == FieldText(escape)(gs[Where(gs, f.0)])
  }

  lemma PairOf(f: (string, Json), gs: seq<(string, Json)>, escape: string -> string)
    requires Has(gs, f.0) && StableJson(escape)(f.1) == StableJson(escape)(gs[Where(gs, f.0)].1)
    ensures Paired(f, gs, escape)
  {
    hide Scrub, Dumps, SensitiveKey;
  }

  lemma TextIsThere(f: (string, Json), gs: seq<(string, Json)>, escape: string -> string)
    requires Paired(f, gs, escape)
    ensures FieldText(escape)(f) in Map(gs, FieldText(escape))
  {
    hide FieldText;
    assert Map(gs, FieldText(escape))[Where(gs, f.0)] == FieldText(escape)(f);
  }

  lemma TextIsBack(fs: seq<(string, Json)>, gs: seq<(string, Json)>, j: nat, escape: string -> string)
    requires j < |gs| && NamedOnce(gs) && Has(fs, gs[j].0) && Paired(fs[Where(fs, gs[j].0)], gs, escape)
    ensures FieldText(escape)(gs[j]) in Map(fs, FieldText(escape))
  {
    hide FieldText;
    var i := Where(fs, gs[j].0);
    assert Where(gs, fs[i].0) == j;
    assert Map(fs, FieldText(escape))[i] == FieldText(escape)(gs[j]);
  }

  /** Objects with the same field texts have the same text. */
  lemma SameFieldTexts(fs: seq<(string, Json)>, gs: seq<(string, Json)>, escape: string -> string)
    requires NamedOnce(fs) && NamedOnce(gs)
    requires forall j :: 0 <= j < |gs| ==> Has(fs, gs[j].0)
    requires forall i :: 0 <= i < |fs| ==> Paired(fs[i], gs, escape)
    ensures StableJson(escape)(Obj(fs)) == StableJson(escape)(Obj(gs))
  {
    hide FieldText, StableJson, NamedOnce, Paired;
    var ts, us := Map(fs, FieldText(escape)), Map(gs, FieldText(escape));
    forall t | t in ts
      ensures t in us
    {
      var i :| 0 <= i < |ts| && ts[i] == t;
      TextIsThere(fs[i], gs, escape);
    }
    forall u | u in us
      ensures u in ts
    {
      var j :| 0 <= j < |us| && us[j] == u;
      TextIsBack(fs, gs, j, escape);
    }
    TextsNamedOnce(fs, escape);
    TextsNamedOnce(gs, escape);
    SameObjectText(ts, us, escape);
    ObjectIsItsFieldTexts(fs, escape);
    ObjectIsItsFieldTexts(gs, escape);
  }

  lemma SameItemTexts(xs: seq<Json>, ys: seq<Json>, escape: string -> string)
    requires |xs| == |ys| && forall i :: 0 <= i < |xs| ==> StableJson(escape)(xs[i]) == StableJson(escape)(ys[i])
    ensures StableJson(escape)(Arr(xs)) == StableJson(escape)(Arr(ys))
  {
    hide StableJson, ArrayText;
    ArrayIsItsItemTexts(xs, escape);
    ArrayIsItsItemTexts(ys, escape);
    assert Map(xs, StableJson(escape)) == Map(ys, StableJson(escape));
  }

  lemma SameObjectText(ts: seq<(string, string)>, us: seq<(string, string)>, escape: string -> string)
    requires DistinctKeys(ts, FieldName()) && DistinctKeys(us, FieldName()) && forall t :: t in ts <==> t in us
    ensures ObjectText(ts, escape) == ObjectText(us, escape)
  {
    StringOrder();
    CountAtMostOnce(ts, FieldName());
    CountAtMostOnce(us, FieldName());
    assert multiset(ts) == multiset(us);
    SortPermutation(ts, us, FieldName(), StrLe());
  }

  lemma TextsNamedOnce(fields: seq<(string, Json)>, escape: string -> string)
    requires NamedOnce(fields)
    ensures DistinctKeys(Map(fields, FieldText(escape)), FieldName())
  {
    hide FieldText;
    forall i, j | 0 <= i < j < |fields|
      ensures FieldText(escape)(fields[i]).0 != FieldText(escape)(fields[j]).0
    {
      FieldTextKeepsName(fields[i], escape);
      FieldTextKeepsName(fields[j], escape);
    }
  }

  /** In particular for a permutation of the keys of one object. */
  lemma PermutedKeysDoNotMatter(fields: seq<(string, Json)>, fields': seq<(string, Json)>, escape: string -> string)
    requires multiset(fields) == multiset(fields') && NamedOnce(fields)
    ensures StableJson(escape)(Obj(fields)) == StableJson(escape)(Obj(fields'))
  {
    hide StableJson, FieldText;
    StringOrder();
    TextsNamedOnce(fields, escape);
    MapPermutation(fields, fields', FieldText(escape));
    SortPermutation(Map(fields, FieldText(escape)), Map(fields', FieldText(escape)), FieldName(), StrLe());
    ObjectIsItsFieldTexts(fields, escape);
    ObjectIsItsFieldTexts(fields', escape);
  }

  /** A field as it enters the object's text. */
  function FieldText(escape: string -> string): ((string, Json)) -> (string, string) {
    (f: (string, Json)) => (ScrubField(f).0, Dumps(ScrubField(f).1, escape))
  }

  lemma FieldTextKeepsName(f: (string, Json), escape: string -> string)
    ensures FieldText(escape)(f).0 == f.0
  {
  }

  lemma ObjectIsItsFieldTexts(fields: seq<(string, Json)>, escape: string -> string)
    ensures StableJson(escape)(Obj(fields)) == ObjectText(Map(fields, FieldText(escape)), escape)
  {
    hide ObjectText, ScrubField;
    var scrubbed := Scrub(Obj(fields)).fields;
    assert seq(|scrubbed|, i requires 0 <= i < |scrubbed| => (scrubbed[i].0, Dumps(scrubbed[i].1, escape)))
        == Map(fields, FieldText(escape));
  }

  lemma ArrayIsItsItemTexts(items: seq<Json>, escape: string -> string)
    ensures StableJson(escape)(Arr(items)) == ArrayText(Map(items, StableJson(escape)))
  {
    ScrubArray(items);
    DumpsArray(Scrub(Arr(items)).items, escape);
    hide ArrayText, Scrub, Dumps;
    assert Map(Scrub(Arr(items)).items, Text(escape)) == Map(items, StableJson(escape));
  }

  function Text(escape: string -> string): Json -> string {
    v => Dumps(v, escape)
  }

  lemma ScrubArray(items: seq<Json>)
    ensures Scrub(Arr(items)).Arr? && |Scrub(Arr(items)).items| == |items|
    ensures forall i :: 0 <= i < |items| ==> Scrub(Arr(items)).items[i] == Scrub(items[i])
  {
  }

  lemma DumpsArray(items: seq<Json>, escape: string -> string)
    ensures Dumps(Arr(items), escape) == ArrayText(Map(items, Text(escape)))
  {
    hide ArrayText, ObjectText;
    assert seq(|items|, i requires 0 <= i < |items| => Dumps(items[i], escape)) == Map(items, Text(escape));
  }

  // ----- fingerprints

  /** The text that is hashed: a version, and the rows sorted by their own canonical text. */
  function Preimage(version: string, name: string, rows: seq<Json>, escape: string -> string): string {
    StableJson(escape)(Obj([("version", Str(version)), (name, Arr(SortBy(rows, StableJson(escape), StrLe())))]))
  }

  /** Reordering rows never changes the hashed text, ties included: rows that tie have equal text. */
  lemma RowOrderDoesNotMatter(version: string, name: string, rows: seq<Json>, rows': seq<Json>,
                              escape: string -> string)
    requires multiset(rows) == multiset(rows')
    ensures Preimage(version, name, rows, escape) == Preimage(version, name, rows', escape)
  {
    hide Scrub, SortBy, ObjectText, Dumps, SensitiveKey;
    StringOrder();
    var a, b := SortBy(rows, StableJson(escape), StrLe()), SortBy(rows', StableJson(escape), StrLe());
    SortKeysPermutation(rows, rows', StableJson(escape), StrLe());
    ArrayIsItsItemTexts(a, escape);
    ArrayIsItsItemTexts(b, escape);
    SameDocument(("version", Str(version)), name, Arr(a), Arr(b), escape);
  }

  /** A document's text depends on a field only through the text of that field. */
  lemma SameDocument(head: (string, Json), name: string, a: Json, b: Json, escape: string -> string)
    requires StableJson(escape)(a) == StableJson(escape)(b)
    ensures StableJson(escape)(Obj([head, (name, a)])) == StableJson(escape)(Obj([head, (name, b)]))
  {
    var fa, fb := [head, (name, a)], [head, (name, b)];
    ObjectIsItsFieldTexts(fa, escape);
    ObjectIsItsFieldTexts(fb, escape);
    hide Scrub, ObjectText, Dumps, SensitiveKey;
    assert FieldText(escape)(fa[1]) == FieldText(escape)(fb[1]);
    assert Map(fa, FieldText(escape)) == Map(fb, FieldText(escape));
  }

  function Field(v: Json, name: string): Json {
    if v.Obj? then Lookup(v.fields, name) else Null
  }

  function Lookup(fields: seq<(string, Json)>, name: string): Json {
    if fields == [] then Null else if fields[0].0 == name then fields[0].1 else Lookup(fields[1..], name)
  }

  predicate Falsy(v: Json) {
    v == Null || v == Bool(false) || v == Str("") || v == Arr([]) || v == Obj([])
    || v == Num("0") || v == Num("0.0") || v == Num("-0.0")
  }

  function Either(v: Json, otherwise: Json): Json {
    if Falsy(v) then otherwise else v
  }

  type Fields = seq<(string, Json)>

  /** Who signalled what, when and with which score. */
  function Signal(c: Json): Fields {
    [("candidate_id", Field(c, "candidate_id")), ("symbol", Field(c, "symbol")),
     ("interval", Either(Field(c, "interval"), Str("1min"))),
     ("timestamp_utc", Either(Field(c, "timestamp_utc"), Field(c, "timestamp"))),
     ("side", Field(c, "side")), ("setup_type", Field(c, "setup_type")),
     ("confidence_score", Either(Field(c, "confidence_score"), Field(c, "signal_score"))),
     ("expected_r", Field(c, "expected_r"))]
  }

  function Targets(c: Json): Fields {
    [("target_1", Field(c, "target_1")), ("target_2", Field(c, "target_2")), ("target_3", Field(c, "target_3")),
     ("stop_price", Field(c, "stop_price"))]
  }

  function Grounds(c: Json): Fields {
    [("entry_context", Either(Field(c, "entry_context"), Obj([]))),
     ("invalidation_context", Either(Field(c, "invalidation_context"), Obj([]))),
     ("targets", Obj(Targets(c))),
     ("reason_codes", Either(Field(c, "reason_codes"), Arr([]))),
     ("warning_codes", Either(Field(c, "warning_codes"), Arr([])))]
  }

  /** The row a candidate contributes to its fingerprint. */
  function CandidateRow(): Json -> Json {
    c => Obj(Signal(c) + Grounds(c))
  }

  function CandidatePreimage(candidates: seq<Json>, escape: string -> string): string {
    Preimage("candidate_signals.v1", "candidates", Map(candidates, CandidateRow()), escape)
  }

  /** The row-appending loop over candidates. */
  method CandidateFingerprintText(candidates: seq<Json>, escape: string -> string) returns (text: string)
    ensures text == CandidatePreimage(candidates, escape)
  {
    hide CandidateRow, Preimage, StableJson, SortBy;
    var rows: seq<Json> := [];
    for i := 0 to |candidates|
      invariant rows == Map(candidates[..i], CandidateRow())
    {
      assert candidates[..i + 1] == candidates[..i] + [candidates[i]];
      MapSnoc(candidates[..i], candidates[i], CandidateRow());
      rows := rows + [CandidateRow()(candidates[i])];
    }
    assert candidates[..|candidates|] == candidates;
    text := Preimage("candidate_signals.v1", "candidates", rows, escape);
  }

  /** A candidate fingerprint does not depend on the order of the candidates, ties included. */
  lemma CandidateOrderDoesNotMatter(candidates: seq<Json>, candidates': seq<Json>, escape: string -> string)
    requires multiset(candidates) == multiset(candidates')
    ensures CandidatePreimage(candidates, escape) == CandidatePreimage(candidates', escape)
  {
    MapPermutation(candidates, candidates', CandidateRow());
    hide CandidateRow, Preimage;
    RowOrderDoesNotMatter("candidate_signals.v1", "candidates", Map(candidates, CandidateRow()),
                          Map(candidates', CandidateRow()), escape);
  }

  function BarRow(): Json -> Json {
    bar => Obj([
      ("symbol", Field(bar, "symbol")), ("interval", Field(bar, "interval")),
      ("timestamp_utc", Field(bar, "timestamp_utc")),
      ("open", Field(bar, "open")), ("high", Field(bar, "high")), ("low", Field(bar, "low")),
      ("close", Field(bar, "close")),
      ("volume", Field(bar, "volume")), ("vwap", Field(bar, "vwap")), ("source", Field(bar, "source")),
      ("quality_flags", Field(bar, "quality_flags"))])
  }

  function BarPreimage(bars: seq<Json>, escape: string -> string): string {
    Preimage("bars.ohlcv.v1", "bars", Map(bars, BarRow()), escape)
  }

  lemma BarOrderDoesNotMatter(bars: seq<Json>, bars': seq<Json>, escape: string -> string)
    requires multiset(bars) == multiset(bars')
    ensures BarPreimage(bars, escape) == BarPreimage(bars', escape)
  {
    MapPermutation(bars, bars', BarRow());
    hide BarRow, Preimage;
    RowOrderDoesNotMatter("bars.ohlcv.v1", "bars", Map(bars, BarRow()), Map(bars', BarRow()), escape);
  }
}
