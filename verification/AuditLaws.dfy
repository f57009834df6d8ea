/** What counts as secret, and which fields of a candidate or a bar reach its fingerprint. */
module AuditLaws {
  import opened Common
  import opened Sorting
  import opened Audit

  // ----- secrets

  /** The same letter, whatever its case in the text; the parts looked for are in lower case. */
  ghost predicate SameLetter(a: char, b: char) {
    a == b || ('a' <= b <= 'z' && a as int == b as int - 32)
  }

  ghost predicate MentionsAt(text: string, part: string, i: int) {
    0 <= i && i + |part| <= |text| && forall k :: 0 <= k < |part| ==> SameLetter(text[i + k], part[k])
  }

  /** The part occurs somewhere in the text. */
  ghost predicate Mentions(text: string, part: string) {
    exists i :: MentionsAt(text, part, i)
  }

  ghost predicate InLowerCase(part: string) {
    forall k :: 0 <= k < |part| ==> !('A' <= part[k] <= 'Z')
  }

  lemma LowerLetter(a: char, b: char)
    requires !('A' <= b <= 'Z')
    ensures LowerChar(a) == b <==> SameLetter(a, b)
  {
  }

  lemma FoundIsMentioned(text: string, part: string, i: int)
    requires InLowerCase(part)
    ensures FoundAt(Lower(text), part, i) <==> MentionsAt(text, part, i)
  {
    var t := Lower(text);
    hide LowerChar, SameLetter;
    if 0 <= i <= |t| - |part| {
      var slice := t[i..i + |part|];
      forall k | 0 <= k < |part|
        ensures slice[k] == LowerChar(text[i + k])
        ensures slice[k] == part[k] <==> SameLetter(text[i + k], part[k])
      {
        LowerLetter(text[i + k], part[k]);
      }
      assert slice == part <==> forall k :: 0 <= k < |part| ==> slice[k] == part[k];
    }
  }

  lemma ContainsIsMentions(text: string, part: string)
    requires InLowerCase(part)
    ensures Contains(Lower(text), part) <==> Mentions(text, part)
  {
    forall i
      ensures FoundAt(Lower(text), part, i) <==> MentionsAt(text, part, i)
    {
      FoundIsMentioned(text, part, i);
    }
    hide MentionsAt;
    if i :| MentionsAt(text, part, i) {
      assert FoundAt(Lower(text), part, i);
    }
  }

  /** A key is sensitive when it mentions one of seven words, in any case. */
  lemma SensitiveKeyExactly(key: string)
    ensures SensitiveKey(key) <==>
              exists part :: part in ["api_key", "apikey", "token", "secret", "password", "database_url", "fmp"]
                             && Mentions(key, part)
  {
    hide Contains, Lower, Mentions;
    ContainsIsMentions(key, "api_key");
    ContainsIsMentions(key, "apikey");
    ContainsIsMentions(key, "token");
    ContainsIsMentions(key, "secret");
    ContainsIsMentions(key, "password");
    ContainsIsMentions(key, "database_url");
    ContainsIsMentions(key, "fmp");
  }

  /** A text is sensitive when it mentions one of three. */
  lemma SensitiveTextExactly(text: string)
    ensures SensitiveText(text) <==>
              exists part :: part in ["fmp_api_key", "database_url", "password="] && Mentions(text, part)
  {
    hide Contains, Lower, Mentions;
    ContainsIsMentions(text, "fmp_api_key");
    ContainsIsMentions(text, "database_url");
    ContainsIsMentions(text, "password=");
  }

  // ----- canonical text

  /** Parts are separated by commas and nothing else. */
  lemma {:induction false} JoinAppends(xs: seq<string>, ys: seq<string>)
    requires xs != [] && ys != []
    ensures Join(xs + ys) == Join(xs) + "," + Join(ys)
    ensures |xs| == 1 ==> Join(xs) == xs[0]
  {
    assert (xs + ys)[1..] == xs[1..] + ys;
    if |xs| > 1 {
      JoinAppends(xs[1..], ys);
    } else {
      assert xs[1..] + ys == ys;
    }
  }

  /** The text of an object lists its fields once each, ordered by name. */
  lemma ObjectInOrder(fields: seq<(string, string)>, escape: string -> string) returns (ordered: seq<(string, string)>)
    ensures multiset(ordered) == multiset(fields)
    ensures forall i, j :: 0 <= i < j < |ordered| ==> Alphabetic(ordered[i].0, ordered[j].0)
    ensures ObjectText(fields, escape)
         == "{" + Join(seq(|ordered|, i requires 0 <= i < |ordered| =>
                    "\"" + escape(ordered[i].0) + "\":" + ordered[i].1)) + "}"
  {
    ordered := SortBy(fields, FieldName(), StrLe());
    StringOrder();
    SortSorted(fields, FieldName(), StrLe());
    hide SortBy, StringLe, Join;
    forall i, j | 0 <= i < j < |ordered|
      ensures Alphabetic(ordered[i].0, ordered[j].0)
    {
      assert StrLe()(FieldName()(ordered[i]), FieldName()(ordered[j]));
      StringLeIsAlphabetic(ordered[i].0, ordered[j].0);
    }
    assert seq(|ordered|, i requires 0 <= i < |ordered| => "\"" + escape(ordered[i].0) + "\":" + ordered[i].1)
        == Map(ordered, KeyText(escape));
  }

  /** Permuting the keys of an object leaves it alike, so what is said of values alike is said of it. */
  lemma PermutedAreAlike(fields: seq<(string, Json)>, fields': seq<(string, Json)>)
    requires multiset(fields) == multiset(fields') && NamedOnce(fields)
    ensures Alike(Obj(fields), Obj(fields'))
  {
    DistinctPermutation(fields, fields', KeyName());
    SameMembers(fields, fields');
    assert NamedOnce(fields');
    forall i | 0 <= i < |fields|
      ensures Has(fields', fields[i].0) && fields'[Where(fields', fields[i].0)] == fields[i]
    {
      FoundByName(fields', fields[i]);
    }
    forall j | 0 <= j < |fields'|
      ensures Has(fields, fields'[j].0)
    {
      FoundByName(fields, fields'[j]);
    }
  }

  lemma FoundByName(fields: seq<(string, Json)>, f: (string, Json))
    requires f in fields && NamedOnce(fields)
    ensures Has(fields, f.0) && fields[Where(fields, f.0)] == f
  {
    var i :| 0 <= i < |fields| && fields[i] == f;
    assert KeyName()(fields[i]) == f.0;
    var k := Where(fields, f.0);
    assert k <= i;
    assert KeyName()(fields[k]) == f.0;
  }

  // ----- fingerprinted fields

  ghost predicate First(fields: seq<(string, Json)>, name: string, k: int) {
    0 <= k < |fields| && fields[k].0 == name && forall m :: 0 <= m < k ==> fields[m].0 != name
  }

  /** The value of a dictionary under a name: that of its first field so named, null without one. */
  ghost predicate Holds(v: Json, name: string, value: Json) {
    if v.Obj? && exists k :: First(v.fields, name, k) then
      exists k :: First(v.fields, name, k) && v.fields[k].1 == value
    else value == Null
  }

  lemma {:induction false} LookupIs(fields: seq<(string, Json)>, name: string)
    ensures Holds(Obj(fields), name, Lookup(fields, name))
  {
    if fields != [] && fields[0].0 != name {
      var rest := fields[1..];
      LookupIs(rest, name);
      forall k | k > 0
        ensures First(fields, name, k) <==> First(rest, name, k - 1)
      {
        assert forall m :: 0 < m < |fields| ==> fields[m] == rest[m - 1];
      }
      assert !First(fields, name, 0);
      if n :| First(rest, name, n) && rest[n].1 == Lookup(rest, name) {
        assert First(fields, name, n + 1) && fields[n + 1] == rest[n];
      }
      if k :| First(fields, name, k) {
        assert First(rest, name, k - 1);
      }
    } else if fields != [] {
      assert First(fields, name, 0);
    }
  }

  lemma FieldIs(v: Json, name: string)
    ensures Holds(v, name, Field(v, name))
  {
    if v.Obj? {
      LookupIs(v.fields, name);
    }
  }

  /** Missing, false, empty or zero: then the alternative counts. */
  ghost predicate Blank(v: Json) {
    || v.Null? || v == Bool(false) || v == Str("") || v == Arr([]) || v == Obj([])
    || v in [Num("0"), Num("0.0"), Num("-0.0")]
  }

  ghost predicate Prefers(v: Json, otherwise: Json, value: Json) {
    (!Blank(v) && value == v) || (Blank(v) && value == otherwise)
  }

  /** A field of the row is the candidate's field of the same name. */
  ghost predicate Copied(c: Json, row: seq<(string, Json)>, k: nat, name: string) {
    k < |row| && row[k].0 == name && Holds(c, name, row[k].1)
  }

  /** Or, when that is blank, a constant. */
  ghost predicate Defaulted(c: Json, row: seq<(string, Json)>, k: nat, name: string, otherwise: Json) {
    k < |row| && row[k].0 == name && exists v :: Holds(c, name, v) && Prefers(v, otherwise, row[k].1)
  }

  /** Or another field. */
  ghost predicate Replaced(c: Json, row: seq<(string, Json)>, k: nat, name: string, other: string) {
    k < |row| && row[k].0 == name &&
    exists v, w :: Holds(c, name, v) && Holds(c, other, w) && Prefers(v, w, row[k].1)
  }

  lemma DefaultIs(c: Json, row: seq<(string, Json)>, k: nat, name: string, otherwise: Json)
    requires k < |row| && row[k] == (name, Either(Field(c, name), otherwise))
    ensures Defaulted(c, row, k, name, otherwise)
  {
    FieldIs(c, name);
    assert Prefers(Field(c, name), otherwise, row[k].1);
  }

  lemma ReplacementIs(c: Json, row: seq<(string, Json)>, k: nat, name: string, other: string)
    requires k < |row| && row[k] == (name, Either(Field(c, name), Field(c, other)))
    ensures Replaced(c, row, k, name, other)
  {
    FieldIs(c, name);
    FieldIs(c, other);
    assert Prefers(Field(c, name), Field(c, other), row[k].1);
  }

  lemma CopyIs(c: Json, row: seq<(string, Json)>, k: nat, name: string)
    requires k < |row| && row[k] == (name, Field(c, name))
    ensures Copied(c, row, k, name)
  {
    FieldIs(c, name);
  }

  /** The fields of a candidate that reach its fingerprint, each under its own name: copied, or replaced
      when blank by another field or a constant. */
  ghost predicate SignalIs(c: Json, row: seq<(string, Json)>) {
    && |row| == 8
    && Copied(c, row, 0, "candidate_id") && Copied(c, row, 1, "symbol") && Defaulted(c, row, 2, "interval", Str("1min"))
    && Replaced(c, row, 3, "timestamp_utc", "timestamp") && Copied(c, row, 4, "side") && Copied(c, row, 5, "setup_type")
    && Replaced(c, row, 6, "confidence_score", "signal_score") && Copied(c, row, 7, "expected_r")
  }

  ghost predicate GroundsAre(c: Json, row: seq<(string, Json)>) {
    && |row| == 5
    && Defaulted(c, row, 0, "entry_context", Obj([])) && Defaulted(c, row, 1, "invalidation_context", Obj([]))
    && row[2] == ("targets", Obj(Targets(c)))
    && Defaulted(c, row, 3, "reason_codes", Arr([])) && Defaulted(c, row, 4, "warning_codes", Arr([]))
  }

  ghost predicate TargetsAre(c: Json, row: seq<(string, Json)>) {
    && |row| == 4
    && Copied(c, row, 0, "target_1") && Copied(c, row, 1, "target_2") && Copied(c, row, 2, "target_3")
    && Copied(c, row, 3, "stop_price")
  }

  lemma SignalFields(c: Json)
    ensures SignalIs(c, Signal(c))
  {
    hide Copied, Defaulted, Replaced, Field, Either;
    var row := Signal(c);
    CopyIs(c, row, 0, "candidate_id");
    CopyIs(c, row, 1, "symbol");
    DefaultIs(c, row, 2, "interval", Str("1min"));
    ReplacementIs(c, row, 3, "timestamp_utc", "timestamp");
    CopyIs(c, row, 4, "side");
    CopyIs(c, row, 5, "setup_type");
    ReplacementIs(c, row, 6, "confidence_score", "signal_score");
    CopyIs(c, row, 7, "expected_r");
  }

  lemma GroundFields(c: Json)
    ensures GroundsAre(c, Grounds(c))
  {
    hide Defaulted, Field, Either, Targets;
    var row := Grounds(c);
    DefaultIs(c, row, 0, "entry_context", Obj([]));
    DefaultIs(c, row, 1, "invalidation_context", Obj([]));
    DefaultIs(c, row, 3, "reason_codes", Arr([]));
    DefaultIs(c, row, 4, "warning_codes", Arr([]));
  }

  lemma TargetFields(c: Json)
    ensures TargetsAre(c, Targets(c))
  {
    hide Copied, Field;
    var row := Targets(c);
    CopyIs(c, row, 0, "target_1");
    CopyIs(c, row, 1, "target_2");
    CopyIs(c, row, 2, "target_3");
    CopyIs(c, row, 3, "stop_price");
  }

  lemma CandidateFields(c: Json)
    ensures var row := CandidateRow()(c);
            row.Obj? && |row.fields| == 13 && SignalIs(c, row.fields[..8]) && GroundsAre(c, row.fields[8..])
    ensures TargetsAre(c, Targets(c))
  {
    SignalFields(c);
    GroundFields(c);
    TargetFields(c);
    hide Signal, Grounds, Targets, Copied, Defaulted, Replaced;
    assert (Signal(c) + Grounds(c))[..8] == Signal(c) && (Signal(c) + Grounds(c))[8..] == Grounds(c);
  }

  /** The fields of a bar, in their order. */
  lemma BarFields(bar: Json)
    ensures var row := BarRow()(bar).fields;
            var names := ["symbol", "interval", "timestamp_utc", "open", "high", "low", "close", "volume", "vwap",
                          "source", "quality_flags"];
            |row| == |names| && forall k :: 0 <= k < |names| ==> Copied(bar, row, k, names[k])
  {
    var row := BarRow()(bar).fields;
    var names := ["symbol", "interval", "timestamp_utc", "open", "high", "low", "close", "volume", "vwap", "source",
                  "quality_flags"];
    hide Copied, Field;
    forall k | 0 <= k < |names|
      ensures Copied(bar, row, k, names[k])
    {
      assert row[k] == (names[k], Field(bar, names[k]));
      CopyIs(bar, row, k, names[k]);
    }
  }
}
