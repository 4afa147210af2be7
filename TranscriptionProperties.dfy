/** What `transcribe_audio` promises about the list it returns, stated against
    reference definitions written independently of the client's code: the
    response shape the provider documents, the record each well-formed entry
    should give, and the ways the path to `words` can be cut short. */
module TranscriptionProperties {
  import opened PyJson
  import opened AsrDeepgram

  /** `m[key]` when present, `default` otherwise. */
  function FieldOr(m: map<string, Json>, key: string, default: Json): Json {
    if key in m then m[key] else default
  }

  /** The member `key` of a JSON object, if there is one. */
  function Member(v: Json, key: string): Option<Json> {
    if v.Obj? && key in v.fields then Some(v.fields[key]) else None
  }

  /** The first element of a non-empty JSON list. */
  function Head(v: Json): Option<Json> {
    if v.Arr? && v.elems != [] then Some(v.elems[0]) else None
  }

  /** The provider's documented shape, with every level present:
      `results.channels[0].alternatives[0].words`. */
  function WordsPath(j: Json): Option<Json> {
    var results :- Member(j, "results");
    var channels :- Member(results, "channels");
    var channel :- Head(channels);
    var alternatives :- Member(channel, "alternatives");
    var alternative :- Head(alternatives);
    Member(alternative, "words")
  }

  /** A time field the client converts without raising: absent, a number, or
      a bool. */
  predicate NumericOrAbsent(m: map<string, Json>, key: string) {
    key !in m || m[key].Num? || m[key].Bool?
  }

  /** The seconds such a field stands for: 0.0 when absent, a bool as 0 or 1. */
  function Seconds(m: map<string, Json>, key: string): real
    requires NumericOrAbsent(m, key)
  {
    if key !in m then 0.0
    else if m[key].Num? then m[key].number
    else if m[key].boolean then 1.0 else 0.0
  }

  /** An entry of `words` that is an object whose `start` and `end` are absent
      or numeric. */
  predicate WellFormedEntry(w: Json) {
    w.Obj? && NumericOrAbsent(w.fields, "start") && NumericOrAbsent(w.fields, "end")
  }

  /** The record a well-formed entry should give: its `word` as it is, or the
      empty string, and its times in seconds. */
  function Expected(w: Json): WordRec
    requires WellFormedEntry(w)
  {
    WordRec(FieldOr(w.fields, "word", Str("")), Seconds(w.fields, "start"), Seconds(w.fields, "end"))
  }

  /** Some level of the path to `words` is absent, while every level above it
      is present with the shape the next step needs. */
  predicate LevelAbsent(j: Json) {
    j.Obj? &&
    ("results" !in j.fields ||
     (var results := j.fields["results"];
      results.Obj? &&
      ("channels" !in results.fields ||
       (var channels := results.fields["channels"];
        channels.Arr? && channels.elems != [] && channels.elems[0].Obj? &&
        ("alternatives" !in channels.elems[0].fields ||
         (var alternatives := channels.elems[0].fields["alternatives"];
          alternatives.Arr? && alternatives.elems != [] && alternatives.elems[0].Obj? &&
          "words" !in alternatives.elems[0].fields))))))
  }

  /** `channels`, or `alternatives` under a first channel, is present but an
      empty list, so `[0]` raises. */
  predicate EmptyListIndexed(j: Json) {
    j.Obj? && "results" in j.fields &&
    var results := j.fields["results"];
    results.Obj? && "channels" in results.fields &&
    var channels := results.fields["channels"];
    channels.Arr? &&
    (channels.elems == [] ||
     (channels.elems[0].Obj? && "alternatives" in channels.elems[0].fields &&
      channels.elems[0].fields["alternatives"] == Arr([])))
  }

  /** One entry: `word` passes through unchanged (default ""), `start` and
      `end` default to 0.0 and go through `float(...)`; the first field that
      cannot be converted decides the exception. */
  lemma WordRecordFields(w: Json, parse: FloatParser)
    requires w.Obj?
    ensures var start, end := ToFloat(FieldOr(w.fields, "start", Num(0.0)), parse),
                              ToFloat(FieldOr(w.fields, "end", Num(0.0)), parse);
      && (WordRecord(w, parse).Ok? <==> start.Ok? && end.Ok?)
      && (WordRecord(w, parse).Ok? ==>
            WordRecord(w, parse).value == WordRec(FieldOr(w.fields, "word", Str("")), start.value, end.value))
      && (start.Err? ==> WordRecord(w, parse) == Err(start.error))
      && (start.Ok? && end.Err? ==> WordRecord(w, parse) == Err(end.error))
  {
  }

  /** A well-formed entry gives exactly its expected record. */
  lemma WellFormedEntryRecord(w: Json, parse: FloatParser)
    requires WellFormedEntry(w)
    ensures WordRecord(w, parse) == Ok(Expected(w))
  {
  }

  /** `null` as a time raises `TypeError`, and so does a list or an object. */
  lemma UnconvertibleTime(w: Json, key: string, parse: FloatParser)
    requires w.Obj? && key in w.fields && (key == "start" || key == "end")
    requires w.fields[key].Null? || w.fields[key].Arr? || w.fields[key].Obj?
    requires key == "end" ==> NumericOrAbsent(w.fields, "start")
    ensures WordRecord(w, parse) == Err(TypeError)
  {
  }

  /** The loop is all or nothing: it yields a list exactly when every entry
      converts, that list holds one record per entry in the entries' order,
      and otherwise the exception is the one of the first entry that fails. */
  lemma {:induction false} MapWordsAllOrNothing(items: seq<Json>, parse: FloatParser)
    ensures MapWords(items, parse).Ok? <==>
      forall i :: 0 <= i < |items| ==> WordRecord(items[i], parse).Ok?
    ensures MapWords(items, parse).Ok? ==>
      forall i :: 0 <= i < |items| ==> WordRecord(items[i], parse) == Ok(MapWords(items, parse).value[i])
    ensures MapWords(items, parse).Err? ==>
      exists k :: 0 <= k < |items| && WordRecord(items[k], parse) == Err(MapWords(items, parse).error) &&
        forall i :: 0 <= i < k ==> WordRecord(items[i], parse).Ok?
  {
    if items != [] {
      var rest := items[1..];
      MapWordsAllOrNothing(rest, parse);
      assert forall i :: 1 <= i < |items| ==> items[i] == rest[i - 1];
      if WordRecord(items[0], parse).Ok? && MapWords(rest, parse).Err? {
        var k :| 0 <= k < |rest| && WordRecord(rest[k], parse) == Err(MapWords(rest, parse).error) &&
          forall i :: 0 <= i < k ==> WordRecord(rest[i], parse).Ok?;
        assert WordRecord(items[k + 1], parse) == Err(MapWords(items, parse).error);
      }
    }
  }

  /** N well-formed entries give exactly N records, in the entries' order,
      each the expected one. */
  lemma {:induction false} MapWordsWellFormed(items: seq<Json>, parse: FloatParser)
    requires forall i :: 0 <= i < |items| ==> WellFormedEntry(items[i])
    ensures MapWords(items, parse).Ok?
    ensures |MapWords(items, parse).value| == |items|
    ensures forall i :: 0 <= i < |items| ==> MapWords(items, parse).value[i] == Expected(items[i])
  {
    forall i | 0 <= i < |items| ensures WordRecord(items[i], parse) == Ok(Expected(items[i])) {
      WellFormedEntryRecord(items[i], parse);
    }
    MapWordsAllOrNothing(items, parse);
  }

  /** On a response of the documented shape the defaulting navigation finds
      the same `words` value as the strict path. */
  lemma NavigateFollowsPath(j: Json)
    requires WordsPath(j).Some?
    ensures Navigate(j) == Ok(WordsPath(j).value)
  {
  }

  /** A 200 response of the documented shape whose N entries are well formed
      yields exactly N records, in order, each the expected one, and logs
      nothing. */
  lemma WellFormedResponse(j: Json, items: seq<Json>, parse: FloatParser)
    requires WordsPath(j) == Some(Arr(items))
    requires forall i :: 0 <= i < |items| ==> WellFormedEntry(items[i])
    ensures var r := Normalize(HttpOk, Some(j), parse);
      && !r.errorLogged
      && |r.words| == |items|
      && forall i :: 0 <= i < |items| ==> r.words[i] == Expected(items[i])
  {
    NavigateFollowsPath(j);
    MapWordsWellFormed(items, parse);
  }

  /** Once `words` has been reached and iterated, the reply is all or
      nothing: every entry converts and the reply holds one record per entry,
      or some entry fails and the reply is an empty list with an error
      logged, never a partial list. */
  lemma AllOrNothing(j: Json, items: seq<Json>, parse: FloatParser)
    requires Navigate(j).Ok? && Iterate(Navigate(j).value) == Ok(items)
    ensures var r := Normalize(HttpOk, Some(j), parse);
      (forall i :: 0 <= i < |items| ==> WordRecord(items[i], parse).Ok?) ==>
        && !r.errorLogged
        && |r.words| == |items|
        && forall i :: 0 <= i < |items| ==> WordRecord(items[i], parse) == Ok(r.words[i])
    ensures (exists i :: 0 <= i < |items| && WordRecord(items[i], parse).Err?) ==>
      Normalize(HttpOk, Some(j), parse) == Reply([], true)
  {
    MapWordsAllOrNothing(items, parse);
  }

  /** A missing `results`, `channels`, `alternatives` or `words` is not an
      error: the reply is the empty list and nothing is logged. */
  lemma AbsentLevelYieldsEmpty(j: Json, parse: FloatParser)
    requires LevelAbsent(j)
    ensures Navigate(j) == Ok(Arr([]))
    ensures Normalize(HttpOk, Some(j), parse) == Reply([], false)
  {
  }

  /** A present but empty `channels` or `alternatives` list makes `[0]` raise
      `IndexError`; it is caught, so the reply is the empty list with an
      error logged. */
  lemma EmptyListIndexedRaises(j: Json, parse: FloatParser)
    requires EmptyListIndexed(j)
    ensures Extract(j, parse) == Err(IndexError)
    ensures Normalize(HttpOk, Some(j), parse) == Reply([], true)
  {
  }

  /** A one-word response: `hi` from 0.1 s to 0.3 s. */
  lemma OneWordExample(parse: FloatParser)
    ensures var word := Obj(map["word" := Str("hi"), "start" := Num(0.1), "end" := Num(0.3)]);
      var alternative := Obj(map["words" := Arr([word])]);
      var channel := Obj(map["alternatives" := Arr([alternative])]);
      var body := Obj(map["results" := Obj(map["channels" := Arr([channel])])]);
      Normalize(HttpOk, Some(body), parse) == Reply([WordRec(Str("hi"), 0.1, 0.3)], false)
  {
  }

  /** The empty object `{}` yields `[]` without an error. */
  lemma EmptyObjectExample(parse: FloatParser)
    ensures Normalize(HttpOk, Some(Obj(map[])), parse) == Reply([], false)
  {
  }
}
