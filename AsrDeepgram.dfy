/** The response-normalisation step of the speech-recognition client
    `transcribe_audio`: from the HTTP status and the decoded JSON body of the
    provider's reply to the list of `{word, start, end}` records it returns.
    The session, the upload and the file handle are outside the model: their
    outcome is the pair (status, body) taken as input, and `body == None`
    stands for `response.json()` raising. */
module AsrDeepgram {
  import opened PyJson

  /** One returned record. `word` is whatever the entry held under "word"
      (it is not converted to a string); `start` and `end` went through
      `float(...)`. */
  datatype WordRec = WordRec(word: Json, start: real, end: real)

  /** What the caller sees: the records, and whether an error line was
      written to the log on the way. */
  datatype Reply = Reply(words: seq<WordRec>, errorLogged: bool)

  /** The HTTP status the client accepts. */
  const HttpOk := 200

  /** The chained lookup `result.get("results", {}).get("channels", [{}])[0]
      .get("alternatives", [{}])[0].get("words", [])`: an absent key falls
      back to its default, a wrongly shaped level raises. */
  function Navigate(result: Json): (r: Result<Json>)
    ensures r.Ok? ==> result.Obj?
    ensures !result.Obj? ==> r == Err(AttributeError)
  {
    var results :- Get(result, "results", Obj(map[]));
    var channels :- Get(results, "channels", Arr([Obj(map[])]));
    var channel :- Index0(channels);
    var alternatives :- Get(channel, "alternatives", Arr([Obj(map[])]));
    var alternative :- Index0(alternatives);
    Get(alternative, "words", Arr([]))
  }

  /** The record built from one entry of `words`: `w.get("word", "")`,
      `float(w.get("start", 0.0))`, `float(w.get("end", 0.0))`, in that order. */
  function WordRecord(w: Json, parse: FloatParser): (r: Result<WordRec>)
    ensures !w.Obj? ==> r == Err(AttributeError)
  {
    var word :- Get(w, "word", Str(""));
    // once the first `get` succeeded, `w` is a dict and the next two succeed too
    var start :- ToFloat(Get(w, "start", Num(0.0)).value, parse);
    var end :- ToFloat(Get(w, "end", Num(0.0)).value, parse);
    Ok(WordRec(word, start, end))
  }

  /** The records of all entries, in order; the first entry that raises ends
      the loop with its exception, so no partial list escapes. */
  function MapWords(items: seq<Json>, parse: FloatParser): (r: Result<seq<WordRec>>)
    ensures r.Ok? ==> |r.value| == |items|
    decreases |items|
  {
    if items == [] then Ok([]) else Prepend(WordRecord(items[0], parse), MapWords(items[1..], parse))
  }

  /** The first record in front of the others, the first exception winning. */
  function Prepend(first: Result<WordRec>, rest: Result<seq<WordRec>>): (r: Result<seq<WordRec>>)
    ensures r.Ok? <==> first.Ok? && rest.Ok?
    ensures r.Ok? ==> r.value == [first.value] + rest.value
    ensures first.Err? ==> r == Err(first.error)
    ensures first.Ok? && rest.Err? ==> r == Err(rest.error)
  {
    var f :- first;
    var rs :- rest;
    Ok([f] + rs)
  }

  /** Two runs of the loop one after the other: the first run's exception
      wins, then the second's. */
  function Concat(a: Result<seq<WordRec>>, b: Result<seq<WordRec>>): (r: Result<seq<WordRec>>)
  {
    var x :- a;
    var y :- b;
    Ok(x + y)
  }

  /** Mapping a concatenation maps the first part, then the second. */
  lemma {:induction false} MapWordsAppend(s: seq<Json>, t: seq<Json>, parse: FloatParser)
    ensures MapWords(s + t, parse) == Concat(MapWords(s, parse), MapWords(t, parse))
  {
    if s == [] {
      assert s + t == t;
      if MapWords(t, parse).Ok? {
        assert [] + MapWords(t, parse).value == MapWords(t, parse).value;
      }
    } else {
      var st := s + t;
      assert st[0] == s[0];
      assert st[1..] == s[1..] + t;
      MapWordsAppend(s[1..], t, parse);
      PrependConcat(WordRecord(s[0], parse), MapWords(s[1..], parse), MapWords(t, parse));
    }
  }

  /** Putting a record in front associates with running the loop twice. */
  lemma PrependConcat(h: Result<WordRec>, m: Result<seq<WordRec>>, n: Result<seq<WordRec>>)
    ensures Concat(Prepend(h, m), n) == Prepend(h, Concat(m, n))
  {
    if h.Ok? && m.Ok? && n.Ok? {
      assert [h.value] + m.value + n.value == [h.value] + (m.value + n.value);
    }
  }

  /** The loop `words = []; for w in items: words.append({...})`. */
  method CollectWords(items: seq<Json>, parse: FloatParser) returns (r: Result<seq<WordRec>>)
    ensures r == MapWords(items, parse)
  {
    var words: seq<WordRec> := [];
    var i := 0;
    while i < |items|
      invariant 0 <= i <= |items|
      invariant MapWords(items[..i], parse) == Ok(words)
    {
      var w := items[i];
      var rec := WordRecord(w, parse);
      if rec.Err? {
        assert items[..i] + items[i..] == items;
        assert items[i..][0] == w;
        MapWordsAppend(items[..i], items[i..], parse);
        return Err(rec.error);
      }
      assert items[..i + 1] == items[..i] + [w];
      assert [w][0] == w && [w][1..] == [];
      assert [rec.value] + [] == [rec.value];
      assert MapWords([w], parse) == Ok([rec.value]);
      MapWordsAppend(items[..i], [w], parse);
      words := words + [rec.value];
      i := i + 1;
    }
    assert items[..i] == items;
    r := Ok(words);
  }

  /** Everything between `response.json()` and `return words`, on a body that
      decoded. */
  function Extract(result: Json, parse: FloatParser): (r: Result<seq<WordRec>>)
    ensures !result.Obj? ==> r == Err(AttributeError)
  {
    var items :- Navigate(result);
    var entries :- Iterate(items);
    MapWords(entries, parse)
  }

  /** The observable outcome of one call. A status other than 200 is logged
      and answered with `[]` before the body is looked at; an exception
      anywhere after it (an undecodable body included) is caught, logged and
      answered with `[]`; otherwise the records are returned and nothing is
      logged. There is no precondition: every input gets a list. */
  function Normalize(status: int, body: Option<Json>, parse: FloatParser): (r: Reply)
    ensures status != HttpOk ==> r == Reply([], true)
    ensures body.None? ==> r == Reply([], true)
    ensures r.errorLogged ==> r.words == []
    ensures !r.errorLogged <==> status == HttpOk && body.Some? && Extract(body.value, parse).Ok?
    ensures !r.errorLogged ==> Extract(body.value, parse) == Ok(r.words)
  {
    if status != HttpOk then Reply([], true)
    else
      match body
      case None => Reply([], true)
      case Some(result) =>
        match Extract(result, parse)
        case Ok(words) => Reply(words, false)
        case Err(_) => Reply([], true)
  }

  /** `transcribe_audio` from the status check to its returns, step by step. */
  method Transcribe(status: int, body: Option<Json>, parse: FloatParser) returns (reply: Reply)
    ensures reply == Normalize(status, body, parse)
  {
    if status != HttpOk {
      return Reply([], true);
    }
    if body.None? {
      return Reply([], true);
    }
    var items := Navigate(body.value);
    if items.Err? {
      return Reply([], true);
    }
    var entries := Iterate(items.value);
    if entries.Err? {
      return Reply([], true);
    }
    var words := CollectWords(entries.value, parse);
    if words.Err? {
      return Reply([], true);
    }
    reply := Reply(words.value, false);
  }
}
