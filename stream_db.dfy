/**
  The stream record and `get_streams_db` of src/birbwatch/stream.py: try the configured
  sources in order, fetching `http://`/`https://` sources over HTTP and reading `file://`
  sources from disk, stop at the first one that loads, and build one record per entry of its
  `streamlist`. Fetching and reading are external oracles.
 */
module StreamDb {

  import opened Wrappers

  /** The `Stream` dataclass; `healthy` and `quality` are unknown until probed. */
  datatype Stream = Stream(
    name: string,
    description: string,
    url: string,
    healthy: Option<bool>,
    quality: Option<string>)

  /** `Stream(name=..., description=..., url=...)` with the dataclass defaults. */
  function NewStream(name: string, description: string, url: string): Stream {
    Stream(name, description, url, None, None)
  }

  /** One entry of the `streamlist` array: the string members of a JSON object. */
  type Entry = map<string, string>

  /** A loaded JSON document. JSON `null` loads as Python `None`, the same value the search
      starts from; a document that is neither `null` nor an object cannot be indexed by key.
      `streamlist` holds what the comprehension iterates over: the elements of an array, the
      keys of an object or the characters of a string, so an empty object or an empty string
      gives `Some([])` like an empty array; it is `None` when the member is missing or its value
      cannot be iterated (a number, `true`, `false` or `null`). An element that is not an
      object (a key or a character, say) cannot be indexed by a field name and is an entry
      with no members; member values are taken to be strings. */
  datatype Document = Null | Object(streamlist: Option<seq<Entry>>) | NotObject

  /** What `get_streams_db` does as seen by its caller: it returns a list or it raises. */
  datatype Outcome = Returned(streams: seq<Stream>) | Raised

  /** An external loader: `None` when the request, the file access or the JSON parsing raised. */
  type Loader = string -> Option<Document>

  /** What one pass of the loop body does with one source. */
  datatype Attempt = Unrecognised | Failed | Loaded(doc: Document)

  predicate StartsWith(s: string, prefix: string) {
    |prefix| <= |s| && s[..|prefix|] == prefix
  }

  function AttemptSource(source: string, http: Loader, file: Loader): Attempt {
    if StartsWith(source, "https://") || StartsWith(source, "http://") then
      match http(source) case None => Failed case Some(d) => Loaded(d)
    else if StartsWith(source, "file://") then
      match file(source[7..]) case None => Failed case Some(d) => Loaded(d)
    else
      Unrecognised
  }

  /** An `https://` or `http://` source goes to the HTTP loader unchanged, a `file://` source to
      the file loader with the path after the scheme, and any other source is skipped. */
  lemma SourceDispatch(source: string, path: string, http: Loader, file: Loader)
    ensures (StartsWith(source, "https://") || StartsWith(source, "http://")) ==>
      AttemptSource(source, http, file) == (match http(source) case None => Failed case Some(d) => Loaded(d))
    ensures AttemptSource("file://" + path, http, file) ==
      (match file(path) case None => Failed case Some(d) => Loaded(d))
    ensures !StartsWith(source, "https://") && !StartsWith(source, "http://") && !StartsWith(source, "file://") ==>
      AttemptSource(source, http, file) == Unrecognised
  {
    var s := "file://" + path;
    assert s[..7] == "file://" && s[7..] == path;
    assert !StartsWith(s, "https://") by {
      if |s| >= 8 { assert s[..8][4] == ':' != "https://"[4]; }
    }
    assert !StartsWith(s, "http://") by {
      assert s[..7][0] == 'f';
    }
  }

  /** The number of sources the loop looks at: up to and including the first that loads. */
  function Examined(sources: seq<string>, http: Loader, file: Loader): (k: nat)
    ensures k <= |sources|
    decreases |sources|
  {
    if sources == [] then 0
    else if AttemptSource(sources[0], http, file).Loaded? then 1
    else 1 + Examined(sources[1..], http, file)
  }

  /** The value of `data` when the loop ends. */
  function Selected(sources: seq<string>, http: Loader, file: Loader): Document
    decreases |sources|
  {
    if sources == [] then Null
    else match AttemptSource(sources[0], http, file)
      case Loaded(d) => d
      case _ => Selected(sources[1..], http, file)
  }

  /** Sources are tried in order: the search stops at the first source that loads, later
      sources are never looked at, and when no source loads all of them were looked at and
      `data` is still `None`. */
  lemma {:induction false} SearchStopsAtFirstLoaded(sources: seq<string>, http: Loader, file: Loader)
    ensures var k := Examined(sources, http, file);
      && (forall j :: 0 <= j < k - 1 ==> !AttemptSource(sources[j], http, file).Loaded?)
      && (k > 0 && AttemptSource(sources[k - 1], http, file).Loaded? ==>
            Selected(sources, http, file) == AttemptSource(sources[k - 1], http, file).doc)
      && (!(k > 0 && AttemptSource(sources[k - 1], http, file).Loaded?) ==>
            k == |sources| && Selected(sources, http, file) == Null
            && forall j :: 0 <= j < |sources| ==> !AttemptSource(sources[j], http, file).Loaded?)
    decreases |sources|
  {
    if sources != [] && !AttemptSource(sources[0], http, file).Loaded? {
      var rest := sources[1..];
      SearchStopsAtFirstLoaded(rest, http, file);
      var k := Examined(sources, http, file);
      forall j | 0 <= j < k - 1 ensures !AttemptSource(sources[j], http, file).Loaded? {
        if j > 0 { assert sources[j] == rest[j - 1]; }
      }
      if !(k > 0 && AttemptSource(sources[k - 1], http, file).Loaded?) {
        forall j | 0 <= j < |sources| ensures !AttemptSource(sources[j], http, file).Loaded? {
          if j > 0 { assert sources[j] == rest[j - 1]; }
        }
      }
    }
  }

  predicate HasFields(e: Entry) {
    "name" in e && "description" in e && "url" in e
  }

  /** The list comprehension over `data['streamlist']`: `None` when an entry lacks a key
      (the comprehension raises), otherwise one record per entry, in order. */
  function BuildStreams(entries: seq<Entry>): (r: Option<seq<Stream>>)
    ensures r.Some? <==> forall i :: 0 <= i < |entries| ==> HasFields(entries[i])
    ensures r.Some? ==> |r.value| == |entries| && forall i :: 0 <= i < |entries| ==>
      r.value[i] == NewStream(entries[i]["name"], entries[i]["description"], entries[i]["url"])
    decreases |entries|
  {
    if entries == [] then Some([])
    else if !HasFields(entries[0]) then None
    else
      match BuildStreams(entries[1..])
      case None => None
      case Some(rest) =>
        Some([NewStream(entries[0]["name"], entries[0]["description"], entries[0]["url"])] + rest)
  }

  /** What happens after the loop: `None` gives the empty list, otherwise the records are built
      outside the `try`, so a malformed document raises instead of falling through. */
  function FromDocument(data: Document): (r: Outcome)
    ensures data.Null? ==> r == Returned([])
    ensures r.Returned? <==>
      || data.Null?
      || (&& data.Object? && data.streamlist.Some?
          && forall i :: 0 <= i < |data.streamlist.value| ==> HasFields(data.streamlist.value[i]))
    ensures data.Object? && r.Returned? ==> |r.streams| == |data.streamlist.value|
  {
    match data
    case Null => Returned([])
    case NotObject => Raised
    case Object(None) => Raised
    case Object(Some(entries)) =>
      match BuildStreams(entries) case None => Raised case Some(ss) => Returned(ss)
  }

  /** `get_streams_db(sources)`; `examined` counts the loop iterations. */
  method GetStreamsDb(sources: seq<string>, http: Loader, file: Loader)
    returns (r: Outcome, ghost examined: nat)
    ensures r == FromDocument(Selected(sources, http, file))
    ensures examined == Examined(sources, http, file)
  {
    var data := Null;
    var i := 0;
    while i < |sources|
      invariant 0 <= i <= |sources|
      invariant data == Null
      invariant Selected(sources[i..], http, file) == Selected(sources, http, file)
      invariant i + Examined(sources[i..], http, file) == Examined(sources, http, file)
    {
      var source := sources[i];
      assert sources[i..][1..] == sources[i + 1..];
      if StartsWith(source, "https://") || StartsWith(source, "http://") {
        var res := http(source);
        if res.Some? {
          data := res.value;
          i := i + 1;
          break;
        }
        data := Null;
      } else if StartsWith(source, "file://") {
        var filepath := source[7..];
        var loaded := file(filepath);
        if loaded.Some? {
          data := loaded.value;
          i := i + 1;
          break;
        }
        data := Null;
      }
      i := i + 1;
    }
    examined := i;
    if data == Null {
      return Returned([]), examined;
    }
    match data {
      case NotObject =>
        r := Raised;
      case Object(streamlist) =>
        if streamlist.None? {
          r := Raised;
        } else {
          var built := BuildStreams(streamlist.value);
          r := if built.None? then Raised else Returned(built.value);
        }
    }
  }

  /** When no source loads the result is the empty list, and a source that loads `null` ends
      the search with the empty list as well. */
  lemma NothingLoadedGivesEmptyList(sources: seq<string>, http: Loader, file: Loader)
    requires forall j :: 0 <= j < |sources| ==>
      !AttemptSource(sources[j], http, file).Loaded? || AttemptSource(sources[j], http, file).doc == Null
    ensures FromDocument(Selected(sources, http, file)) == Returned([])
  {
    SearchStopsAtFirstLoaded(sources, http, file);
  }

  /** A source with no recognised prefix is skipped: removing it changes nothing. */
  lemma {:induction false} UnrecognisedSkipped(
    before: seq<string>, source: string, after: seq<string>, http: Loader, file: Loader)
    requires AttemptSource(source, http, file) == Unrecognised
    ensures Selected(before + [source] + after, http, file) == Selected(before + after, http, file)
    decreases |before|
  {
    if before == [] {
      assert before + [source] + after == [source] + after;
      assert ([source] + after)[1..] == after;
      assert before + after == after;
    } else {
      assert (before + [source] + after)[1..] == before[1..] + [source] + after;
      assert (before + after)[1..] == before[1..] + after;
      UnrecognisedSkipped(before[1..], source, after, http, file);
    }
  }

  /** The records are built outside the `try`: a loaded document that is not an object, has no
      `streamlist`, or has an entry without a name, description or url raises instead of falling
      through to the next source. */
  lemma MalformedDocumentRaises(sources: seq<string>, http: Loader, file: Loader)
    requires var d := Selected(sources, http, file);
      d.NotObject? || (d.Object? && (d.streamlist.None? ||
        exists i :: 0 <= i < |d.streamlist.value| && !HasFields(d.streamlist.value[i])))
    ensures FromDocument(Selected(sources, http, file)) == Raised
  {
  }

  /** On success the result has one record per `streamlist` entry, in order, with the name,
      description and url copied and health and quality unknown. */
  lemma SucceedsWithOneRecordPerEntry(sources: seq<string>, http: Loader, file: Loader)
    requires Selected(sources, http, file).Object?
    requires Selected(sources, http, file).streamlist.Some?
    ensures var entries := Selected(sources, http, file).streamlist.value;
      match FromDocument(Selected(sources, http, file))
      case Raised => exists i :: 0 <= i < |entries| && !HasFields(entries[i])
      case Returned(ss) => |ss| == |entries| && forall i :: 0 <= i < |ss| ==>
        && ss[i].name == entries[i]["name"]
        && ss[i].description == entries[i]["description"]
        && ss[i].url == entries[i]["url"]
        && ss[i].healthy.None? && ss[i].quality.None?
  {
  }
}
