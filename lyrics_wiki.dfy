/**
  The request-correlation core of the LyricWiki client.

  A `LyricsWikiApi` keeps one table, `lyrics`, from the handle of an in-flight
  page request to the lyric that the page will complete. Two entry points
  start a lookup: `GetLyric` asks the API and `GetLyricBypassApi` guesses the
  page address directly. Two reply handlers finish it: `OnGetLyricResult`
  reads the API's JSON answer and may chain a page request, and
  `OnGetLyricPageResult` fills in the text of the lyric waiting for that page.

  The network is not modelled: a reply is an opaque handle that the caller
  supplies, a reply's outcome is given to the handler as its inputs (a
  transport error flag, the decoded JSON document, the plain text found in the
  page) and a request that the core sends is returned as its address. Each
  handler returns the `lyricFetched` signal it emits.

  The methods of the class are proved against the pure functions `Register`,
  `OnApiReply` and `OnPageReply`; the lemmas after the class state what those
  functions promise.
*/
module LyricsWiki {
  import opened Wrappers
  import opened Addressing

  /** The handle of one in-flight network reply (in the source, the reply object's address). */
  type ReplyId = nat

  /** A lyric as the client builds it: names first, text once the page has been read. */
  datatype Lyric = Lyric(artist: string, title: string, text: string)

  /**
    The `lyricFetched(lyric, found)` signal. `None` stands for the null or
    uninitialised lyric pointer that the source emits on its failure paths.
  */
  datatype Event = LyricFetched(lyric: Option<Lyric>, found: bool)

  /** A JSON value, as far as the client looks at it: a string or something else. */
  datatype JsonValue = JsonString(s: string) | JsonNonString

  /**
    The decoded reply body: a null document (the body did not parse), a
    document whose top level is an array, or one whose top level is an object.
  */
  datatype JsonDocument = NullDocument | ArrayDocument | ObjectDocument(fields: map<string, JsonValue>)

  /** The API's in-band answer for a song it does not know. */
  const NotFound: string := "Not found"

  /** The document's top-level object; a document that is not an object reads as an empty one. */
  function ObjectOf(doc: JsonDocument): (r: map<string, JsonValue>)
    ensures doc.ObjectDocument? ==> r == doc.fields
    ensures !doc.ObjectDocument? ==> |r| == 0
  {
    if doc.ObjectDocument? then doc.fields else map[]
  }

  /**
    A field read as a string; a missing or non-string field reads as the empty
    string. So a non-empty result is exactly the string stored under `key`.
  */
  function StringValue(fields: map<string, JsonValue>, key: string): (r: string)
    ensures r != "" ==> key in fields && fields[key] == JsonString(r)
    ensures key in fields && fields[key].JsonString? ==> r == fields[key].s
    ensures key !in fields || fields[key] == JsonNonString ==> r == ""
  {
    if key in fields && fields[key].JsonString? then fields[key].s else ""
  }

  /** The pending-request table: reply handle to the lyric its page will complete. */
  type Table = map<ReplyId, Lyric>

  /** Everything the API reply handler does: the new table, the page request it sends, the signal it emits. */
  datatype ApiOutcome = ApiOutcome(table: Table, pageRequest: Option<string>, event: Event)

  /** Everything the page reply handler does: the new table and the signal it emits. */
  datatype PageOutcome = PageOutcome(table: Table, event: Event)

  /** Records `lyric` as waiting for `reply`; an entry already stored under that handle is replaced. */
  function Register(t: Table, reply: ReplyId, lyric: Lyric): (r: Table)
    ensures r.Keys == t.Keys + {reply}
    ensures r[reply] == lyric
    ensures forall k :: k in t && k != reply ==> r[k] == t[k]
  {
    t[reply := lyric]
  }

  /**
    The API answered with a real result: no transport error, a body that
    parsed, and a `lyrics` field other than the "Not found" sentinel. A
    document whose top level is an array has no `lyrics` field, so it counts.
  */
  predicate HasResult(transportError: bool, doc: JsonDocument)
    ensures HasResult(transportError, doc) ==> !transportError && !doc.NullDocument?
    ensures doc.ArrayDocument? ==> (HasResult(transportError, doc) <==> !transportError)
    ensures doc.ObjectDocument? && !transportError ==>
      (HasResult(transportError, doc) <==> !("lyrics" in doc.fields && doc.fields["lyrics"] == JsonString(NotFound)))
  {
    !transportError && !doc.NullDocument? && StringValue(ObjectOf(doc), "lyrics") != NotFound
  }

  /**
    The lyric built from an API result: its `artist` and `song` fields, no
    text yet. A non-empty name is the string the document holds; a document
    that is not an object gives a lyric with empty names.
  */
  function ResultLyric(doc: JsonDocument): (r: Lyric)
    ensures r.text == ""
    ensures r.artist != "" ==> doc.ObjectDocument? && "artist" in doc.fields && doc.fields["artist"] == JsonString(r.artist)
    ensures r.title != "" ==> doc.ObjectDocument? && "song" in doc.fields && doc.fields["song"] == JsonString(r.title)
    ensures !doc.ObjectDocument? ==> r == Lyric("", "", "")
  {
    Lyric(StringValue(ObjectOf(doc), "artist"), StringValue(ObjectOf(doc), "song"), "")
  }

  /**
    The page address an API result points to, its `url` field; empty when the
    document holds no string there.
  */
  function ResultUrl(doc: JsonDocument): (r: string)
    ensures r != "" ==> doc.ObjectDocument? && "url" in doc.fields && doc.fields["url"] == JsonString(r)
    ensures !doc.ObjectDocument? ==> r == ""
  {
    StringValue(ObjectOf(doc), "url")
  }

  /**
    The API reply handler. On a real result it registers the new lyric under
    `next`, the handle of the page request it sends. Its `found` flag is never
    set, so it always emits a not-found signal, and on the chained path that
    signal carries the lyric just built.
  */
  function OnApiReply(t: Table, transportError: bool, doc: JsonDocument, next: ReplyId): (r: ApiOutcome)
    ensures !r.event.found
    ensures r.pageRequest.Some? <==> HasResult(transportError, doc)
    ensures r.pageRequest.None? ==> r.table == t && r.event.lyric == None
    ensures r.pageRequest.Some? ==>
      r.pageRequest.value == ResultUrl(doc) && r.table == Register(t, next, ResultLyric(doc))
      && r.event.lyric == Some(r.table[next])
  {
    if HasResult(transportError, doc) then
      ApiOutcome(Register(t, next, ResultLyric(doc)), Some(ResultUrl(doc)), LyricFetched(Some(ResultLyric(doc)), false))
    else
      ApiOutcome(t, None, LyricFetched(None, false))
  }

  /**
    The page reply handler. With no transport error and an entry for `reply`
    it completes that lyric with `text`, removes the entry and reports it
    found; otherwise it reports not found and leaves the table as it was.
  */
  function OnPageReply(t: Table, reply: ReplyId, transportError: bool, text: string): (r: PageOutcome)
    ensures r.event.found <==> !transportError && reply in t
    ensures r.event.found ==> r.table == t - {reply} && r.event.lyric == Some(t[reply].(text := text))
    ensures !r.event.found ==> r.table == t && r.event.lyric == None
    ensures !transportError ==> reply !in r.table
  {
    if !transportError && reply in t then
      PageOutcome(t - {reply}, LyricFetched(Some(t[reply].(text := text)), true))
    else
      PageOutcome(t, LyricFetched(None, false))
  }

  class LyricsWikiApi {
    /** The lyrics waiting for their page, by the handle of the page request. */
    var lyrics: Table

    constructor ()
      ensures lyrics == map[]
    {
      lyrics := map[];
    }

    /**
      Guesses the page address from the names and sends the page request,
      whose handle is `reply`; the lyric, with the names as given, waits for it.
    */
    method GetLyricBypassApi(artist: string, song: string, reply: ReplyId) returns (request: Url)
      modifies this
      ensures request == BypassUrl(artist, song)
      ensures lyrics == Register(old(lyrics), reply, Lyric(artist, song, ""))
    {
      var url := SiteRoot;
      var artNoSpaces := NoSpaces(artist);
      var songNoSpaces := NoSpaces(song);
      url := url.(path := artNoSpaces + [Colon] + songNoSpaces);
      request := url;

      var lyric := Lyric(artist, song, "");
      lyrics := lyrics[reply := lyric];
    }

    /** Sends the API query for the names; the table is not touched. */
    method GetLyric(artist: string, song: string) returns (request: Url)
      ensures request == ApiRequestUrl(artist, song)
    {
      var url := ApiUrl;
      var artNoSpaces := NoSpaces(artist);
      var songNoSpaces := NoSpaces(song);
      var query := [];
      query := query + [QueryItem("func", "getSong")];
      query := query + [QueryItem("artist", artNoSpaces)];
      query := query + [QueryItem("song", songNoSpaces)];
      query := query + [QueryItem("fmt", "realjson")];
      url := url.(query := query);
      request := url;
    }

    /** Sends the page request for `url`, whose handle is `reply`; `lyric` waits for it. */
    method GetLyricText(url: string, lyric: Lyric, reply: ReplyId) returns (request: string)
      modifies this
      ensures request == url
      ensures lyrics == Register(old(lyrics), reply, lyric)
    {
      request := url;
      lyrics := lyrics[reply := lyric];
    }

    /**
      Handles the API's reply. `next` is the handle the page request gets if
      one is sent.
    */
    method OnGetLyricResult(transportError: bool, doc: JsonDocument, next: ReplyId)
      returns (pageRequest: Option<string>, event: Event)
      modifies this
      ensures ApiOutcome(lyrics, pageRequest, event) == OnApiReply(old(lyrics), transportError, doc, next)
    {
      var found := false;
      var lyric: Option<Lyric> := None;
      pageRequest := None;

      if transportError {
        // the transport failed: nothing to read
      } else {
        if doc != NullDocument {
          var jsonObj := ObjectOf(doc);
          if StringValue(jsonObj, "lyrics") != NotFound {
            var l := Lyric(StringValue(jsonObj, "artist"), StringValue(jsonObj, "song"), "");
            lyric := Some(l);
            var url := StringValue(jsonObj, "url");
            var sent := GetLyricText(url, l, next);
            pageRequest := Some(sent);
          }
        }
      }

      // `found` is never set above, so the signal is always emitted
      event := LyricFetched(lyric, found);
    }

    /** Handles the reply to the page request whose handle is `reply`. */
    method OnGetLyricPageResult(reply: ReplyId, transportError: bool, pageText: string) returns (event: Event)
      modifies this
      ensures PageOutcome(lyrics, event) == OnPageReply(old(lyrics), reply, transportError, pageText)
    {
      var found := false;
      var lyric: Option<Lyric> := None;

      if transportError {
        // the transport failed: the entry for `reply` stays where it is
      } else {
        if reply !in lyrics {
          lyric := None;
        } else {
          var l := lyrics[reply].(text := pageText);
          lyrics := lyrics[reply := l];
          lyrics := lyrics - {reply};
          lyric := Some(l);
          found := true;
        }
      }

      event := LyricFetched(lyric, found);
    }
  }

  // ---------------------------------------------------------------------------
  // What the handlers promise

  /**
    The page guess adds exactly the entry for its own handle, holding the
    names as given (not normalised) and no text, and changes no other entry.
  */
  lemma RegisterAddsOneEntry(t: Table, reply: ReplyId, artist: string, song: string)
    ensures reply in Register(t, reply, Lyric(artist, song, ""))
    ensures Register(t, reply, Lyric(artist, song, ""))[reply] == Lyric(artist, song, "")
    ensures forall k :: k != reply ==> (k in Register(t, reply, Lyric(artist, song, "")) <==> k in t)
    ensures forall k :: k != reply && k in t ==> Register(t, reply, Lyric(artist, song, ""))[k] == t[k]
    ensures reply !in t ==> |Register(t, reply, Lyric(artist, song, ""))| == |t| + 1
  {
  }

  /**
    A transport error, a body that did not parse, or the "Not found" answer:
    the API handler sends nothing, leaves the table alone and emits one
    not-found signal with no lyric.
  */
  lemma ApiReplyWithoutResult(t: Table, transportError: bool, doc: JsonDocument, next: ReplyId)
    requires transportError || doc == NullDocument || StringValue(ObjectOf(doc), "lyrics") == NotFound
    ensures OnApiReply(t, transportError, doc, next).table == t
    ensures OnApiReply(t, transportError, doc, next).pageRequest == None
    ensures OnApiReply(t, transportError, doc, next).event == LyricFetched(None, false)
  {
  }

  /**
    A real API result: the handler requests the page at the JSON `url`,
    registers under that request's handle a lyric named by the JSON `artist`
    and `song` fields with no text, changes no other entry, and still emits a
    not-found signal, which carries that lyric.
  */
  lemma ApiReplyWithResult(t: Table, doc: JsonDocument, next: ReplyId)
    requires doc != NullDocument && StringValue(ObjectOf(doc), "lyrics") != NotFound
    ensures OnApiReply(t, false, doc, next).pageRequest == Some(StringValue(ObjectOf(doc), "url"))
    ensures next in OnApiReply(t, false, doc, next).table
    ensures OnApiReply(t, false, doc, next).table[next]
         == Lyric(StringValue(ObjectOf(doc), "artist"), StringValue(ObjectOf(doc), "song"), "")
    ensures forall k :: k != next ==> (k in OnApiReply(t, false, doc, next).table <==> k in t)
    ensures forall k :: k != next && k in t ==> OnApiReply(t, false, doc, next).table[k] == t[k]
    ensures OnApiReply(t, false, doc, next).event
         == LyricFetched(Some(OnApiReply(t, false, doc, next).table[next]), false)
  {
  }

  /** The API handler never reports a lyric as found, whatever the reply. */
  lemma ApiReplyNeverFound(t: Table, transportError: bool, doc: JsonDocument, next: ReplyId)
    ensures !OnApiReply(t, transportError, doc, next).event.found
  {
  }

  /**
    A page that arrived for a waiting lyric: that lyric, with its names kept
    and its text set to the page's text, is emitted as found, and exactly its
    entry leaves the table.
  */
  lemma PageReplyCompletes(t: Table, reply: ReplyId, text: string)
    requires reply in t
    ensures OnPageReply(t, reply, false, text).event
         == LyricFetched(Some(Lyric(t[reply].artist, t[reply].title, text)), true)
    ensures reply !in OnPageReply(t, reply, false, text).table
    ensures forall k :: k != reply ==> (k in OnPageReply(t, reply, false, text).table <==> k in t)
    ensures |OnPageReply(t, reply, false, text).table| == |t| - 1
  {
  }

  /**
    A transport error or a handle with no waiting lyric: one not-found signal
    with no lyric, and the table unchanged; after an error a waiting entry
    stays in the table.
  */
  lemma PageReplyFails(t: Table, reply: ReplyId, transportError: bool, text: string)
    requires transportError || reply !in t
    ensures OnPageReply(t, reply, transportError, text).event == LyricFetched(None, false)
    ensures OnPageReply(t, reply, transportError, text).table == t
    ensures reply in t ==> reply in OnPageReply(t, reply, transportError, text).table
  {
  }

  /** A page reply never disturbs the entry of another handle. */
  lemma PageReplyKeepsOthers(t: Table, reply: ReplyId, transportError: bool, text: string, other: ReplyId)
    requires other != reply && other in t
    ensures other in OnPageReply(t, reply, transportError, text).table
    ensures OnPageReply(t, reply, transportError, text).table[other] == t[other]
  {
  }

  /** A found signal means the entry of that handle is gone: nothing stale is left behind. */
  lemma FoundLeavesNoEntry(t: Table, reply: ReplyId, transportError: bool, text: string)
    ensures OnPageReply(t, reply, transportError, text).event.found
        <==> !transportError && reply in t
    ensures OnPageReply(t, reply, transportError, text).event.found
        ==> reply !in OnPageReply(t, reply, transportError, text).table
  {
  }
}
