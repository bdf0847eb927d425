# LyricWiki client core, modelled in Dafny

The `LyricsWikiAPI` class of harbour-Lyrics fetches song lyrics from
`lyrics.wikia.com` in one of two ways:

- `getLyric` asks the site's API (`api.php?func=getSong&...&fmt=realjson`). The
  JSON answer names the song's page, and `onGetLyricResult` chains a second
  request for that page.
- `getLyricBypassApi` guesses the page address `Artist_Name:Song_Name`
  directly.

Either way, the page's reply is handled by `onGetLyricPageResult`. It finds
the lyric waiting for that reply in the table `lyrics` and fills in its text
from the page's `lyricbox` element. Every outcome is reported through the
`lyricFetched(lyric, found)` signal.

The model has four modules:

- `Wrappers` (wrappers.dfy): the `Option` datatype.
- `Addressing` (addressing.dfy): the pure part. It covers name normalisation
  (space to underscore), the page-guess address and the API query. It also has
  lemmas that read an address back into the names it was built from.
- `LyricsWiki` (lyrics_wiki.dfy): the stateful part. The class
  `LyricsWikiApi` has the field `lyrics: map<ReplyId, Lyric>` and one method
  per source function. Each handler takes the reply's outcome as inputs:
  - a transport-error flag;
  - the decoded JSON document;
  - the plain text extracted from the page.

  Each handler returns the signal it emits. Each method is proved against a
  pure function (`Register`, `OnApiReply`, `OnPageReply`) that gives the new
  table and the signal. Lemmas about those functions state what each handler
  promises.
- `Runs` (runs.dfy): sequences of entry-point calls and reply arrivals, in any
  order. Lemmas cover:
  - one signal per reply;
  - no cross-completion between concurrent lookups;
  - every lyric carries names that were registered;
  - the two places where a lookup does not end in exactly one signal with no
    entry left: an API lookup signals twice, and a failed page leaves its
    entry behind.

## Quirks the model keeps

The model follows the code, including these behaviours:

- The page-guess path is set to `Artist:Song`, with no leading `/`
  (src/lyricswikiapi.cpp:66).
- On a real API result, `onGetLyricResult` does not wait for the page. Its
  `found` flag is never set, so it emits `lyricFetched(lyric, false)` at once,
  carrying the lyric it just built (lines 106 and 133-134). A successful API
  lookup therefore emits two signals: first not-found, then found
  (`Runs.ApiLookupSignalsTwice`).
- When a page request fails at the transport level, its table entry is not
  removed (lines 147-148). The entry stays behind (`Runs.FailedPageLeavesEntry`).
- On the failure paths the source emits an uninitialised or null lyric
  pointer (lines 107, 145, 155). The model emits `None` there.
- A JSON document whose top level is not an object reads as an empty object.
  A missing or non-string field reads as `""`. So an array document counts as
  a real result: it chains a request to the empty URL for a lyric with empty
  names.

## Model

| member | source | states |
|---|---|---|
| `Addressing.NoSpaces` | src/lyricswikiapi.cpp:61-64 | the normalised name has the input's length; a space becomes `_`; every other character stays at its position |
| `Addressing.NoSpacesHasNoSpace` | src/lyricswikiapi.cpp:61-64 | a normalised name contains no space |
| `Addressing.NoSpacesKeepsSpaceless` | src/lyricswikiapi.cpp:84-87 | a name with no space is unchanged by normalisation |
| `Addressing.NoSpacesIdempotent` | src/lyricswikiapi.cpp:84-87 | normalising twice gives the same name as normalising once |
| `Addressing.NoSpacesKeepsColons` | src/lyricswikiapi.cpp:61-66 | normalisation neither adds nor removes a colon, so the separator is the only colon it introduces |
| `Addressing.NoSpacesConflates` | src/lyricswikiapi.cpp:61-62 | normalisation is not one-to-one: "The Beatles" and "The_Beatles" give the same name |
| `Addressing.BypassUrl` | src/lyricswikiapi.cpp:59-66 | the page-guess address is http on `lyrics.wikia.com` with no query; its path has no space, holds the separating colon right after the artist's part, and is one character longer than the two names |
| `Addressing.BypassUrlShape` | src/lyricswikiapi.cpp:59-66 | the page-guess request is http on `lyrics.wikia.com`, with no query; its path is `norm(artist) + ":" + norm(song)`, contains no space, and is one character longer than the two names |
| `Addressing.BypassPathReadsBack` | src/lyricswikiapi.cpp:59-66 | if the artist has no colon, splitting the page path at its first colon gives back exactly the two normalised names |
| `Addressing.SplitJoined` | src/lyricswikiapi.cpp:66 | joining two parts with `:` and splitting at the first colon are inverse when the left part has no colon |
| `Addressing.BypassPathAmbiguous` | src/lyricswikiapi.cpp:66 | if the artist contains a colon, two different (artist, song) pairs give one page path |
| `Addressing.BypassUrlExample` | src/lyricswikiapi.cpp:59-66 | ("The Beatles", "Help") gives host `lyrics.wikia.com` and path `The_Beatles:Help` |
| `Addressing.ApiQuery` | src/lyricswikiapi.cpp:84-93 | the query has four items keyed `func`, `artist`, `song`, `fmt` in that order, no key twice, and no space in any value |
| `Addressing.ApiRequestUrl` | src/lyricswikiapi.cpp:82-94 | the API request has the scheme, host and path of `API_URL` and a query of four items, none of whose values contains a space |
| `Addressing.ApiRequestReadsBack` | src/lyricswikiapi.cpp:82-94 | the API request goes to `API_URL` and has exactly four query items, keyed `func`, `artist`, `song`, `fmt` in that order; looking up each key gives `getSong`, the normalised artist, the normalised song, and `realjson` |
| `LyricsWiki.ObjectOf` | src/lyricswikiapi.cpp:116 | an object document gives its own fields; any other document gives an empty object |
| `LyricsWiki.StringValue` | src/lyricswikiapi.cpp:118-123 | a non-empty result is exactly the string stored under the key; a string field reads as its string; a missing or non-string field reads as `""` |
| `LyricsWiki.Register` | src/lyricswikiapi.cpp:71-74 | the table's handles become the old ones plus the reply's; the reply's entry is the given lyric, replacing any old one (as at line 178 too); every other entry is kept |
| `LyricsWiki.HasResult` | src/lyricswikiapi.cpp:109-118 | a result needs no transport error and a parsed body; an array body counts as a result exactly when there is no transport error; for an object body, it is a result exactly when its `lyrics` field is not the string "Not found" |
| `LyricsWiki.ResultLyric` | src/lyricswikiapi.cpp:119-121 | the built lyric has no text; a non-empty artist or title is the string held in the document's `artist` or `song` field; a non-object document gives empty names |
| `LyricsWiki.ResultUrl` | src/lyricswikiapi.cpp:123 | a non-empty page address is the string held in the document's `url` field; a non-object document gives `""` |
| `LyricsWiki.OnApiReply` | src/lyricswikiapi.cpp:102-138 | never found; a page request is sent exactly when the reply has a result; without one the table is kept and no lyric is emitted; with one the request goes to the `url` field, the built lyric is registered under the new handle, and the signal carries that registered lyric |
| `LyricsWiki.OnPageReply` | src/lyricswikiapi.cpp:140-171 | found exactly when there is no transport error and an entry for the reply; if found, exactly that entry is removed and the signal carries it with the page text; otherwise the table is kept and no lyric is emitted; with no transport error no entry for the reply remains |
| `LyricsWiki.LyricsWikiApi.constructor` | src/lyricswikiapi.cpp:42-46 | a new client has an empty table |
| `LyricsWiki.LyricsWikiApi.GetLyricBypassApi` | src/lyricswikiapi.cpp:55-77 | sends the page-guess address; the table gains (or replaces) the entry for the new reply, holding the un-normalised names and no text; nothing else changes |
| `LyricsWiki.LyricsWikiApi.GetLyric` | src/lyricswikiapi.cpp:79-100 | sends exactly the API request for the normalised names; it modifies no state, so the table is untouched |
| `LyricsWiki.LyricsWikiApi.GetLyricText` | src/lyricswikiapi.cpp:173-181 | sends a request to the given URL; the table gains the entry for the new reply, holding the given lyric |
| `LyricsWiki.LyricsWikiApi.OnGetLyricResult` | src/lyricswikiapi.cpp:102-138 | the new table, the chained page request and the emitted signal are exactly those of `OnApiReply` |
| `LyricsWiki.LyricsWikiApi.OnGetLyricPageResult` | src/lyricswikiapi.cpp:140-171 | the new table and the emitted signal are exactly those of `OnPageReply` |
| `LyricsWiki.RegisterAddsOneEntry` | src/lyricswikiapi.cpp:69-74 | registering adds the entry for the reply, with the names as given and no text; no other entry changes; if the handle is new, the table grows by exactly one |
| `LyricsWiki.ApiReplyWithoutResult` | src/lyricswikiapi.cpp:106-134 | on a transport error, a null document or `lyrics == "Not found"`: no page request, table unchanged, one `lyricFetched(None, false)` |
| `LyricsWiki.ApiReplyWithResult` | src/lyricswikiapi.cpp:116-134 | on a real result: page request to the JSON `url`; the new reply's entry holds the JSON `artist`/`song` and no text; no other entry changes; the signal is still not-found and carries that lyric |
| `LyricsWiki.ApiReplyNeverFound` | src/lyricswikiapi.cpp:106-135 | the API reply handler never emits `found == true` |
| `LyricsWiki.PageReplyCompletes` | src/lyricswikiapi.cpp:155-168 | with no transport error and an entry present: emits that lyric, names kept and text set to the page text, with `found == true`; exactly that entry is removed |
| `LyricsWiki.PageReplyFails` | src/lyricswikiapi.cpp:144-168 | on a transport error or a missing entry: one `lyricFetched(None, false)` and the table unchanged; in particular the error path keeps the entry |
| `LyricsWiki.PageReplyKeepsOthers` | src/lyricswikiapi.cpp:155-162 | a page reply never changes or removes another handle's entry |
| `LyricsWiki.FoundLeavesNoEntry` | src/lyricswikiapi.cpp:147-168 | the page signal is found exactly when there was no transport error and an entry existed; after a found signal, no entry remains for that reply |
| `Runs.RunAppend` | src/lyricswikiapi.cpp:55-181 | running two sequences of steps one after the other is the same as running their concatenation |
| `Runs.OneSignalPerReply` | src/lyricswikiapi.cpp:133-168 | over any run, the number of signals equals the number of replies handled; the entry points emit none |
| `Runs.UntouchedEntryKept` | src/lyricswikiapi.cpp:155-178 | an entry survives unchanged through any steps that do not write its handle |
| `Runs.CompletesOwnLyric` | src/lyricswikiapi.cpp:55-171 | a page guess followed by any other steps that leave its handle alone, then its own page reply: the last signal is its own lyric with the page text, found, and its entry is gone |
| `Runs.ConcurrentGuessesDoNotCross` | src/lyricswikiapi.cpp:55-171 | two page guesses whose pages arrive in reverse order each complete their own lyric, and both entries are removed |
| `Runs.SignalsCarryRegisteredNames` | src/lyricswikiapi.cpp:71-178 | every lyric in the table, and every lyric a signal carries, has the names of a lyric that was waiting at the start or built by a step of the run |
| `Runs.StepNames` | src/lyricswikiapi.cpp:71-178 | the same as `SignalsCarryRegisteredNames`, for one step |
| `Runs.ApiLookupSignalsTwice` | src/lyricswikiapi.cpp:102-171 | an API lookup with a real result, followed by its page, emits a not-found signal with the bare lyric, then the other steps' signals, then a found signal with the completed lyric; its entry is gone afterwards |
| `Runs.FailedPageLeavesEntry` | src/lyricswikiapi.cpp:140-171 | a page guess whose page request fails is reported as `lyricFetched(None, false)`, and its entry stays in the table |

## Left out

- Network I/O (`QNetworkAccessManager::get`), reply lifetime (`deleteLater`)
  and signal/slot wiring (`connect`). A reply is an opaque handle supplied by
  the caller, and a sent request is the handler's returned address.
- Handle freshness is not assumed. After `deleteLater`, a reply's address may
  be reused, and `QHash::insert` then replaces the old entry. `Register` does
  the same.
- JSON decoding (`QJsonDocument::fromJson`). Its result is an input,
  `JsonDocument`.
- HTML parsing (`QWebPage` and `findFirst("div[class=lyricbox]")`, then
  `toPlainText`). The extracted text is an input string, empty when nothing
  matches.
- Parsing the JSON `url` string into a `QUrl`. The chained request is kept as
  that string.
- Rendering URLs as text, and `QUrl`/`QUrlQuery` percent-encoding of the
  path and query values (section 2.1 of RFC 3986). These happen inside Qt.
- Qt's own validity rules for a URL whose path has no leading `/`.
- Logging through `qDebug` and `qCritical`.
- Raw-pointer memory management: the destructor's `qDeleteAll`
  (lines 48-53), and the lyric object's ownership after it is emitted.
- `Lyric` is a value, not a shared object. Each insertion stores a new
  object, and the page handler removes its entry straight after setting the
  text. So the table never shows the in-place update.
- LyricsWiki.LyricsWikiApi.OnGetLyricResult: on the chained path the
  consumer's pointer is the object whose text the page handler sets later.
  The model's signal carries the lyric as it is when emitted, with empty text.
- LyricsWiki.OnApiReply: its signal carries the lyric as it is when emitted,
  for the same reason as for `OnGetLyricResult`.
- The `Lyric` class (lyric.h) is not part of this model. A default-constructed
  lyric is taken to have empty names and text.
- Addressing.BypassUrlShape: a `QString` counts UTF-16 code units, while a
  Dafny string counts Unicode scalar values. So for characters outside the
  Basic Multilingual Plane, the stated path length differs from the source's.
  Replacing spaces is not affected.
- Addressing.BypassUrl: its path length is stated in Unicode scalar values,
  for the same reason as above.
- The order in which concurrent replies complete is not fixed. `Runs`
  quantifies over every order of steps, and each handler is one atomic step.
