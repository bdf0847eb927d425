/**
  How the LyricWiki client builds the addresses of its two kinds of request:
  the page guess ("bypass") address `artist:song` under the site root, and the
  `api.php` address with its four query items. Both first normalise the names
  by turning every space into an underscore, the site's naming convention.

  A URL is kept as its parts (scheme, host, path, query items); rendering it as
  text, and the percent-encoding that comes with that, is not modelled.
*/
module Addressing {
  import opened Wrappers

  const Space: char := ' '
  const Underscore: char := '_'
  const Colon: char := ':'

  /** The host of both the wiki pages and its API. */
  const SiteHost: string := "lyrics.wikia.com"

  datatype QueryItem = QueryItem(key: string, value: string)

  datatype Url = Url(scheme: string, host: string, path: string, query: seq<QueryItem>)

  /** The site root that the page-guess path starts from. */
  const SiteRoot: Url := Url("http", SiteHost, "", [])

  /** The API endpoint, `http://lyrics.wikia.com/api.php`. */
  const ApiUrl: Url := Url("http", SiteHost, "/api.php", [])

  /**
    The name as the site spells it: every space replaced by an underscore,
    every other character left where it was.
  */
  function NoSpaces(s: string): (r: string)
    ensures |r| == |s|
    ensures forall i :: 0 <= i < |s| ==> r[i] == (if s[i] == Space then Underscore else s[i])
  {
    if s == [] then []
    else [if s[0] == Space then Underscore else s[0]] + NoSpaces(s[1..])
  }

  /**
    The page-guess address: `artist:song`, both normalised, under the site
    root. It is plain http to the site host with no query; its path has no
    space, has the colon right after the artist's part, and is one character
    longer than the two names together.
  */
  function BypassUrl(artist: string, song: string): (u: Url)
    ensures u.scheme == "http" && u.host == SiteHost && u.query == []
    ensures |u.path| == |artist| + 1 + |song|
    ensures u.path[|artist|] == Colon
    ensures Space !in u.path
  {
    SiteRoot.(path := NoSpaces(artist) + [Colon] + NoSpaces(song))
  }

  /**
    The four query items of a `getSong` call, in the order they are added:
    `func`, `artist`, `song`, `fmt`, no key twice, and no space in any value.
  */
  function ApiQuery(artist: string, song: string): (q: seq<QueryItem>)
    ensures |q| == 4
    ensures q[0].key == "func" && q[1].key == "artist" && q[2].key == "song" && q[3].key == "fmt"
    ensures forall i, j :: 0 <= i < j < |q| ==> q[i].key != q[j].key
    ensures forall i :: 0 <= i < |q| ==> Space !in q[i].value
  {
    [ QueryItem("func", "getSong"),
      QueryItem("artist", NoSpaces(artist)),
      QueryItem("song", NoSpaces(song)),
      QueryItem("fmt", "realjson") ]
  }

  /**
    The full API request address: the endpoint with the `getSong` query of
    four items, none of whose values contains a space.
  */
  function ApiRequestUrl(artist: string, song: string): (u: Url)
    ensures u.scheme == ApiUrl.scheme && u.host == ApiUrl.host && u.path == ApiUrl.path
    ensures |u.query| == 4
    ensures forall i :: 0 <= i < |u.query| ==> Space !in u.query[i].value
  {
    ApiUrl.(query := ApiQuery(artist, song))
  }

  /** The value of the first query item named `key`, if there is one. */
  function QueryValue(q: seq<QueryItem>, key: string): (r: Option<string>)
    ensures r.Some? ==> QueryItem(key, r.value) in q
    ensures r.None? <==> forall i :: 0 <= i < |q| ==> q[i].key != key
    ensures r.Some? ==> exists i :: 0 <= i < |q| && q[i] == QueryItem(key, r.value)
                                  && forall j :: 0 <= j < i ==> q[j].key != key
  {
    if q == [] then None
    else if q[0].key == key then Some(q[0].value)
    else QueryValue(q[1..], key)
  }

  /**
    Reads a page name back as the two names it joins: the part before the
    first colon and the part after it.
  */
  function SplitAtFirstColon(p: string): (r: Option<(string, string)>)
    ensures r.None? <==> Colon !in p
    ensures r.Some? ==> Colon !in r.value.0 && r.value.0 + [Colon] + r.value.1 == p
  {
    if p == [] then None
    else if p[0] == Colon then Some(([], p[1..]))
    else
      match SplitAtFirstColon(p[1..])
      case None => None
      case Some(parts) => Some(([p[0]] + parts.0, parts.1))
  }

  // ---------------------------------------------------------------------------
  // Normalisation

  /** The normalised name never contains a space. */
  lemma NoSpacesHasNoSpace(s: string)
    ensures Space !in NoSpaces(s)
  {
  }

  /** A name that has no space is its own normal form. */
  lemma NoSpacesKeepsSpaceless(s: string)
    requires Space !in s
    ensures NoSpaces(s) == s
  {
  }

  /** Normalising twice is normalising once. */
  lemma NoSpacesIdempotent(s: string)
    ensures NoSpaces(NoSpaces(s)) == NoSpaces(s)
  {
    NoSpacesHasNoSpace(s);
    NoSpacesKeepsSpaceless(NoSpaces(s));
  }

  /** Normalisation neither adds nor removes a colon. */
  lemma NoSpacesKeepsColons(s: string)
    ensures Colon in NoSpaces(s) <==> Colon in s
  {
    var r := NoSpaces(s);
    if Colon in r {
      var i :| 0 <= i < |r| && r[i] == Colon;
      assert s[i] == Colon;
    }
    if Colon in s {
      var i :| 0 <= i < |s| && s[i] == Colon;
      assert r[i] == Colon;
    }
  }

  /** Normalisation is not one-to-one: a space and an underscore give the same name. */
  lemma NoSpacesConflates()
    ensures NoSpaces("The Beatles") == "The_Beatles"
    ensures NoSpaces("The_Beatles") == "The_Beatles"
  {
    BeatlesNormalised();
    NoSpacesKeepsSpaceless("The_Beatles");
  }

  /** The example's artist name, normalised. */
  lemma BeatlesNormalised()
    ensures NoSpaces("The Beatles") == "The_Beatles"
  {
    var s, r := "The Beatles", NoSpaces("The Beatles");
    assert forall i :: 0 <= i < |s| ==> r[i] == "The_Beatles"[i];
  }

  // ---------------------------------------------------------------------------
  // The page-guess address

  /**
    The page-guess request goes to `http://lyrics.wikia.com` with path
    `norm(artist) + ":" + norm(song)` and no query; the path has no space and
    is one character longer than the two names together.
  */
  lemma BypassUrlShape(artist: string, song: string)
    ensures BypassUrl(artist, song).scheme == "http"
    ensures BypassUrl(artist, song).host == SiteHost
    ensures BypassUrl(artist, song).query == []
    ensures BypassUrl(artist, song).path == NoSpaces(artist) + [Colon] + NoSpaces(song)
    ensures |BypassUrl(artist, song).path| == |artist| + 1 + |song|
    ensures Space !in BypassUrl(artist, song).path
  {
    NoSpacesHasNoSpace(artist);
    NoSpacesHasNoSpace(song);
  }

  /** Joining at a colon and splitting at the first colon are inverse when the left part has no colon. */
  lemma {:induction false} SplitJoined(a: string, b: string)
    requires Colon !in a
    ensures SplitAtFirstColon(a + [Colon] + b) == Some((a, b))
  {
    var p := a + [Colon] + b;
    if a != [] {
      assert p[0] == a[0] != Colon;
      assert p[1..] == a[1..] + [Colon] + b;
      SplitJoined(a[1..], b);
      assert [a[0]] + a[1..] == a;
    }
  }

  /**
    When the artist name has no colon, the page name reads back as exactly the
    two normalised names.
  */
  lemma BypassPathReadsBack(artist: string, song: string)
    requires Colon !in artist
    ensures SplitAtFirstColon(BypassUrl(artist, song).path) == Some((NoSpaces(artist), NoSpaces(song)))
  {
    NoSpacesKeepsColons(artist);
    SplitJoined(NoSpaces(artist), NoSpaces(song));
  }

  /** With a colon in the artist name two different songs share one page name. */
  lemma BypassPathAmbiguous()
    ensures BypassUrl("AC:DC", "Thunder").path == BypassUrl("AC", "DC:Thunder").path
  {
    AmbiguousNamesAreSpaceless();
    AmbiguousJoin();
  }

  /** The four names of the ambiguity example have no space, so they are already normal. */
  lemma AmbiguousNamesAreSpaceless()
    ensures NoSpaces("AC:DC") == "AC:DC" && NoSpaces("Thunder") == "Thunder"
    ensures NoSpaces("AC") == "AC" && NoSpaces("DC:Thunder") == "DC:Thunder"
  {
    NoSpacesKeepsSpaceless("AC:DC");
    NoSpacesKeepsSpaceless("Thunder");
    NoSpacesKeepsSpaceless("AC");
    NoSpacesKeepsSpaceless("DC:Thunder");
  }

  /** Both joins of the ambiguity example spell the same page name. */
  lemma AmbiguousJoin()
    ensures "AC:DC" + [Colon] + "Thunder" == "AC" + [Colon] + "DC:Thunder"
  {
  }

  /** The worked example of the page-guess address. */
  lemma BypassUrlExample()
    ensures BypassUrl("The Beatles", "Help").host == "lyrics.wikia.com"
    ensures BypassUrl("The Beatles", "Help").path == "The_Beatles:Help"
  {
    HelpIsSpaceless();
    NoSpacesConflates();
    ExampleJoin();
  }

  /** The example's path, spelled as one literal. */
  lemma ExampleJoin()
    ensures "The_Beatles" + [Colon] + "Help" == "The_Beatles:Help"
  {
  }

  /** The example's song name has no space, so it is already normal. */
  lemma HelpIsSpaceless()
    ensures NoSpaces("Help") == "Help"
  {
    NoSpacesKeepsSpaceless("Help");
  }

  // ---------------------------------------------------------------------------
  // The API address

  /**
    The API request goes to the `api.php` endpoint, with exactly the items
    `func`, `artist`, `song`, `fmt` in that order, and each key reads back the
    value the call put there: the normalised names, `getSong` and `realjson`.
  */
  lemma ApiRequestReadsBack(artist: string, song: string)
    ensures ApiRequestUrl(artist, song).scheme == ApiUrl.scheme
    ensures ApiRequestUrl(artist, song).host == ApiUrl.host
    ensures ApiRequestUrl(artist, song).path == ApiUrl.path
    ensures |ApiRequestUrl(artist, song).query| == 4
    ensures QueryValue(ApiRequestUrl(artist, song).query, "func") == Some("getSong")
    ensures QueryValue(ApiRequestUrl(artist, song).query, "artist") == Some(NoSpaces(artist))
    ensures QueryValue(ApiRequestUrl(artist, song).query, "song") == Some(NoSpaces(song))
    ensures QueryValue(ApiRequestUrl(artist, song).query, "fmt") == Some("realjson")
    ensures ApiRequestUrl(artist, song).query[0].key == "func"
    ensures ApiRequestUrl(artist, song).query[1].key == "artist"
    ensures ApiRequestUrl(artist, song).query[2].key == "song"
    ensures ApiRequestUrl(artist, song).query[3].key == "fmt"
  {
    var q := ApiQuery(artist, song);
    assert q[0].key != "artist" && q[0].key != "song" && q[0].key != "fmt";
    assert q[1..][0].key == "artist";
    assert q[1..][0].key != "song" && q[1..][0].key != "fmt";
    assert q[1..][1..][0].key == "song";
    assert q[1..][1..][0].key != "fmt";
    assert q[1..][1..][1..][0].key == "fmt";
  }
}
