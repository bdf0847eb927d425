/**
  Runs of the LyricWiki client: the two entry points and the two reply
  handlers applied one after another to the pending-request table, in any
  order the network delivers the replies. The lemmas say what holds across
  such a run: one signal per reply, no lyric completed by another lookup's
  page, and a completed lyric always one that was registered. Two lemmas show
  where a lookup does not end in exactly one signal with no entry left: an API
  lookup signals twice, and a failed page leaves its entry behind.
*/
module Runs {
  import opened Wrappers
  import opened LyricsWiki

  /** One atomic step of the client: a call of an entry point, or one reply handled. */
  datatype Action =
    | FetchViaApi(artist: string, song: string)
    | FetchViaPageGuess(artist: string, song: string, reply: ReplyId)
    | ApiReplyArrives(transportError: bool, doc: JsonDocument, next: ReplyId)
    | PageReplyArrives(reply: ReplyId, transportError: bool, text: string)

  /** The table after a run and the signals emitted during it, in order. */
  datatype RunResult = RunResult(table: Table, events: seq<Event>)

  /** One step, as the class's methods perform it. */
  function Step(t: Table, a: Action): RunResult
  {
    match a
    case FetchViaApi(_, _) => RunResult(t, [])
    case FetchViaPageGuess(artist, song, reply) => RunResult(Register(t, reply, Lyric(artist, song, "")), [])
    case ApiReplyArrives(transportError, doc, next) =>
      var o := OnApiReply(t, transportError, doc, next);
      RunResult(o.table, [o.event])
    case PageReplyArrives(reply, transportError, text) =>
      var o := OnPageReply(t, reply, transportError, text);
      RunResult(o.table, [o.event])
  }

  /** The steps `acts` applied in order, starting from table `t`. */
  function Run(t: Table, acts: seq<Action>): RunResult
    decreases |acts|
  {
    if acts == [] then RunResult(t, [])
    else
      var first := Step(t, acts[0]);
      var rest := Run(first.table, acts[1..]);
      RunResult(rest.table, first.events + rest.events)
  }

  /** The number of replies handled in `acts`. */
  function Replies(acts: seq<Action>): nat
    decreases |acts|
  {
    if acts == [] then 0
    else (if acts[0].FetchViaApi? || acts[0].FetchViaPageGuess? then 0 else 1) + Replies(acts[1..])
  }

  /** Whether step `a` may write the table entry of handle `r`. */
  predicate Touches(a: Action, r: ReplyId)
  {
    match a
    case FetchViaApi(_, _) => false
    case FetchViaPageGuess(_, _, reply) => reply == r
    case ApiReplyArrives(_, _, next) => next == r
    case PageReplyArrives(reply, _, _) => reply == r
  }

  /** The (artist, title) pairs of the lyrics waiting in `t`. */
  function NamesIn(t: Table): set<(string, string)>
  {
    set r | r in t :: (t[r].artist, t[r].title)
  }

  /** The (artist, title) pairs of the lyrics that the steps of `acts` build. */
  function Introduced(acts: seq<Action>): set<(string, string)>
    decreases |acts|
  {
    if acts == [] then {}
    else
      var here :=
        match acts[0]
        case FetchViaPageGuess(artist, song, _) => {(artist, song)}
        case ApiReplyArrives(transportError, doc, _) =>
          if HasResult(transportError, doc) then {(ResultLyric(doc).artist, ResultLyric(doc).title)} else {}
        case _ => {};
      here + Introduced(acts[1..])
  }

  /** The last signal of a non-empty sequence of signals. */
  function Last(s: seq<Event>): Event
    requires s != []
  {
    s[|s| - 1]
  }

  /** Running `xs` and then `ys` is running `xs + ys`. */
  lemma {:induction false} RunAppend(t: Table, xs: seq<Action>, ys: seq<Action>)
    ensures Run(t, xs + ys).table == Run(Run(t, xs).table, ys).table
    ensures Run(t, xs + ys).events == Run(t, xs).events + Run(Run(t, xs).table, ys).events
    decreases |xs|
  {
    if xs == [] {
      assert xs + ys == ys;
    } else {
      var first := Step(t, xs[0]);
      assert (xs + ys)[0] == xs[0];
      assert (xs + ys)[1..] == xs[1..] + ys;
      RunAppend(first.table, xs[1..], ys);
      var a := Run(first.table, xs[1..]).events;
      var b := Run(Run(first.table, xs[1..]).table, ys).events;
      assert first.events + (a + b) == (first.events + a) + b;
    }
  }

  /** Every reply handled emits exactly one signal; calling an entry point emits none. */
  lemma {:induction false} OneSignalPerReply(t: Table, acts: seq<Action>)
    ensures |Run(t, acts).events| == Replies(acts)
    decreases |acts|
  {
    if acts != [] {
      OneSignalPerReply(Step(t, acts[0]).table, acts[1..]);
    }
  }

  /** An entry survives, unchanged, any run of steps that do not write its handle. */
  lemma {:induction false} UntouchedEntryKept(t: Table, acts: seq<Action>, r: ReplyId)
    requires r in t
    requires forall i :: 0 <= i < |acts| ==> !Touches(acts[i], r)
    ensures r in Run(t, acts).table && Run(t, acts).table[r] == t[r]
    decreases |acts|
  {
    if acts != [] {
      var t1 := Step(t, acts[0]).table;
      assert !Touches(acts[0], r);
      assert r in t1 && t1[r] == t[r];
      UntouchedEntryKept(t1, acts[1..], r);
    }
  }

  /**
    A page guess is completed by its own page, whatever happens to other
    lookups in between: the last signal is its own lyric, with the names it
    was asked for and the text of its page, reported found, and its entry is
    gone afterwards.
  */
  lemma CompletesOwnLyric(t: Table, artist: string, song: string, r: ReplyId, mid: seq<Action>, text: string)
    requires forall i :: 0 <= i < |mid| ==> !Touches(mid[i], r)
    ensures Run(t, [FetchViaPageGuess(artist, song, r)] + mid + [PageReplyArrives(r, false, text)]).events != []
    ensures Last(Run(t, [FetchViaPageGuess(artist, song, r)] + mid + [PageReplyArrives(r, false, text)]).events)
         == LyricFetched(Some(Lyric(artist, song, text)), true)
    ensures r !in Run(t, [FetchViaPageGuess(artist, song, r)] + mid + [PageReplyArrives(r, false, text)]).table
  {
    var guess, page := [FetchViaPageGuess(artist, song, r)], [PageReplyArrives(r, false, text)];
    var t1 := Register(t, r, Lyric(artist, song, ""));
    assert Run(t1, []) == RunResult(t1, []);
    assert Run(t, guess) == RunResult(t1, []);
    RunAppend(t, guess, mid);
    UntouchedEntryKept(t1, mid, r);
    var t2 := Run(t1, mid).table;
    assert Run(t2, []) == RunResult(t2, []);
    assert Run(t2, page).events == [LyricFetched(Some(Lyric(artist, song, text)), true)];
    assert r !in Run(t2, page).table;
    RunAppend(t, guess + mid, page);
  }

  /**
    Two page guesses in flight at once, their pages answered in the opposite
    order: each page completes its own lyric, and both entries are gone.
  */
  lemma ConcurrentGuessesDoNotCross(t: Table, a1: string, s1: string, r1: ReplyId,
                                    a2: string, s2: string, r2: ReplyId, x1: string, x2: string)
    requires r1 != r2
    ensures Run(t, [FetchViaPageGuess(a1, s1, r1), FetchViaPageGuess(a2, s2, r2),
                    PageReplyArrives(r2, false, x2), PageReplyArrives(r1, false, x1)]).events
         == [LyricFetched(Some(Lyric(a2, s2, x2)), true), LyricFetched(Some(Lyric(a1, s1, x1)), true)]
    ensures Run(t, [FetchViaPageGuess(a1, s1, r1), FetchViaPageGuess(a2, s2, r2),
                    PageReplyArrives(r2, false, x2), PageReplyArrives(r1, false, x1)]).table
         == t - {r1, r2}
  {
    var acts := [FetchViaPageGuess(a1, s1, r1), FetchViaPageGuess(a2, s2, r2),
                 PageReplyArrives(r2, false, x2), PageReplyArrives(r1, false, x1)];
    var t1: Table := Register(t, r1, Lyric(a1, s1, ""));
    var t2: Table := Register(t1, r2, Lyric(a2, s2, ""));
    var t3 := t2 - {r2};
    var t4 := t3 - {r1};
    assert r2 in t2 && t2[r2] == Lyric(a2, s2, "");
    assert r1 in t3 && t3[r1] == Lyric(a1, s1, "");
    assert Run(t4, acts[4..]) == RunResult(t4, []);
    assert Run(t3, acts[3..]) == RunResult(t4, [LyricFetched(Some(Lyric(a1, s1, x1)), true)]);
    assert Run(t2, acts[2..]) == RunResult(t4, [LyricFetched(Some(Lyric(a2, s2, x2)), true),
                                                LyricFetched(Some(Lyric(a1, s1, x1)), true)]);
    assert Run(t1, acts[1..]) == Run(t2, acts[2..]);
    assert t4 == t - {r1, r2};
  }

  /**
    A completed or in-flight lyric is never invented: every lyric left in the
    table, and every lyric a signal carries, has the names of one that was
    waiting at the start or that a step of the run built.
  */
  lemma {:induction false} SignalsCarryRegisteredNames(t: Table, acts: seq<Action>)
    ensures NamesIn(Run(t, acts).table) <= NamesIn(t) + Introduced(acts)
    ensures forall e :: e in Run(t, acts).events && e.lyric.Some? ==>
              (e.lyric.value.artist, e.lyric.value.title) in NamesIn(t) + Introduced(acts)
    decreases |acts|
  {
    if acts != [] {
      var first := Step(t, acts[0]);
      assert Introduced(acts) == Introduced([acts[0]]) + Introduced(acts[1..]);
      StepNames(t, acts[0]);
      SignalsCarryRegisteredNames(first.table, acts[1..]);
    }
  }

  /** What one step adds to the names in the table and in its signal. */
  lemma StepNames(t: Table, a: Action)
    ensures NamesIn(Step(t, a).table) <= NamesIn(t) + Introduced([a])
    ensures forall e :: e in Step(t, a).events && e.lyric.Some? ==>
              (e.lyric.value.artist, e.lyric.value.title) in NamesIn(t) + Introduced([a])
  {
    var t' := Step(t, a).table;
    assert Introduced([a][1..]) == {};
    forall n | n in NamesIn(t') ensures n in NamesIn(t) + Introduced([a]) {
      var r :| r in t' && n == (t'[r].artist, t'[r].title);
      if r in t && t'[r] == t[r] {
        assert n in NamesIn(t);
      }
    }
    if a.PageReplyArrives? && !a.transportError && a.reply in t {
      assert (t[a.reply].artist, t[a.reply].title) in NamesIn(t);
    }
  }

  /**
    One API lookup with a real result ends in two signals, not one: the API
    handler's not-found signal with the bare lyric, then the page handler's
    found signal with the same lyric completed. Its entry is gone afterwards.
  */
  lemma ApiLookupSignalsTwice(t: Table, doc: JsonDocument, next: ReplyId, mid: seq<Action>, text: string)
    requires HasResult(false, doc)
    requires forall i :: 0 <= i < |mid| ==> !Touches(mid[i], next)
    ensures Run(t, [ApiReplyArrives(false, doc, next)] + mid + [PageReplyArrives(next, false, text)]).events
         == [LyricFetched(Some(ResultLyric(doc)), false)]
            + Run(Register(t, next, ResultLyric(doc)), mid).events
            + [LyricFetched(Some(ResultLyric(doc).(text := text)), true)]
    ensures next !in Run(t, [ApiReplyArrives(false, doc, next)] + mid + [PageReplyArrives(next, false, text)]).table
  {
    var api, page := [ApiReplyArrives(false, doc, next)], [PageReplyArrives(next, false, text)];
    var t1 := Register(t, next, ResultLyric(doc));
    assert Run(t1, []) == RunResult(t1, []);
    assert Run(t, api) == RunResult(t1, [LyricFetched(Some(ResultLyric(doc)), false)]);
    RunAppend(t, api, mid);
    UntouchedEntryKept(t1, mid, next);
    var t2 := Run(t1, mid).table;
    assert Run(t2, []) == RunResult(t2, []);
    assert Run(t2, page).events == [LyricFetched(Some(ResultLyric(doc).(text := text)), true)];
    assert next !in Run(t2, page).table;
    RunAppend(t, api + mid, page);
  }

  /**
    A page guess whose page request fails is reported not found, but its
    entry stays in the table, still waiting.
  */
  lemma FailedPageLeavesEntry(t: Table, artist: string, song: string, r: ReplyId, text: string)
    ensures Run(t, [FetchViaPageGuess(artist, song, r), PageReplyArrives(r, true, text)]).events
         == [LyricFetched(None, false)]
    ensures r in Run(t, [FetchViaPageGuess(artist, song, r), PageReplyArrives(r, true, text)]).table
    ensures Run(t, [FetchViaPageGuess(artist, song, r), PageReplyArrives(r, true, text)]).table[r]
         == Lyric(artist, song, "")
  {
    var acts := [FetchViaPageGuess(artist, song, r), PageReplyArrives(r, true, text)];
    var t1 := Register(t, r, Lyric(artist, song, ""));
    assert Run(t1, acts[2..]) == RunResult(t1, []);
    assert Run(t1, acts[1..]) == RunResult(t1, [LyricFetched(None, false)]);
  }
}
