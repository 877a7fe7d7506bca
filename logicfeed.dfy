/**
 * The command-line post stream of `logicfeed.py`: polling a user's feed
 * while keeping a watermark, and choosing the format of the start time
 * given on the command line.
 */
module LogicFeed {
  import opened Wrappers
  import opened PostSelection

  // ---------------------------------------------------------------------
  // Post stream: one poll at a time
  // ---------------------------------------------------------------------

  /**
   * The state of `get_post_stream` between two polls: the watermark
   * `lastCreatedTime` and the posts yielded so far.
   */
  class PostStream {
    const userId: string
    var lastCreatedTime: Timestamp
    var yielded: seq<Post>

    /** The watermark starts at `since` when one is given, otherwise at `now`. */
    constructor (userId: string, since: Option<Timestamp>, now: Timestamp)
      ensures this.userId == userId
      ensures lastCreatedTime == (if since.Some? then since.value else now)
      ensures yielded == []
    {
      this.userId := userId;
      lastCreatedTime := if since.None? then now else since.value;
      yielded := [];
    }

    /**
     * One iteration of the stream loop: fetch the posts newer than the
     * watermark, move the watermark to the first of them and yield them
     * all in order. Nothing changes when there are none.
     */
    method Poll(fetch: string -> seq<Post>)
      modifies this
      ensures var posts := GetPosts(fetch, userId, old(lastCreatedTime));
        && yielded == old(yielded) + posts
        && lastCreatedTime == (if posts == [] then old(lastCreatedTime) else posts[0].createdTime)
      ensures lastCreatedTime >= old(lastCreatedTime)
      ensures yielded != old(yielded) ==> lastCreatedTime > old(lastCreatedTime)
    {
      var posts := GetPosts(fetch, userId, lastCreatedTime);
      if posts != [] {
        assert posts[0] in posts;
        lastCreatedTime := posts[0].createdTime;
        for i := 0 to |posts|
          invariant yielded == old(yielded) + posts[..i]
          invariant lastCreatedTime == posts[0].createdTime
        {
          yielded := yielded + [posts[i]];
        }
        assert posts[..|posts|] == posts;
      }
    }
  }

  /**
   * When the feed lists posts newest first, a post yielded by one poll is
   * not yielded again by the next one, whatever the feed then holds.
   */
  lemma NoPostYieldedTwice(fetch1: string -> seq<Post>, fetch2: string -> seq<Post>,
                           userId: string, since: Timestamp)
    requires NewestFirst(fetch1(RequestPath(userId)))
    requires GetPosts(fetch1, userId, since) != []
    ensures var first := GetPosts(fetch1, userId, since);
      var second := GetPosts(fetch2, userId, first[0].createdTime);
      forall p :: p in first ==> p !in second
  {
    var feed := fetch1(RequestPath(userId));
    var first := GetPosts(fetch1, userId, since);
    PrefixNewestFirst(feed, since);
    FirstSelectedIsNewest(NewerPrefix(feed, since));
    assert first == Statuses(NewerPrefix(feed, since));
    forall p | p in first ensures p.createdTime <= first[0].createdTime {
      var k :| 0 <= k < |first| && first[k] == p;
    }
  }

  // ---------------------------------------------------------------------
  // Start time formats
  // ---------------------------------------------------------------------

  /** One position of an anchored pattern: `\d` or a literal character. */
  datatype PatternSym = Digit | Lit(c: char)

  predicate SymMatches(sym: PatternSym, c: char)
  {
    match sym
    case Digit => '0' <= c <= '9'
    case Lit(d) => c == d
  }

  /** `re.match('^…$', s)`: the whole string matches the pattern. */
  predicate FullMatch(pattern: seq<PatternSym>, s: string)
  {
    |s| == |pattern| && forall i :: 0 <= i < |s| ==> SymMatches(pattern[i], s[i])
  }

  /** `\d{n}` */
  function Digits(n: nat): seq<PatternSym>
  {
    seq(n, _ => Digit)
  }

  /** A pattern and the `strptime` format used when it matches. */
  datatype TimeFormat = TimeFormat(pattern: seq<PatternSym>, format: string)

  const Date: seq<PatternSym> := Digits(4) + [Lit('-')] + Digits(2) + [Lit('-')] + Digits(2)

  /** The accepted start times, in the order they are tried. */
  const StartTimeFormats: seq<TimeFormat> := [
    TimeFormat(Digits(4), "%Y"),
    TimeFormat(Digits(4) + [Lit('-')] + Digits(2), "%Y-%m"),
    TimeFormat(Digits(2) + [Lit('-')] + Digits(2), "%m-%d"),
    TimeFormat(Date, "%Y-%m-%d"),
    TimeFormat(Date + [Lit('T')] + Digits(2), "%Y-%m-%dT%H"),
    TimeFormat(Date + [Lit('T')] + Digits(2) + [Lit(':')] + Digits(2), "%Y-%m-%dT%H:%M"),
    TimeFormat(Date + [Lit('T')] + Digits(2) + [Lit(':')] + Digits(2) + [Lit(':')] + Digits(2),
               "%Y-%m-%dT%H:%M:%S")
  ]

  /** The error raised for a start time no pattern accepts. */
  datatype StartTimeError = InvalidStartTime(message: string)

  /** Format `i` is the first in `formats` whose pattern matches `s`. */
  predicate IsFirstMatch(formats: seq<TimeFormat>, i: int, s: string)
  {
    && 0 <= i < |formats|
    && FullMatch(formats[i].pattern, s)
    && forall j :: 0 <= j < i ==> !FullMatch(formats[j].pattern, s)
  }

  /**
   * `starttime(timestr)`: the format of the first pattern that matches, or
   * the error when none does. Parsing with that format is left out.
   */
  method StartTimeFormat(timestr: string) returns (r: Result<string, StartTimeError>)
    ensures r.Ok? ==> exists i :: IsFirstMatch(StartTimeFormats, i, timestr) && r.value == StartTimeFormats[i].format
    ensures r.Err? <==> forall i :: 0 <= i < |StartTimeFormats| ==> !FullMatch(StartTimeFormats[i].pattern, timestr)
    ensures r.Err? ==> r.error == InvalidStartTime(timestr + " is not a valid start time")
  {
    for i := 0 to |StartTimeFormats|
      invariant forall j :: 0 <= j < i ==> !FullMatch(StartTimeFormats[j].pattern, timestr)
    {
      if FullMatch(StartTimeFormats[i].pattern, timestr) {
        assert IsFirstMatch(StartTimeFormats, i, timestr);
        return Ok(StartTimeFormats[i].format);
      }
    }
    return Err(InvalidStartTime(timestr + " is not a valid start time"));
  }

  /** The patterns have pairwise different lengths, so at most one matches: their order does not matter. */
  lemma AtMostOneFormatMatches(i: nat, j: nat, s: string)
    requires i < |StartTimeFormats| && j < |StartTimeFormats|
    requires FullMatch(StartTimeFormats[i].pattern, s) && FullMatch(StartTimeFormats[j].pattern, s)
    ensures i == j
  {
    var lengths := [4, 7, 5, 10, 13, 16, 19];
    assert forall k :: 0 <= k < |StartTimeFormats| ==> |StartTimeFormats[k].pattern| == lengths[k];
  }

  /** "2014-06" is read with "%Y-%m"; "2014-6" is rejected. */
  lemma StartTimeExamples()
    ensures IsFirstMatch(StartTimeFormats, 1, "2014-06")
    ensures forall i :: 0 <= i < |StartTimeFormats| ==> !FullMatch(StartTimeFormats[i].pattern, "2014-6")
  {
    assert FullMatch(StartTimeFormats[1].pattern, "2014-06");
    assert !FullMatch(StartTimeFormats[2].pattern, "2014-6") by {
      assert !SymMatches(StartTimeFormats[2].pattern[2], "2014-6"[2]);
    }
  }
}
