/**
 * The Discogs catalogue client (lib/discogs.ts): the helpers that split the
 * catalogue's combined "Artist - Album" titles and clean artist names, the
 * process-wide rate limiter, the retry loop with capped exponential backoff,
 * the master-then-release detail lookup, the three-tier search and the
 * stored-record short-circuit. HTTP is replaced by oracles: a function from
 * attempt number to status code for the retry loop, and functions from the
 * endpoint asked to its outcome for the lookups built on top of it.
 */
module Discogs {
  import opened Wrappers
  import opened Js

  // =====================================================================
  // Titles and artist names

  /** The separator between artist and album in catalogue titles. */
  const Separator := " - "
  const UnknownArtist := "Unknown Artist"

  /** The artist part of "Artist - Album": everything before the first
      separator; a title without one has an unknown artist. */
  function ExtractArtistFromTitle(title: string): (artist: string)
    ensures Includes(title, Separator) ==> artist == title[..IndexOf(title, Separator).value]
    ensures !Includes(title, Separator) ==> artist == UnknownArtist
  {
    var parts := Split(title, Separator);
    if |parts| > 1 then parts[0] else UnknownArtist
  }

  /** The album part of "Artist - Album": everything after the first
      separator, later separators included; a title without a separator is
      returned whole. */
  function ExtractAlbumTitle(title: string): (album: string)
    ensures Includes(title, Separator) ==> album == title[IndexOf(title, Separator).value + |Separator|..]
    ensures !Includes(title, Separator) ==> album == title
  {
    var parts := Split(title, Separator);
    if |parts| > 1 then
      SplitTail(title, Separator);
      Join(parts[1..], Separator)
    else
      title
  }

  /** Splitting a title that has a separator and gluing the two parts back
      together gives the title. */
  lemma ArtistAlbumRoundTrip(title: string)
    requires Includes(title, Separator)
    ensures ExtractArtistFromTitle(title) + Separator + ExtractAlbumTitle(title) == title
  {
    var i := IndexOf(title, Separator).value;
    assert title[i..i + |Separator|] == Separator;
    assert title == title[..i] + title[i..i + |Separator|] + title[i + |Separator|..];
  }

  /** The extracted artist never contains the separator: it is cut at the
      first one. */
  lemma ArtistHasNoSeparator(title: string)
    requires Includes(title, Separator)
    ensures !Includes(ExtractArtistFromTitle(title), Separator)
  {
    var i := IndexOf(title, Separator).value;
    var artist := title[..i];
    if Includes(artist, Separator) {
      var j := IndexOf(artist, Separator).value;
      assert artist[j..j + |Separator|] == title[j..j + |Separator|];
      assert OccursAt(title, Separator, j);
      assert false;
    }
  }

  /** `g` is matched in full by `\s*\(\d+\)\s*`: white space, an opening
      parenthesis, one or more digits, a closing parenthesis, white space. */
  predicate IsNumericGroup(g: string) {
    var t := Trim(g);
    |t| >= 3 && t[0] == '(' && t[|t| - 1] == ')' && AllDigits(t[1..|t| - 1])
  }

  /** Start of the run of white space that ends at `n`: where `\s*`,
      matched backwards from `n`, begins. */
  function SpacesBefore(s: string, n: nat): (b: nat)
    requires n <= |s|
    ensures b <= n
    ensures forall i :: b <= i < n ==> IsSpace(s[i])
    ensures b == 0 || !IsSpace(s[b - 1])
    decreases n
  {
    if n > 0 && IsSpace(s[n - 1]) then SpacesBefore(s, n - 1) else n
  }

  /** Start of the run of digits that ends at `n`: where `\d*`, matched
      backwards from `n`, begins. */
  function DigitsBefore(s: string, n: nat): (b: nat)
    requires n <= |s|
    ensures b <= n
    ensures forall i :: b <= i < n ==> IsDigit(s[i])
    ensures b == 0 || !IsDigit(s[b - 1])
    decreases n
  {
    if n > 0 && IsDigit(s[n - 1]) then DigitsBefore(s, n - 1) else n
  }

  /** Where the match of `/\s*\(\d+\)\s*$/` starts, if the name has one:
      skip trailing white space back to a `)`, then a run of digits, then a
      `(`, then the white space before it. */
  function NumericSuffixStart(s: string): (r: Option<nat>)
    ensures r.Some? ==> r.value <= |s|
  {
    var e := SpacesBefore(s, |s|);
    if e > 0 && s[e - 1] == ')' then
      var d := DigitsBefore(s, e - 1);
      if 0 < d < e - 1 && s[d - 1] == '(' then Some(SpacesBefore(s, d - 1)) else None
    else None
  }

  /** `artist.replace(/\s*\(\d+\)\s*$/, '').trim()`: the Discogs
      disambiguation number ("Mike Davis (2)") is dropped, and the result
      has no white space at either end. */
  function CleanArtistName(artist: string): (r: string)
    ensures r == [] || (!IsSpace(r[0]) && !IsSpace(r[|r| - 1]))
  {
    var replaced := match NumericSuffixStart(artist)
      case Some(p) => artist[..p]
      case None => artist;
    Trim(replaced)
  }

  /** A run of white space preceded by a non-space is the run found. */
  lemma {:induction false} SpacesBeforeAt(s: string, n: nat, b: nat)
    requires b <= n <= |s|
    requires forall i :: b <= i < n ==> IsSpace(s[i])
    requires b == 0 || !IsSpace(s[b - 1])
    ensures SpacesBefore(s, n) == b
    decreases n
  {
    if n > b {
      SpacesBeforeAt(s, n - 1, b);
    }
  }

  /** A run of digits preceded by a non-digit is the run found. */
  lemma {:induction false} DigitsBeforeAt(s: string, n: nat, b: nat)
    requires b <= n <= |s|
    requires forall i :: b <= i < n ==> IsDigit(s[i])
    requires b == 0 || !IsDigit(s[b - 1])
    ensures DigitsBefore(s, n) == b
    decreases n
  {
    if n > b {
      DigitsBeforeAt(s, n - 1, b);
    }
  }

  /** White space between `p` and `q` belongs to the run that ends at `q`. */
  lemma SpacesBeforeSkip(s: string, p: nat, q: nat)
    requires p <= q <= |s|
    requires forall i :: p <= i < q ==> IsSpace(s[i])
    ensures SpacesBefore(s, q) == SpacesBefore(s, p)
  {
    var b := SpacesBefore(s, p);
    forall i | b <= i < q ensures IsSpace(s[i]) {
      if i < p {} else {}
    }
    SpacesBeforeAt(s, q, b);
  }

  /** `trimEnd` of a prefix, by positions. */
  lemma TrimEndOfPrefix(s: string, n: nat)
    requires n <= |s|
    ensures TrimEnd(s[..n]) == s[..SpacesBefore(s, n)]
  {
    var x, b := s[..n], SpacesBefore(s, n);
    forall i | b <= i < n ensures IsSpace(x[i]) {
      assert x[i] == s[i];
    }
    assert b == 0 || x[b - 1] == s[b - 1];
    TrimEndAt(x, b);
    assert x[..b] == s[..b];
  }

  /** The shape of a match inside `s`, by positions: blanks from `p` to the
      `(` at `open`, digits up to the `)` at `close`, blanks to the end. */
  ghost predicate GroupShape(s: string, p: nat, open: nat, close: nat) {
    && p <= open && open + 1 < close < |s|
    && (forall i :: p <= i < open ==> IsSpace(s[i]))
    && s[open] == '('
    && (forall i :: open < i < close ==> IsDigit(s[i]))
    && s[close] == ')'
    && (forall i :: close < i < |s| ==> IsSpace(s[i]))
  }

  /** A suffix of that shape is a match of the pattern. */
  lemma GroupShapeMatches(s: string, p: nat, open: nat, close: nat)
    requires GroupShape(s, p, open, close)
    ensures IsNumericGroup(s[p..])
  {
    var g := s[p..];
    var a, b := open - p, close + 1 - p;
    ShapeInSuffix(s, p, open, close);
    TrimIsSlice(g, a, b);
    CoreIsGroup(g, a, b);
  }

  /** The shape, seen from inside the suffix `s[p..]`. */
  lemma ShapeInSuffix(s: string, p: nat, open: nat, close: nat)
    requires GroupShape(s, p, open, close)
    ensures var g, a, b := s[p..], open - p, close + 1 - p;
      && a + 3 <= b <= |g|
      && (forall i :: 0 <= i < a ==> IsSpace(g[i]))
      && (forall i :: b <= i < |g| ==> IsSpace(g[i]))
      && g[a] == '(' && g[b - 1] == ')'
      && (forall i :: a < i < b - 1 ==> IsDigit(g[i]))
  {
    var g, a, b := s[p..], open - p, close + 1 - p;
    forall i | 0 <= i < a ensures IsSpace(g[i]) {
      assert g[i] == s[p + i];
    }
    forall i | b <= i < |g| ensures IsSpace(g[i]) {
      assert g[i] == s[p + i];
    }
    forall i | a < i < b - 1 ensures IsDigit(g[i]) {
      assert g[i] == s[p + i];
    }
    assert g[a] == s[open] && g[b - 1] == s[close];
  }

  /** A trim that is "(", digits and ")" makes a numeric group. */
  lemma CoreIsGroup(g: string, a: nat, b: nat)
    requires a + 3 <= b <= |g| && Trim(g) == g[a..b]
    requires g[a] == '(' && g[b - 1] == ')'
    requires forall i :: a < i < b - 1 ==> IsDigit(g[i])
    ensures IsNumericGroup(g)
  {
    var core := g[a..b];
    var digits := core[1..|core| - 1];
    forall j | 0 <= j < |digits| ensures IsDigit(digits[j]) {
      assert digits[j] == g[a + 1 + j];
    }
    assert core[0] == '(' && core[|core| - 1] == ')';
  }

  /** Where the parts of a numeric group lie. */
  lemma GroupBounds(g: string) returns (open: nat, close: nat)
    requires IsNumericGroup(g)
    ensures GroupShape(g, 0, open, close)
  {
    var a, b := TrimBounds(g);
    open, close := CoreBounds(g, a, b);
  }

  /** The same, once the trim `g[a..b]` is known. */
  lemma CoreBounds(g: string, a: nat, b: nat) returns (open: nat, close: nat)
    requires a <= b <= |g|
    requires forall i :: 0 <= i < a ==> IsSpace(g[i])
    requires forall i :: b <= i < |g| ==> IsSpace(g[i])
    requires var core := g[a..b];
      |core| >= 3 && core[0] == '(' && core[|core| - 1] == ')' && AllDigits(core[1..|core| - 1])
    ensures GroupShape(g, 0, open, close)
  {
    var core := g[a..b];
    var digits := core[1..|core| - 1];
    assert AllDigits(digits);
    open, close := a, b - 1;
    assert g[open] == core[0] && g[close] == core[|core| - 1];
    forall i | open < i < close ensures IsDigit(g[i]) {
      assert g[i] == digits[i - a - 1];
      assert IsDigit(digits[i - a - 1]);
    }
  }

  /** A shape inside the suffix `s[q..]`, seen from the whole string. */
  lemma ShapeFromSuffix(s: string, q: nat, a: nat, b: nat) returns (open: nat, close: nat)
    requires q <= |s| && GroupShape(s[q..], 0, a, b)
    ensures open == q + a && close == q + b
    ensures GroupShape(s, q, open, close)
  {
    var g := s[q..];
    open, close := q + a, q + b;
    forall i | q <= i < open ensures IsSpace(s[i]) {
      assert s[i] == g[i - q];
    }
    forall i | close < i < |s| ensures IsSpace(s[i]) {
      assert s[i] == g[i - q];
    }
    forall i | open < i < close ensures IsDigit(s[i]) {
      assert s[i] == g[i - q];
    }
    assert s[open] == g[a] && s[close] == g[b];
  }

  /** A suffix that is a match has the shape of one. */
  lemma SuffixShape(s: string, q: nat) returns (open: nat, close: nat)
    requires q <= |s| && IsNumericGroup(s[q..])
    ensures GroupShape(s, q, open, close)
  {
    var a, b := GroupBounds(s[q..]);
    open, close := ShapeFromSuffix(s, q, a, b);
  }

  /** Where the function finds a suffix, that suffix has the shape of a
      match, and no white space is left in front of it. */
  lemma SoundShape(s: string) returns (open: nat, close: nat)
    requires NumericSuffixStart(s).Some?
    ensures GroupShape(s, NumericSuffixStart(s).value, open, close)
    ensures NumericSuffixStart(s).value == 0 || !IsSpace(s[NumericSuffixStart(s).value - 1])
  {
    close := SpacesBefore(s, |s|) - 1;
    open := DigitsBefore(s, close) - 1;
  }

  /** The suffix the function removes is a match of the pattern, and no
      white space is left in front of it. */
  lemma NumericSuffixSound(s: string)
    requires NumericSuffixStart(s).Some?
    ensures NumericSuffixStart(s).value <= |s|
    ensures IsNumericGroup(s[NumericSuffixStart(s).value..])
    ensures NumericSuffixStart(s).value == 0 || !IsSpace(s[NumericSuffixStart(s).value - 1])
  {
    var open, close := SoundShape(s);
    GroupShapeMatches(s, NumericSuffixStart(s).value, open, close);
  }

  /** Any match of the pattern that reaches the end of the name is found:
      the match found starts where the white space before it begins, no
      later than the given one, with only white space in between. */
  lemma NumericSuffixComplete(s: string, q: nat)
    requires q <= |s| && IsNumericGroup(s[q..])
    ensures NumericSuffixStart(s) == Some(SpacesBefore(s, q))
    ensures NumericSuffixStart(s).value <= q
    ensures forall i :: NumericSuffixStart(s).value <= i < q ==> IsSpace(s[i])
  {
    var open, close := SuffixShape(s, q);
    ShapeFound(s, q, open, close);
  }

  /** The function's steps on a suffix of the shape of a match. */
  lemma ShapeFound(s: string, q: nat, open: nat, close: nat)
    requires GroupShape(s, q, open, close)
    ensures NumericSuffixStart(s) == Some(SpacesBefore(s, q))
  {
    SpacesBeforeAt(s, |s|, close + 1);
    DigitsBeforeAt(s, close, open + 1);
    SpacesBeforeSkip(s, q, open);
  }

  /** A name with no numeric group at its end is only trimmed
      ("Artist (US)", "Artist (The) Name", "Pink Floyd"). */
  lemma CleanKeepsOtherNames(s: string)
    requires forall q :: 0 <= q <= |s| ==> !IsNumericGroup(s[q..])
    ensures CleanArtistName(s) == Trim(s)
  {
    if NumericSuffixStart(s).Some? {
      NumericSuffixSound(s);
    }
  }

  /** A name ending in a numeric group loses it, with the white space
      before it: the result is the trimmed text before the group. */
  lemma CleanDropsNumericGroup(s: string, q: nat)
    requires q <= |s| && IsNumericGroup(s[q..])
    ensures CleanArtistName(s) == Trim(s[..q])
  {
    NumericSuffixComplete(s, q);
    TrimEndOfPrefix(s, q);
    TrimAfterTrimEnd(s[..q]);
  }

  /** The disambiguation number Discogs appends ("Mike Davis (2)") is
      removed, with the blank before it. */
  lemma CleanDropsDisambiguation(x: string, d: string)
    requires d != [] && AllDigits(d)
    ensures CleanArtistName(x + " (" + d + ")") == Trim(x)
  {
    var s := DisambiguationMatches(x, d);
    CleanDropsNumericGroup(s, |x|);
  }

  /** Of two numeric groups only the last one is removed: "A (1) (2)"
      becomes "A (1)". */
  lemma CleanDropsLastGroupOnly(x: string, d: string, e: string)
    requires d != [] && AllDigits(d) && e != [] && AllDigits(e)
    ensures CleanArtistName(x + " (" + d + ") (" + e + ")") == Trim(x + " (" + d + ")")
  {
    assert x + " (" + d + ") (" + e + ")" == (x + " (" + d + ")") + " (" + e + ")";
    CleanDropsDisambiguation(x + " (" + d + ")", e);
  }

  /** Cleaning is not idempotent: a name with two numeric groups is changed
      again by a second cleaning ("A (1) (2)" gives "A (1)", then "A"). */
  lemma CleanNotIdempotent(x: string, d: string, e: string)
    requires x != [] && !IsSpace(x[0]) && !IsSpace(x[|x| - 1])
    requires d != [] && AllDigits(d) && e != [] && AllDigits(e)
    ensures var s := x + " (" + d + ") (" + e + ")";
      && CleanArtistName(s) == x + " (" + d + ")"
      && CleanArtistName(CleanArtistName(s)) == x
      && CleanArtistName(CleanArtistName(s)) != CleanArtistName(s)
  {
    var once := x + " (" + d + ")";
    CleanDropsLastGroupOnly(x, d, e);
    assert once[0] == x[0] && once[|once| - 1] == ')';
    TrimUnchanged(once);
    CleanDropsDisambiguation(x, d);
    TrimUnchanged(x);
  }

  lemma DisambiguationShape(x: string, d: string)
    requires d != [] && AllDigits(d)
    ensures GroupShape(x + " (" + d + ")", |x|, |x| + 1, |x| + 2 + |d|)
  {
    var s := x + " (" + d + ")";
    var n := |x|;
    assert s[n] == ' ' && s[n + 1] == '(' && s[n + 2 + |d|] == ')';
    forall i | n + 1 < i < n + 2 + |d| ensures IsDigit(s[i]) {
      assert s[i] == d[i - n - 2];
    }
  }

  lemma DisambiguationMatches(x: string, d: string) returns (s: string)
    requires d != [] && AllDigits(d)
    ensures s == x + " (" + d + ")"
    ensures |x| <= |s| && s[..|x|] == x && IsNumericGroup(s[|x|..])
  {
    s := x + " (" + d + ")";
    DisambiguationShape(x, d);
    GroupShapeMatches(s, |x|, |x| + 1, |x| + 2 + |d|);
  }

  // =====================================================================
  // Rate limiting (lib/discogs.ts:21-36)

  /** Minimum spacing, in milliseconds, between two request starts. */
  const RateLimitDelay := 1100

  /** How long `waitForRateLimit` sleeps when called at `now` after a
      request started at `last`: the rest of the 1100 ms window, or nothing. */
  function RateLimitWait(now: int, last: int): (delay: nat)
    ensures now + delay >= last + RateLimitDelay
    ensures delay > 0 ==> now + delay == last + RateLimitDelay
    ensures delay <= RateLimitDelay || now < last
  {
    if now - last < RateLimitDelay then RateLimitDelay - (now - last) else 0
  }

  /** The module-level state of the client: when the last request started.
      The ghost log `starts` records every request start, so that the
      spacing promise can be stated. */
  class RateLimiter {
    var lastRequestTime: int
    ghost var starts: seq<int>

    /** The last logged start is `lastRequestTime`, and consecutive starts
        are at least `RateLimitDelay` apart. */
    ghost predicate Valid()
      reads this
    {
      && (|starts| > 0 ==> starts[|starts| - 1] == lastRequestTime)
      && (forall i :: 0 < i < |starts| ==> starts[i - 1] + RateLimitDelay <= starts[i])
    }

    constructor()
      ensures Valid()
      ensures lastRequestTime == 0 && starts == []
    {
      lastRequestTime := 0;
      starts := [];
    }

    /** `waitForRateLimit` called when the clock reads `now`: sleep for the
        rest of the window, then record the clock as the new start. The
        timer may fire `late` milliseconds after it was due. */
    method WaitForRateLimit(now: int, late: nat) returns (delay: nat)
      requires Valid()
      modifies this
      ensures Valid()
      ensures delay == RateLimitWait(now, old(lastRequestTime))
      ensures lastRequestTime == now + delay + late
      ensures starts == old(starts) + [lastRequestTime]
    {
      var timeSinceLastRequest := now - lastRequestTime;
      delay := 0;
      if timeSinceLastRequest < RateLimitDelay {
        delay := RateLimitDelay - timeSinceLastRequest;
      }
      lastRequestTime := now + delay + late;
      starts := starts + [lastRequestTime];
    }

    /** `fetchWithRetry`: attempt `k` is started when the clock reads
        `clock(k)`, its rate-limit timer fires `late(k)` late, and the server
        answers `network(k)`. The result is the one `RetryFrom` describes,
        one request start is logged per attempt, and `waits` lists the
        backoff sleeps in order. */
    method FetchWithRetry(maxRetries: nat, network: nat -> Reply, clock: nat -> int, late: nat -> nat)
      returns (outcome: FetchOutcome, waits: seq<nat>)
      requires Valid()
      modifies this
      ensures Valid()
      ensures outcome == RetryFrom(network, maxRetries, 0).outcome
      ensures |starts| == |old(starts)| + RetryFrom(network, maxRetries, 0).fetches
      ensures starts[..|old(starts)|] == old(starts)
      ensures waits == BackoffSchedule(RetryFrom(network, maxRetries, 0).backoffs)
    {
      var retries: nat := 0;
      waits := [];
      while retries <= maxRetries
        invariant Valid()
        invariant RetryFrom(network, maxRetries, retries) == RetryFrom(network, maxRetries, 0)
        invariant |starts| == |old(starts)| + retries
        invariant starts[..|old(starts)|] == old(starts)
        invariant waits == BackoffSchedule(retries)
        decreases maxRetries + 1 - retries
      {
        var _ := WaitForRateLimit(clock(retries), late(retries));
        var reply := network(retries);
        if reply.NetworkError? {
          outcome := FetchRejected(reply.reason);
          return;
        }
        if reply.status == TooManyRequests {
          retries := retries + 1;
          if retries > maxRetries {
            outcome := RateLimitExceeded;
            return;
          }
          var waitTime := Backoff(retries);
          waits := waits + [waitTime];
          continue;
        }
        outcome := Response(reply.status);
        return;
      }
      outcome := RequestFailed;
    }
  }

  // =====================================================================
  // Retry with capped exponential backoff (lib/discogs.ts:38-64)

  const TooManyRequests := 429
  const DefaultMaxRetries := 3

  function Pow2(n: nat): (r: nat)
    ensures r >= 1
  {
    if n == 0 then 1 else 2 * Pow2(n - 1)
  }

  /** The sleep before retry number `r`: `min(5000 * 2^(r-1), 30000)`. */
  function Backoff(r: nat): (ms: nat)
    requires r >= 1
    ensures 5000 <= ms <= 30000
  {
    var exp := 5000 * Pow2(r - 1);
    if exp < 30000 then exp else 30000
  }

  /** Backoff grows with the retry number, doubling until the cap. */
  lemma {:induction false} BackoffGrows(r: nat)
    requires r >= 1
    ensures Backoff(r + 1) == if 2 * Backoff(r) < 30000 then 2 * Backoff(r) else 30000
    ensures Backoff(r) <= Backoff(r + 1)
  {
  }

  /** With the default of three retries the sleeps are 5, 10 and 20 seconds,
      and from the fourth retry on they stay at the 30-second cap. */
  lemma DefaultBackoffs(r: nat)
    requires r >= 4
    ensures BackoffSchedule(DefaultMaxRetries) == [5000, 10000, 20000]
    ensures Backoff(r) == 30000
  {
    assert Pow2(3) == 8;
    PowMonotone(3, r - 1);
  }

  lemma {:induction false} PowMonotone(m: nat, n: nat)
    requires m <= n
    ensures Pow2(m) <= Pow2(n)
    decreases n
  {
    if m < n {
      PowMonotone(m, n - 1);
    }
  }

  /** The sleeps taken after the first `n` rate-limited answers. */
  function BackoffSchedule(n: nat): (waits: seq<nat>)
    ensures |waits| == n
    ensures forall i :: 0 <= i < n ==> waits[i] == Backoff(i + 1)
  {
    if n == 0 then [] else BackoffSchedule(n - 1) + [Backoff(n)]
  }

  /** What one `fetch` gives: a response with its status, or a rejected
      promise (a network failure) with its error message. */
  datatype Reply = Answered(status: int) | NetworkError(reason: string)

  /** What a call of `fetchWithRetry` ends with: the first response that is
      not 429, the rate-limit error, the rejection of a `fetch`, which
      propagates at once, or the error thrown after the loop. */
  datatype FetchOutcome = Response(status: int) | RateLimitExceeded | FetchRejected(reason: string) | RequestFailed

  /** The outcome, the number of fetches performed and the number of
      backoff sleeps taken. */
  datatype RetryRun = RetryRun(outcome: FetchOutcome, fetches: nat, backoffs: nat)

  /** The retry loop entered with `retries` rate-limited answers so far. */
  function RetryFrom(network: nat -> Reply, maxRetries: nat, retries: nat): (r: RetryRun)
    ensures retries <= maxRetries ==> retries < r.fetches <= maxRetries + 1 && r.outcome != RequestFailed
    ensures r.backoffs + 1 == r.fetches || retries > maxRetries
    decreases maxRetries + 1 - retries
  {
    if retries <= maxRetries then
      match network(retries)
      case NetworkError(reason) => RetryRun(FetchRejected(reason), retries + 1, retries)
      case Answered(status) =>
        if status == TooManyRequests then
          if retries + 1 > maxRetries then RetryRun(RateLimitExceeded, retries + 1, retries)
          else RetryFrom(network, maxRetries, retries + 1)
        else RetryRun(Response(status), retries + 1, retries)
    else RetryRun(RequestFailed, retries, retries)
  }

  /** The loop's contract, from any point inside it: at most
      `maxRetries + 1` fetches in all; a response is the first non-429
      answer, returned unchanged; a rejected fetch ends the loop with its
      error, with no retry; the rate-limit error comes only after every
      attempt was answered 429; the error after the loop is never
      reached. */
  lemma {:induction false} RetryFromSpec(network: nat -> Reply, maxRetries: nat, retries: nat)
    requires retries <= maxRetries
    ensures var r := RetryFrom(network, maxRetries, retries);
      && retries < r.fetches <= maxRetries + 1
      && r.backoffs == r.fetches - 1
      && r.outcome != RequestFailed
      && (forall k :: retries <= k < r.fetches - 1 ==> network(k) == Answered(TooManyRequests))
      && (r.outcome.Response? ==>
            network(r.fetches - 1) == Answered(r.outcome.status) && r.outcome.status != TooManyRequests)
      && (r.outcome.FetchRejected? ==> network(r.fetches - 1) == NetworkError(r.outcome.reason))
      && (r.outcome == RateLimitExceeded ==>
            r.fetches == maxRetries + 1 && network(maxRetries) == Answered(TooManyRequests))
    decreases maxRetries + 1 - retries
  {
    if network(retries) == Answered(TooManyRequests) && retries + 1 <= maxRetries {
      RetryFromSpec(network, maxRetries, retries + 1);
    }
  }

  /** From the start: the call performs between 1 and `maxRetries + 1`
      fetches, and it gives up with the rate-limit error exactly when every
      one of the `maxRetries + 1` answers was 429; otherwise it returns the
      first other answer, or the first rejection. */
  lemma RetrySpec(network: nat -> Reply, maxRetries: nat)
    ensures var r := RetryFrom(network, maxRetries, 0);
      && 1 <= r.fetches <= maxRetries + 1
      && r.backoffs == r.fetches - 1
      && r.outcome != RequestFailed
      && (r.outcome == RateLimitExceeded <==>
            forall k :: 0 <= k <= maxRetries ==> network(k) == Answered(TooManyRequests))
      && (forall k :: 0 <= k < r.fetches - 1 ==> network(k) == Answered(TooManyRequests))
      && (r.outcome.Response? ==>
            network(r.fetches - 1) == Answered(r.outcome.status) && r.outcome.status != TooManyRequests)
      && (r.outcome.FetchRejected? ==> network(r.fetches - 1) == NetworkError(r.outcome.reason))
  {
    RetryFromSpec(network, maxRetries, 0);
  }

  // =====================================================================
  // Albums built from catalogue answers (lib/discogs.ts:1-19, 205-287)

  /** The two kinds of catalogue entry. */
  datatype Kind = Master | Release

  /** The `DiscogsAlbum` record handed to callers. `kind` is set only by the
      first two search tiers; absent optional fields are `None`. */
  datatype DiscogsAlbum = DiscogsAlbum(
    id: string,
    title: string,
    artist: string,
    discogsArtistId: Option<string>,
    year: Option<int>,
    coverImage: Option<string>,
    thumb: Option<string>,
    kind: Option<Kind>)

  /** The parts of a master or release payload that are read. */
  datatype ArtistRef = ArtistRef(name: Option<string>, id: Option<int>)
  datatype Image = Image(uri: Option<string>, resourceUrl: Option<string>)
  datatype Details = Details(
    id: int,
    title: string,
    artists: seq<ArtistRef>,
    year: Option<int>,
    images: seq<Image>,
    thumb: Option<string>)

  /** One answered request: how the retry loop ended, and the body. */
  datatype Exchange<T> = Exchange(outcome: FetchOutcome, body: T)

  /** `response.ok`: a response with a status in 200-299. */
  predicate IsOk(o: FetchOutcome) {
    o.Response? && 200 <= o.status <= 299
  }

  const ApiError := "Erreur Discogs API"
  /** The message once the retries are used up, with the default
      `maxRetries` of 3 that every caller uses. */
  const RateLimitError := "Rate limit dépassé après 3 tentatives"
  const RetriesExhausted := "Échec de la requête après plusieurs tentatives"

  /** `Erreur Discogs API: ${response.status}`. */
  function StatusText(status: int): (msg: string)
    ensures |msg| > |ApiError| + 2 && msg[..|ApiError| + 2] == ApiError + ": "
    ensures ParseInt(msg[|ApiError| + 2..]) == Some(status)
  {
    var head := ApiError + ": ";
    ParseIntToString(status);
    assert (head + IntToString(status))[|head|..] == IntToString(status);
    head + IntToString(status)
  }

  /** The message of the error a request that is not ok ends with. A
      response that is not ok is reported with its status; the retry loop
      reports its own errors; a rejected `fetch` keeps its message. */
  function ErrorText(o: FetchOutcome): (msg: string)
    ensures o.Response? ==>
      && |msg| > |ApiError| + 2 && msg[..|ApiError| + 2] == ApiError + ": "
      && ParseInt(msg[|ApiError| + 2..]) == Some(o.status)
    ensures o == RateLimitExceeded ==> msg == RateLimitError
    ensures o.FetchRejected? ==> msg == o.reason
    ensures o == RequestFailed ==> msg == RetriesExhausted
  {
    match o
    case Response(status) => StatusText(status)
    case RateLimitExceeded => RateLimitError
    case FetchRejected(reason) => reason
    case RequestFailed => RetriesExhausted
  }

  /** The artist name of a payload: the first credited artist's name when it
      is non-empty, otherwise the artist part of the title; then cleaned. */
  function DetailsArtist(d: Details): (artist: string)
    ensures |d.artists| > 0 && TruthyString(d.artists[0].name) ==> artist == CleanArtistName(d.artists[0].name.value)
    ensures !(|d.artists| > 0 && TruthyString(d.artists[0].name)) ==> artist == CleanArtistName(ExtractArtistFromTitle(d.title))
  {
    var name := if |d.artists| > 0 then d.artists[0].name else None;
    CleanArtistName(OrString(name, Some(ExtractArtistFromTitle(d.title))).value)
  }

  /** The first credited artist's id as text, when there is one. */
  function DetailsArtistId(d: Details): (id: Option<string>)
    ensures id.Some? <==> |d.artists| > 0 && d.artists[0].id.Some?
    ensures id.Some? ==> ParseInt(id.value) == d.artists[0].id
  {
    if |d.artists| > 0 && d.artists[0].id.Some? then
      ParseIntToString(d.artists[0].id.value);
      Some(IntToString(d.artists[0].id.value))
    else None
  }

  /** The album of a master payload: the cover is the first image's `uri`,
      or else its `resource_url`. */
  function AlbumFromMaster(d: Details): (a: DiscogsAlbum)
    ensures ParseInt(a.id) == Some(d.id) && a.title == d.title && a.year == d.year
    ensures a.artist == DetailsArtist(d) && a.discogsArtistId == DetailsArtistId(d)
    ensures |d.images| == 0 ==> a.coverImage == None
    ensures |d.images| > 0 ==> a.coverImage == OrString(d.images[0].uri, d.images[0].resourceUrl)
    ensures a.thumb == None && a.kind == None
  {
    ParseIntToString(d.id);
    var cover := if |d.images| > 0 then OrString(d.images[0].uri, d.images[0].resourceUrl) else None;
    DiscogsAlbum(IntToString(d.id), d.title, DetailsArtist(d), DetailsArtistId(d), d.year, cover, None, None)
  }

  /** The album of a release payload: the cover is the first image's `uri`,
      or else the payload's `thumb`. */
  function AlbumFromRelease(d: Details): (a: DiscogsAlbum)
    ensures ParseInt(a.id) == Some(d.id) && a.title == d.title && a.year == d.year
    ensures a.artist == DetailsArtist(d) && a.discogsArtistId == DetailsArtistId(d)
    ensures a.coverImage == OrString(if |d.images| > 0 then d.images[0].uri else None, d.thumb)
    ensures a.thumb == None && a.kind == None
  {
    ParseIntToString(d.id);
    var uri := if |d.images| > 0 then d.images[0].uri else None;
    DiscogsAlbum(IntToString(d.id), d.title, DetailsArtist(d), DetailsArtistId(d), d.year, OrString(uri, d.thumb), None, None)
  }

  // =====================================================================
  // Detail lookup (lib/discogs.ts:205-311)

  const TokenMissing := "DISCOGS_TOKEN n'est pas défini dans les variables d'environnement"

  /** The details endpoints: what asking for entry `id` of a kind gives. */
  type DetailsEndpoint = (Kind, string) -> Exchange<Details>

  /** A result with the list of endpoints that were asked, in order. */
  datatype Traced<T, Q> = Traced(result: Result<T, string>, queried: seq<Q>)

  /** `getDiscogsMasterDetails` and `getDiscogsAlbumDetails`: one request to
      the endpoint of the kind; a non-ok answer is an error. An empty token
      fails before any request. */
  function FetchDetails(token: string, kind: Kind, id: string, endpoint: DetailsEndpoint): (t: Traced<DiscogsAlbum, Kind>)
    ensures token == "" ==> t == Traced(Err(TokenMissing), [])
    ensures token != "" ==> t.queried == [kind]
    ensures t.result.Ok? <==> token != "" && IsOk(endpoint(kind, id).outcome)
    ensures token != "" && t.result.Err? ==> t.result.error == ErrorText(endpoint(kind, id).outcome)
    ensures t.result.Ok? && kind == Master ==> t.result.value == AlbumFromMaster(endpoint(kind, id).body)
    ensures t.result.Ok? && kind == Release ==> t.result.value == AlbumFromRelease(endpoint(kind, id).body)
  {
    if token == "" then Traced(Err(TokenMissing), [])
    else
      var ex := endpoint(kind, id);
      if !IsOk(ex.outcome) then Traced(Err(ErrorText(ex.outcome)), [kind])
      else if kind == Master then Traced(Ok(AlbumFromMaster(ex.body)), [kind])
      else Traced(Ok(AlbumFromRelease(ex.body)), [kind])
  }

  /** `getDiscogsDetails`: a given kind goes straight to its endpoint;
      without one, the master endpoint is tried first and the release
      endpoint only when that fails. */
  function GetDiscogsDetails(token: string, id: string, kind: Option<Kind>, endpoint: DetailsEndpoint): (t: Traced<DiscogsAlbum, Kind>)
    ensures token == "" ==> t == Traced(Err(TokenMissing), [])
    ensures token != "" ==> 1 <= |t.queried| <= 2 && t.queried[0] == (if kind == Some(Release) then Release else Master)
    ensures |t.queried| == 2 ==> kind == None && t.queried == [Master, Release]
    ensures t.result.Ok? ==> IsOk(endpoint(t.queried[|t.queried| - 1], id).outcome)
  {
    if token == "" then Traced(Err(TokenMissing), [])
    else match kind
      case Some(Master) => FetchDetails(token, Master, id, endpoint)
      case Some(Release) => FetchDetails(token, Release, id, endpoint)
      case None =>
        var master := FetchDetails(token, Master, id, endpoint);
        if master.result.Ok? then master
        else
          var release := FetchDetails(token, Release, id, endpoint);
          Traced(release.result, master.queried + release.queried)
  }

  /** The dispatch of `getDiscogsDetails`, as the endpoints it asks and the
      answer it gives. */
  lemma GetDiscogsDetailsDispatch(token: string, id: string, kind: Option<Kind>, endpoint: DetailsEndpoint)
    requires token != ""
    ensures var t := GetDiscogsDetails(token, id, kind, endpoint);
      && (kind == Some(Master) ==> t == FetchDetails(token, Master, id, endpoint) && t.queried == [Master])
      && (kind == Some(Release) ==> t == FetchDetails(token, Release, id, endpoint) && t.queried == [Release])
      && (kind == None && IsOk(endpoint(Master, id).outcome) ==>
            t.queried == [Master] && t.result == Ok(AlbumFromMaster(endpoint(Master, id).body)))
      && (kind == None && !IsOk(endpoint(Master, id).outcome) ==>
            t.queried == [Master, Release] && t.result == FetchDetails(token, Release, id, endpoint).result)
  {
  }

  /** Without a kind, the lookup fails only when both endpoints fail. */
  lemma GetDiscogsDetailsFails(token: string, id: string, endpoint: DetailsEndpoint)
    ensures GetDiscogsDetails(token, id, None, endpoint).result.Err? <==>
      token == "" || (!IsOk(endpoint(Master, id).outcome) && !IsOk(endpoint(Release, id).outcome))
  {
  }

  // =====================================================================
  // Search (lib/discogs.ts:66-203)

  /** One hit of the search endpoint. */
  datatype SearchHit = SearchHit(
    id: int,
    title: string,
    year: Option<string>,
    thumb: Option<string>,
    coverImage: Option<string>)

  /** The searches made: by artist and title for one kind of entry, or the
      general free-text search for masters. */
  datatype SearchQuery = ByArtistAndTitle(artist: string, title: string, kind: Kind) | General(q: string)

  /** The search endpoint: the answer and its `results` field, `None` when
      the field is absent. */
  type SearchEndpoint = SearchQuery -> Exchange<Option<seq<SearchHit>>>

  /** `result.year ? parseInt(result.year) : undefined`. */
  function HitYear(year: Option<string>): (y: Option<int>)
    ensures !TruthyString(year) ==> y == None
    ensures TruthyString(year) ==> y == ParseInt(year.value)
  {
    if TruthyString(year) then ParseInt(year.value) else None
  }

  /** The album a hit stands for: the title split into artist and album, the
      cover falling back to the thumbnail. */
  function AlbumFromHit(h: SearchHit, kind: Option<Kind>): (a: DiscogsAlbum)
    ensures ParseInt(a.id) == Some(h.id) && a.kind == kind
    ensures a.artist == ExtractArtistFromTitle(h.title) && a.title == ExtractAlbumTitle(h.title)
    ensures a.year == HitYear(h.year) && a.thumb == h.thumb && a.coverImage == OrString(h.coverImage, h.thumb)
    ensures a.discogsArtistId == None
  {
    ParseIntToString(h.id);
    DiscogsAlbum(IntToString(h.id), ExtractAlbumTitle(h.title), ExtractArtistFromTitle(h.title),
                 None, HitYear(h.year), OrString(h.coverImage, h.thumb), h.thumb, kind)
  }

  function AlbumsFromHits(hits: seq<SearchHit>, kind: Option<Kind>): (albums: seq<DiscogsAlbum>)
    ensures |albums| == |hits|
    ensures forall i :: 0 <= i < |hits| ==> albums[i] == AlbumFromHit(hits[i], kind)
  {
    if hits == [] then [] else [AlbumFromHit(hits[0], kind)] + AlbumsFromHits(hits[1..], kind)
  }

  /** The error JavaScript throws when `data.results.map` is called on a
      missing `results` field. */
  const ResultsMissing := "Cannot read properties of undefined (reading 'map')"

  /** `searchDiscogsAlbums`: the general search; a missing `results` field
      is an error (mapping over it throws). */
  function SearchAlbums(token: string, query: string, search: SearchEndpoint): (t: Traced<seq<DiscogsAlbum>, SearchQuery>)
    ensures token == "" ==> t == Traced(Err(TokenMissing), [])
    ensures token != "" ==> t.queried == [General(query)]
    ensures t.result.Ok? <==> token != "" && IsOk(search(General(query)).outcome) && search(General(query)).body.Some?
    ensures t.result.Ok? ==> t.result.value == AlbumsFromHits(search(General(query)).body.value, None)
    ensures token != "" && !IsOk(search(General(query)).outcome) ==>
      t.result == Err(ErrorText(search(General(query)).outcome))
    ensures token != "" && IsOk(search(General(query)).outcome) && search(General(query)).body.None? ==>
      t.result == Err(ResultsMissing)
  {
    if token == "" then Traced(Err(TokenMissing), [])
    else
      var ex := search(General(query));
      if !IsOk(ex.outcome) then Traced(Err(ErrorText(ex.outcome)), [General(query)])
      else if ex.body.None? then Traced(Err(ResultsMissing), [General(query)])
      else Traced(Ok(AlbumsFromHits(ex.body.value, None)), [General(query)])
  }

  /** Whether a search answer has results to return. */
  predicate HasHits(body: Option<seq<SearchHit>>) {
    body.Some? && |body.value| > 0
  }

  /** `searchDiscogsAlbumsByArtistAndTitle`: masters first, then releases,
      then the general search on "artist title"; the first tier that finds
      anything wins, and an error answer ends the search. */
  function SearchByArtistAndTitle(token: string, artist: string, title: string, search: SearchEndpoint): (t: Traced<seq<DiscogsAlbum>, SearchQuery>)
    ensures token == "" ==> t == Traced(Err(TokenMissing), [])
    ensures token != "" ==> 1 <= |t.queried| <= 3 && t.queried[0] == ByArtistAndTitle(artist, title, Master)
    ensures token != "" && !IsOk(search(t.queried[0]).outcome) ==>
      t == Traced(Err(ErrorText(search(t.queried[0]).outcome)), [ByArtistAndTitle(artist, title, Master)])
    ensures t.result.Ok? ==> IsOk(search(t.queried[|t.queried| - 1]).outcome)
  {
    if token == "" then Traced(Err(TokenMissing), [])
    else
      var mq := ByArtistAndTitle(artist, title, Master);
      var masters := search(mq);
      if !IsOk(masters.outcome) then Traced(Err(ErrorText(masters.outcome)), [mq])
      else if HasHits(masters.body) then Traced(Ok(AlbumsFromHits(masters.body.value, Some(Master))), [mq])
      else
        var rq := ByArtistAndTitle(artist, title, Release);
        var releases := search(rq);
        if !IsOk(releases.outcome) then Traced(Err(ErrorText(releases.outcome)), [mq, rq])
        else if HasHits(releases.body) then Traced(Ok(AlbumsFromHits(releases.body.value, Some(Release))), [mq, rq])
        else
          var general := SearchAlbums(token, artist + " " + title, search);
          Traced(general.result, [mq, rq] + general.queried)
  }

  /** The tiers of the search: which searches are made, and whose results
      are returned. */
  lemma SearchTiers(token: string, artist: string, title: string, search: SearchEndpoint)
    requires token != ""
    ensures var t := SearchByArtistAndTitle(token, artist, title, search);
      var mq := ByArtistAndTitle(artist, title, Master);
      var rq := ByArtistAndTitle(artist, title, Release);
      var gq := General(artist + " " + title);
      && 1 <= |t.queried| <= 3
      && t.queried == [mq, rq, gq][..|t.queried|]
      && (IsOk(search(mq).outcome) && HasHits(search(mq).body) ==>
            t.queried == [mq] && t.result == Ok(AlbumsFromHits(search(mq).body.value, Some(Master))))
      && (IsOk(search(mq).outcome) && !HasHits(search(mq).body) && IsOk(search(rq).outcome) && HasHits(search(rq).body) ==>
            t.queried == [mq, rq] && t.result == Ok(AlbumsFromHits(search(rq).body.value, Some(Release))))
      && (|t.queried| == 3 <==>
            IsOk(search(mq).outcome) && !HasHits(search(mq).body) && IsOk(search(rq).outcome) && !HasHits(search(rq).body))
      && (|t.queried| == 3 ==> t.result == SearchAlbums(token, artist + " " + title, search).result)
  {
  }

  /** Every album a successful search returns carries the kind of the tier
      that found it: masters from the first search, releases from the
      second, none from the general search. */
  lemma SearchOneTier(token: string, artist: string, title: string, search: SearchEndpoint)
    requires SearchByArtistAndTitle(token, artist, title, search).result.Ok?
    ensures var t := SearchByArtistAndTitle(token, artist, title, search);
      var k := if |t.queried| == 1 then Some(Master) else if |t.queried| == 2 then Some(Release) else None;
      forall i :: 0 <= i < |t.result.value| ==> t.result.value[i].kind == k
  {
  }

  // =====================================================================
  // Stored albums (lib/discogs.ts:313-338)

  /** An album row as stored: `discogsType` is the kind recorded when the
      album was created, if any. */
  datatype StoredAlbum = StoredAlbum(
    discogsId: string,
    title: string,
    artist: string,
    year: Option<int>,
    coverImage: Option<string>,
    discogsArtistId: Option<string>,
    discogsType: Option<string>)

  /** The `'master' | 'release'` value a stored type stands for; any other
      value takes the master-then-release path. */
  function KindOf(t: Option<string>): (k: Option<Kind>)
    ensures k == Some(Master) <==> t == Some("master")
    ensures k == Some(Release) <==> t == Some("release")
  {
    if t == Some("master") then Some(Master)
    else if t == Some("release") then Some(Release)
    else None
  }

  const AlbumNotFound := "Album non trouvé"

  /** `getAlbumDetails`: a stored album with a cover and an artist id is
      answered from the store; otherwise its details are looked up with the
      stored kind. */
  function GetAlbumDetails(albumId: string, store: map<string, StoredAlbum>, token: string, endpoint: DetailsEndpoint): (t: Traced<DiscogsAlbum, Kind>)
    ensures albumId !in store ==> t == Traced(Err(AlbumNotFound), [])
    ensures t.queried == [] && t.result.Ok? ==>
      albumId in store && t.result.value.id == store[albumId].discogsId && t.result.value.title == store[albumId].title
    ensures t.queried != [] ==> albumId in store && token != ""
  {
    if albumId !in store then Traced(Err(AlbumNotFound), [])
    else
      var album := store[albumId];
      if TruthyString(album.coverImage) && TruthyString(album.discogsArtistId) then
        Traced(Ok(DiscogsAlbum(album.discogsId, album.title, album.artist, album.discogsArtistId,
                               album.year, album.coverImage, None, None)), [])
      else
        GetDiscogsDetails(token, album.discogsId, KindOf(album.discogsType), endpoint)
  }

  /** A complete stored record is returned as it is, with no request; an
      incomplete one is looked up by its Discogs id and stored kind. */
  lemma GetAlbumDetailsShortCircuit(albumId: string, store: map<string, StoredAlbum>, token: string, endpoint: DetailsEndpoint)
    ensures albumId !in store ==> GetAlbumDetails(albumId, store, token, endpoint) == Traced(Err(AlbumNotFound), [])
    ensures albumId in store && TruthyString(store[albumId].coverImage) && TruthyString(store[albumId].discogsArtistId) ==>
      var a := store[albumId];
      && GetAlbumDetails(albumId, store, token, endpoint).queried == []
      && GetAlbumDetails(albumId, store, token, endpoint).result.Ok?
      && var r := GetAlbumDetails(albumId, store, token, endpoint).result.value;
      && r.id == a.discogsId && r.title == a.title && r.artist == a.artist && r.year == a.year
      && r.coverImage == a.coverImage && r.discogsArtistId == a.discogsArtistId
    ensures albumId in store && !(TruthyString(store[albumId].coverImage) && TruthyString(store[albumId].discogsArtistId)) ==>
      GetAlbumDetails(albumId, store, token, endpoint) ==
        GetDiscogsDetails(token, store[albumId].discogsId, KindOf(store[albumId].discogsType), endpoint)
  {
  }
}
