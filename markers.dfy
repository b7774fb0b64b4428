/**
 * The three textual markers the bot rewrites inside messages it has posted:
 *   `Votos: -?[0-9]+`             the vote counter, replaced by `Votos: N`;
 *   `Expiración: <t:([0-9]+):R>`  a merchant's relative expiry, replaced by `Expirado: <t:TS:f>`;
 *   `Empieza En: <t:([0-9]+):R>`  an island's relative start, replaced by `Terminó: <t:TS:f>`.
 * Each is a prefix, an optional '-', a greedy run of digits and a suffix; `Replace`
 * is JavaScript's `String.prototype.replace` with a global regular expression of
 * that shape (leftmost match, scanning resumes after it), and `FirstCapture` is
 * `content.match(regex)?.[1]`.
 */
module Markers {
  import opened Wrappers
  import opened Text

  datatype Pattern = Pattern(prefix: string, signed: bool, suffix: string)

  const Votes := Pattern("Votos: ", true, "")
  const Expiry := Pattern("Expiración: <t:", false, ":R>")
  const IslandStart := Pattern("Empieza En: <t:", false, ":R>")

  /** A pattern whose match cannot begin with, or be followed by, a digit of its number. */
  predicate WellFormed(p: Pattern) {
    |p.prefix| > 0 && !IsDigit(p.prefix[0]) && (p.suffix == [] || !IsDigit(p.suffix[0]))
  }

  /** `c` can occur in a match of `p` only as its first character. */
  predicate Barrier(p: Pattern, c: char) {
    && |p.prefix| > 0 && !IsDigit(c) && c != '-'
    && (forall i :: 1 <= i < |p.prefix| ==> p.prefix[i] != c)
    && (forall i :: 0 <= i < |p.suffix| ==> p.suffix[i] != c)
  }

  /** Length of the leading run of digits. */
  function DigitRun(s: string): (n: nat)
    ensures n <= |s|
  {
    if s != [] && IsDigit(s[0]) then 1 + DigitRun(s[1..]) else 0
  }

  lemma {:induction false} DigitRunSpec(s: string)
    ensures forall i :: 0 <= i < DigitRun(s) ==> IsDigit(s[i])
    ensures DigitRun(s) < |s| ==> !IsDigit(s[DigitRun(s)])
  {
    if s != [] && IsDigit(s[0]) {
      DigitRunSpec(s[1..]);
      forall i | 0 <= i < DigitRun(s) ensures IsDigit(s[i]) {
        if i > 0 { assert s[i] == s[1..][i - 1]; }
      }
    }
  }

  /** 1 when the optional '-' belongs to the match (it must be followed by a digit). */
  function SignLen(p: Pattern, r: string): (d: nat)
    ensures d <= 1 && d <= |r|
  {
    if p.signed && |r| >= 2 && r[0] == '-' && IsDigit(r[1]) then 1 else 0
  }

  /** Length of the match of `p` at the start of `x`; 0 when there is none. */
  function MatchLen(p: Pattern, x: string): (k: nat)
    ensures k == 0 || |p.prefix| < k <= |x|
  {
    var a := |p.prefix|;
    if a <= |x| && x[..a] == p.prefix then
      var d := SignLen(p, x[a..]);
      var n := DigitRun(x[a + d..]);
      if n > 0 && p.suffix <= x[a + d + n..] then a + d + n + |p.suffix| else 0
    else 0
  }

  /** The digits of the match at the start of `x` (the regular expression's group 1). */
  function Capture(p: Pattern, x: string): (ts: string)
    requires MatchLen(p, x) > 0
    ensures |ts| > 0 && AllDigits(ts)
  {
    var a := |p.prefix|;
    var d := SignLen(p, x[a..]);
    var n := DigitRun(x[a + d..]);
    DigitRunSpec(x[a + d..]);
    assert x[a + d..a + d + n] == x[a + d..][..n];
    x[a + d..a + d + n]
  }

  /** `s.replace(/pattern/g, rep)`. */
  function Replace(p: Pattern, s: string, rep: string): string
    decreases |s|
  {
    if s == [] then []
    else
      var k := MatchLen(p, s);
      if k > 0 then rep + Replace(p, s[k..], rep) else [s[0]] + Replace(p, s[1..], rep)
  }

  /** `s.match(/pattern/)?.[1]`: the digits of the leftmost match. */
  function FirstCapture(p: Pattern, s: string): Option<string>
    decreases |s|
  {
    if s == [] then None
    else if MatchLen(p, s) > 0 then Some(Capture(p, s))
    else FirstCapture(p, s[1..])
  }

  /** No match of `p` starts anywhere in `s`. */
  predicate NoMarker(p: Pattern, s: string) {
    forall i :: 0 <= i < |s| ==> MatchLen(p, s[i..]) == 0
  }

  /** The replacement for the vote counter: `Votos: ${votes}`. */
  function VotesText(votes: int): string {
    "Votos: " + IntToString(votes)
  }

  /** The replacement for a relative timestamp: `<tag><t:TS:f>`. */
  function Stamped(tag: string, ts: string): string {
    tag + "<t:" + ts + ":f>"
  }

  /** The vote rewrite of `notifyMerchantVotesChanged` and of both earlier bots. */
  function RewriteVotes(s: string, votes: int): string {
    Replace(Votes, s, VotesText(votes))
  }

  /** The expiry rewrite of `clearMessages`: None when the message has no expiry marker. */
  function RewriteExpiry(s: string): Option<string> {
    match FirstCapture(Expiry, s)
    case None => None
    case Some(ts) => Some(Replace(Expiry, s, Stamped("Expirado: ", ts)))
  }

  /** The start rewrite of the islands cleanup: None when the message has no start marker. */
  function RewriteIslandStart(s: string): Option<string> {
    match FirstCapture(IslandStart, s)
    case None => None
    case Some(ts) => Some(Replace(IslandStart, s, Stamped("Terminó: ", ts)))
  }

  // ---------------------------------------------------------------------------
  // How a match is determined by the text it covers.

  lemma {:induction false} DigitRunDetermined(u: string, v: string, n: nat)
    requires DigitRun(u) == n && n <= |v| && u[..n] == v[..n]
    requires n < |v| ==> !IsDigit(v[n])
    ensures DigitRun(v) == n
    decreases n
  {
    if n > 0 {
      assert u[0] == u[..n][0] == v[..n][0] == v[0];
      assert u[1..][..n - 1] == u[..n][1..] == v[..n][1..] == v[1..][..n - 1];
      DigitRunDetermined(u[1..], v[1..], n - 1);
    } else if v != [] {
      assert !IsDigit(v[0]);
    }
  }

  /** With an empty suffix the character after a match is not a digit (the run is greedy). */
  lemma MatchLookahead(p: Pattern, y: string)
    requires p.suffix == [] && 0 < MatchLen(p, y) < |y|
    ensures !IsDigit(y[MatchLen(p, y)])
  {
    var a := |p.prefix|;
    var d := SignLen(p, y[a..]);
    var n := DigitRun(y[a + d..]);
    DigitRunSpec(y[a + d..]);
    assert y[a + d..][n] == y[a + d + n];
  }

  /** Inside a match, a barrier character can only stand at position 0. */
  lemma BarrierOutside(p: Pattern, y: string, c: char, i: nat)
    requires Barrier(p, c)
    requires 0 < i < MatchLen(p, y)
    ensures y[i] != c
  {
    var a := |p.prefix|;
    var d := SignLen(p, y[a..]);
    var n := DigitRun(y[a + d..]);
    if i < a {
      assert y[i] == y[..a][i] == p.prefix[i];
    } else if i < a + d {
      assert y[i] == y[a..][0] == '-';
    } else if i < a + d + n {
      DigitRunSpec(y[a + d..]);
      assert y[i] == y[a + d..][i - a - d];
    } else {
      assert y[i] == y[a + d + n..][i - a - d - n] == p.suffix[i - a - d - n];
    }
  }

  /** The parts of a match: prefix, sign of length d, n digits, suffix. */
  lemma MatchParts(p: Pattern, y: string) returns (d: nat, n: nat)
    requires MatchLen(p, y) > 0
    ensures var a := |p.prefix|;
      && a + d + n + |p.suffix| == MatchLen(p, y) && n > 0
      && y[..a] == p.prefix && d == SignLen(p, y[a..])
      && n == DigitRun(y[a + d..]) && p.suffix <= y[a + d + n..]
  {
    var a := |p.prefix|;
    d := SignLen(p, y[a..]);
    n := DigitRun(y[a + d..]);
  }

  /** Conversely, parts of the right shape make a match. */
  lemma MatchFromParts(p: Pattern, x: string, d: nat, n: nat)
    requires |p.prefix| + d <= |x| && x[..|p.prefix|] == p.prefix && d == SignLen(p, x[|p.prefix|..])
    requires n > 0 && n == DigitRun(x[|p.prefix| + d..]) && p.suffix <= x[|p.prefix| + d + n..]
    ensures MatchLen(p, x) == |p.prefix| + d + n + |p.suffix|
  {
  }

  /** A match depends only on the characters it covers (and, with no suffix, on the next one). */
  lemma MatchDetermined(p: Pattern, x: string, y: string)
    requires WellFormed(p) && MatchLen(p, y) > 0
    requires MatchLen(p, y) <= |x| && x[..MatchLen(p, y)] == y[..MatchLen(p, y)]
    requires p.suffix == [] && MatchLen(p, y) < |x| ==> !IsDigit(x[MatchLen(p, y)])
    ensures MatchLen(p, x) == MatchLen(p, y)
  {
    var k := MatchLen(p, y);
    var d, n := MatchParts(p, y);
    PartsAgree(p, x, y, k, d, n);
    MatchFromParts(p, x, d, n);
  }

  lemma PartsAgree(p: Pattern, x: string, y: string, k: nat, d: nat, n: nat)
    requires WellFormed(p)
    requires var a := |p.prefix|;
      && a + d + n + |p.suffix| == k && n > 0 && k <= |x| && k <= |y|
      && y[..a] == p.prefix && d == SignLen(p, y[a..])
      && n == DigitRun(y[a + d..]) && p.suffix <= y[a + d + n..]
    requires x[..k] == y[..k]
    requires p.suffix == [] && k < |x| ==> !IsDigit(x[k])
    ensures var a := |p.prefix|;
      && x[..a] == p.prefix && d == SignLen(p, x[a..])
      && n == DigitRun(x[a + d..]) && p.suffix <= x[a + d + n..]
  {
    var a := |p.prefix|;
    PrefixPartAgrees(p.prefix, x, y, k);
    SignPartAgrees(p, x, y, k, d, n);
    DigitsAgree(p, x, y, k, d, n);
    SuffixPartAgrees(p.suffix, x, y, k, a + d + n);
  }

  lemma PrefixPartAgrees(prefix: string, x: string, y: string, k: nat)
    requires |prefix| <= k <= |x| && k <= |y| && x[..k] == y[..k] && y[..|prefix|] == prefix
    ensures x[..|prefix|] == prefix
  {
    SliceAgree(x, y, k, 0, |prefix|);
    assert x[..|prefix|] == x[0..|prefix|] && y[..|prefix|] == y[0..|prefix|];
  }

  lemma SignPartAgrees(p: Pattern, x: string, y: string, k: nat, d: nat, n: nat)
    requires var a := |p.prefix|;
      && a + d + n <= k <= |x| && k <= |y| && x[..k] == y[..k]
      && d == SignLen(p, y[a..]) && n > 0 && n == DigitRun(y[a + d..])
    ensures d == SignLen(p, x[|p.prefix|..])
  {
    var a := |p.prefix|;
    SliceAgree(x, y, k, a, a + d + n);
    assert x[a..][..d + n] == x[a..a + d + n] && y[a..][..d + n] == y[a..a + d + n];
    assert y[a..][d..] == y[a + d..];
    SignDetermined(p, x[a..], y[a..], n);
  }

  lemma SuffixPartAgrees(suffix: string, x: string, y: string, k: nat, j: nat)
    requires j + |suffix| == k <= |x| && k <= |y| && x[..k] == y[..k] && suffix <= y[j..]
    ensures suffix <= x[j..]
  {
    SliceAgree(x, y, k, j, k);
    assert x[j..][..|suffix|] == x[j..k] && y[j..][..|suffix|] == y[j..k];
  }

  /** Two strings equal on their first `k` characters are equal on every slice below `k`. */
  lemma SliceAgree(x: string, y: string, k: nat, i: nat, j: nat)
    requires i <= j <= k <= |x| && k <= |y| && x[..k] == y[..k]
    ensures x[i..j] == y[i..j]
  {
    forall l | i <= l < j
      ensures x[l] == y[l]
    {
      assert x[l] == x[..k][l] && y[l] == y[..k][l];
    }
  }

  lemma DigitsAgree(p: Pattern, x: string, y: string, k: nat, d: nat, n: nat)
    requires WellFormed(p)
    requires var a := |p.prefix|;
      && a + d + n + |p.suffix| == k && n > 0 && k <= |x| && k <= |y|
      && n == DigitRun(y[a + d..]) && p.suffix <= y[a + d + n..]
    requires x[..k] == y[..k]
    requires p.suffix == [] && k < |x| ==> !IsDigit(x[k])
    ensures n == DigitRun(x[|p.prefix| + d..])
  {
    var a := |p.prefix|;
    var u, v := y[a + d..], x[a + d..];
    assert u[..n] == v[..n] by {
      assert u[..n] == y[..k][a + d..a + d + n];
      assert v[..n] == x[..k][a + d..a + d + n];
    }
    if n < |v| {
      if p.suffix != [] {
        assert y[a + d + n..][0] == p.suffix[0];
        assert v[n] == x[..k][a + d + n] == y[..k][a + d + n] == y[a + d + n];
      } else {
        assert v[n] == x[k];
      }
    }
    DigitRunDetermined(u, v, n);
  }

  /** The optional sign is decided by the first two characters after the prefix. */
  lemma SignDetermined(p: Pattern, rx: string, ry: string, n: nat)
    requires n > 0 && n == DigitRun(ry[SignLen(p, ry)..])
    requires SignLen(p, ry) + n <= |rx| && SignLen(p, ry) + n <= |ry|
    requires rx[..SignLen(p, ry) + n] == ry[..SignLen(p, ry) + n]
    ensures SignLen(p, rx) == SignLen(p, ry)
  {
    var d := SignLen(p, ry);
    assert rx[0] == rx[..d + n][0] == ry[..d + n][0] == ry[0];
    if d == 0 {
      assert ry[d..][0] == ry[0];
    } else {
      assert rx[1] == rx[..d + n][1] == ry[..d + n][1] == ry[1];
    }
  }

  // ---------------------------------------------------------------------------
  // Replacing never creates a new match in front of the replaced text.

  /**
   * If no match starts at the beginning of `w + u`, then none starts there after the
   * matches inside `u` are replaced by a text that begins with a barrier character.
   */
  lemma {:induction false} NoNewMatch(p: Pattern, w: string, u: string, rep: string)
    requires WellFormed(p) && |rep| > 0 && Barrier(p, rep[0])
    requires |w| > 0 && MatchLen(p, w + u) == 0
    ensures MatchLen(p, w + Replace(p, u, rep)) == 0
    decreases |u|
  {
    if u == [] {
      assert w + Replace(p, u, rep) == w + u;
    } else if MatchLen(p, u) > 0 {
      var tail := Replace(p, u[MatchLen(p, u)..], rep);
      assert w + Replace(p, u, rep) == w + rep + tail by {
        assert Replace(p, u, rep) == rep + tail;
      }
      NoMatchBeforeBarrier(p, w, u, rep, tail);
    } else {
      var w' := w + [u[0]];
      assert MatchLen(p, w' + Replace(p, u[1..], rep)) == 0 by {
        assert w + u == w' + u[1..];
        NoNewMatch(p, w', u[1..], rep);
      }
      assert w + Replace(p, u, rep) == w' + Replace(p, u[1..], rep) by {
        assert Replace(p, u, rep) == [u[0]] + Replace(p, u[1..], rep);
      }
    }
  }

  /**
   * The step of NoNewMatch at a match of `u`: a match in front of the barrier that
   * replaces it would already have been a match in front of `u`.
   */
  lemma NoMatchBeforeBarrier(p: Pattern, w: string, u: string, rep: string, tail: string)
    requires WellFormed(p) && |rep| > 0 && Barrier(p, rep[0])
    requires |w| > 0 && MatchLen(p, w + u) == 0 && MatchLen(p, u) > 0
    ensures MatchLen(p, w + rep + tail) == 0
  {
    var x := w + u;
    var y := w + rep + tail;
    var m := MatchLen(p, y);
    if m > 0 {
      assert m <= |w| by {
        if |w| < m {
          assert y[|w|] == rep[0];
          BarrierOutside(p, y, rep[0], |w|);
        }
      }
      assert x[..m] == y[..m] by {
        assert x[..m] == w[..m] == y[..m];
      }
      assert p.suffix == [] && m < |x| ==> !IsDigit(x[m]) by {
        if p.suffix == [] && m < |x| {
          if m < |w| {
            MatchLookahead(p, y);
            assert x[m] == y[m];
          } else {
            assert u[..|p.prefix|] == p.prefix;
            assert x[m] == u[0] == p.prefix[0];
          }
        }
      }
      MatchDetermined(p, x, y);
      assert false;
    }
  }

  /** The first character of a replaced text is a barrier or the original first character. */
  lemma ReplaceHead(p: Pattern, u: string, rep: string)
    requires |rep| > 0 && u != []
    ensures Replace(p, u, rep) != []
    ensures Replace(p, u, rep)[0] == if MatchLen(p, u) > 0 then rep[0] else u[0]
  {
  }

  // ---------------------------------------------------------------------------
  // The vote counter.

  lemma VotesWellFormed()
    ensures WellFormed(Votes)
    ensures Barrier(Votes, 'V')
  {
  }

  /** `Votos: N` followed by a non-digit is itself exactly one counter. */
  lemma VotesTextMatches(votes: int, t: string)
    requires t == [] || !IsDigit(t[0])
    ensures MatchLen(Votes, VotesText(votes) + t) == |VotesText(votes)|
  {
    var x := VotesText(votes) + t;
    var num := IntToString(votes);
    var d := if votes < 0 then 1 else 0;
    assert x[..7] == Votes.prefix && x[7..] == num + t by {
      assert x == Votes.prefix + (num + t);
    }
    assert d == SignLen(Votes, x[7..]) by {
      assert x[7..][0] == num[0];
      if votes < 0 {
        assert x[7..][1] == num[1] == num[1..][0];
      }
    }
    assert |num| - d == DigitRun(x[7 + d..]) by {
      assert x[7 + d..] == num[d..] + t;
      DigitsThenStop(num[d..], t);
    }
    MatchFromParts(Votes, x, d, |num| - d);
  }

  /** A run of digits followed by a non-digit (or nothing) is read in full. */
  lemma {:induction false} DigitsThenStop(digits: string, t: string)
    requires AllDigits(digits)
    requires t == [] || !IsDigit(t[0])
    ensures DigitRun(digits + t) == |digits|
  {
    if digits == [] {
      assert digits + t == t;
    } else {
      assert (digits + t)[0] == digits[0];
      assert (digits + t)[1..] == digits[1..] + t;
      DigitsThenStop(digits[1..], t);
    }
  }

  /**
   * Rewriting the counters to N and then to anything else is the same as rewriting
   * them to that directly: the N-rewrite keeps every counter a counter, creates no
   * new one, and changes nothing between them.
   */
  lemma {:induction false} VotesOverwrite(s: string, votes: int, rep2: string)
    ensures Replace(Votes, RewriteVotes(s, votes), rep2) == Replace(Votes, s, rep2)
    decreases |s|
  {
    var rep := VotesText(votes);
    VotesWellFormed();
    if s != [] {
      var k := MatchLen(Votes, s);
      if k > 0 {
        var t := Replace(Votes, s[k..], rep);
        assert RewriteVotes(s, votes) == rep + t;
        assert MatchLen(Votes, rep + t) == |rep| by {
          if k < |s| {
            MatchLookahead(Votes, s);
            ReplaceHead(Votes, s[k..], rep);
            assert s[k..][0] == s[k];
          }
          VotesTextMatches(votes, t);
        }
        assert Replace(Votes, rep + t, rep2) == rep2 + Replace(Votes, t, rep2) by {
          assert (rep + t)[|rep|..] == t;
        }
        VotesOverwrite(s[k..], votes, rep2);
      } else {
        var y := RewriteVotes(s, votes);
        assert y == [s[0]] + Replace(Votes, s[1..], rep);
        assert MatchLen(Votes, y) == 0 by {
          assert [s[0]] + s[1..] == s;
          NoNewMatch(Votes, [s[0]], s[1..], rep);
        }
        assert y[1..] == RewriteVotes(s[1..], votes);
        VotesOverwrite(s[1..], votes, rep2);
      }
    }
  }

  /** Applying the same vote update twice gives the text of applying it once. */
  lemma VotesIdempotent(s: string, votes: int)
    ensures RewriteVotes(RewriteVotes(s, votes), votes) == RewriteVotes(s, votes)
  {
    VotesOverwrite(s, votes, VotesText(votes));
  }

  /** A later update overrides an earlier one completely. */
  lemma VotesLastWins(s: string, first: int, second: int)
    ensures RewriteVotes(RewriteVotes(s, first), second) == RewriteVotes(s, second)
  {
    VotesOverwrite(s, first, VotesText(second));
  }

  /**
   * Only the numbers change: with every counter's number blanked out, the text
   * before and after the update is the same.
   */
  lemma VotesKeepOtherText(s: string, votes: int)
    ensures Replace(Votes, RewriteVotes(s, votes), "Votos: ") == Replace(Votes, s, "Votos: ")
  {
    VotesOverwrite(s, votes, "Votos: ");
  }

  // ---------------------------------------------------------------------------
  // Marker-free text and the text in front of the first marker.

  /** Text without a marker is left exactly as it is. */
  lemma {:induction false} ReplaceWithoutMarker(p: Pattern, s: string, rep: string)
    requires NoMarker(p, s)
    ensures Replace(p, s, rep) == s
    decreases |s|
  {
    if s != [] {
      assert MatchLen(p, s[0..]) == 0 && s[0..] == s;
      assert NoMarker(p, s[1..]) by {
        forall i | 0 <= i < |s[1..]| ensures MatchLen(p, s[1..][i..]) == 0 {
          assert s[1..][i..] == s[i + 1..];
        }
      }
      ReplaceWithoutMarker(p, s[1..], rep);
    }
  }

  /** The match of `p` starting at position `i` of `s`. */
  function MatchAt(p: Pattern, s: string, i: nat): nat
    requires i <= |s|
  {
    MatchLen(p, s[i..])
  }

  /** No match starts in the first `n` characters of `s`. */
  predicate NoMatchBefore(p: Pattern, s: string, n: nat) {
    n <= |s| && forall i :: 0 <= i < n ==> MatchAt(p, s, i) == 0
  }

  lemma LeadStep(p: Pattern, s: string, n: nat)
    requires n > 0 && NoMatchBefore(p, s, n)
    ensures MatchLen(p, s) == 0 && NoMatchBefore(p, s[1..], n - 1)
  {
    assert MatchAt(p, s, 0) == 0 && s[0..] == s;
    forall i | 0 <= i < n - 1 ensures MatchAt(p, s[1..], i) == 0 {
      assert MatchAt(p, s, i + 1) == 0;
      assert s[1..][i..] == s[i + 1..];
    }
  }

  lemma SliceStep(s: string, n: nat)
    requires 0 < n <= |s|
    ensures s[1..][n - 1..] == s[n..] && s[..n] == [s[0]] + s[1..][..n - 1]
  {
  }

  lemma ConsAssoc(c: char, u: string, r: string, w: string)
    requires w == [c] + u
    ensures [c] + (u + r) == w + r
  {
  }

  lemma DropDrop(s: string, n: nat, k: nat)
    requires n + k <= |s|
    ensures s[n..][k..] == s[n + k..]
  {
  }

  lemma Chain(r: string, u: string, b: string, v: string, w: string)
    requires r == u + b && b == v + w
    ensures r == u + v + w
  {
  }

  lemma ReplaceSkip(p: Pattern, s: string, rep: string)
    requires s != [] && MatchLen(p, s) == 0
    ensures Replace(p, s, rep) == [s[0]] + Replace(p, s[1..], rep)
  {
  }

  /** Text in front of the first match is kept verbatim. */
  lemma {:induction false} ReplaceKeepsLead(p: Pattern, s: string, n: nat, rep: string)
    requires NoMatchBefore(p, s, n)
    ensures Replace(p, s, rep) == s[..n] + Replace(p, s[n..], rep)
    decreases n
  {
    if n > 0 {
      LeadStep(p, s, n);
      ReplaceSkip(p, s, rep);
      var t := s[1..];
      ReplaceKeepsLead(p, t, n - 1, rep);
      SliceStep(s, n);
      ConsAssoc(s[0], t[..n - 1], Replace(p, s[n..], rep), s[..n]);
    }
  }

  lemma {:induction false} FirstCaptureLead(p: Pattern, s: string, n: nat)
    requires NoMatchBefore(p, s, n)
    ensures FirstCapture(p, s) == FirstCapture(p, s[n..])
    decreases n
  {
    if n > 0 {
      LeadStep(p, s, n);
      FirstCaptureLead(p, s[1..], n - 1);
      assert s[1..][n - 1..] == s[n..];
    }
  }

  /** FirstCapture finds a marker exactly when there is one. */
  lemma {:induction false} FirstCaptureNone(p: Pattern, s: string)
    ensures FirstCapture(p, s).None? <==> NoMarker(p, s)
    decreases |s|
  {
    if s != [] {
      assert s[0..] == s;
      FirstCaptureNone(p, s[1..]);
      if NoMarker(p, s[1..]) && MatchLen(p, s) == 0 {
        forall i | 0 <= i < |s| ensures MatchLen(p, s[i..]) == 0 {
          if i > 0 { assert s[i..] == s[1..][i - 1..]; }
        }
      }
      if NoMarker(p, s) {
        forall i | 0 <= i < |s[1..]| ensures MatchLen(p, s[1..][i..]) == 0 {
          assert s[1..][i..] == s[i + 1..];
        }
      }
    }
  }

  // ---------------------------------------------------------------------------
  // The timestamp rewrites leave no marker behind.

  /** No match can start inside `rep`, whatever follows it. */
  predicate Inert(p: Pattern, rep: string) {
    |p.prefix| > 0
    && (forall i :: 1 <= i < |rep| ==> rep[i] != p.prefix[0])
    && !(p.prefix <= rep) && !(rep <= p.prefix)
  }

  lemma InertAt(p: Pattern, rep: string, t: string, i: nat)
    requires Inert(p, rep) && i < |rep|
    ensures MatchLen(p, (rep + t)[i..]) == 0
  {
    var a := |p.prefix|;
    var x := (rep + t)[i..];
    if a <= |x| {
      if i == 0 {
        if a <= |rep| {
          assert x[..a] == rep[..a];
        } else {
          assert x[..a][..|rep|] == rep;
        }
      } else {
        assert x[..a][0] == rep[i];
      }
    }
  }

  /** After replacing with an inert text that starts with a barrier, no marker is left. */
  lemma {:induction false} NoMarkerLeft(p: Pattern, s: string, rep: string)
    requires WellFormed(p) && |rep| > 0 && Barrier(p, rep[0]) && Inert(p, rep)
    ensures NoMarker(p, Replace(p, s, rep))
    decreases |s|
  {
    if s != [] {
      var k := MatchLen(p, s);
      var r := Replace(p, s, rep);
      if k > 0 {
        var t := Replace(p, s[k..], rep);
        assert r == rep + t;
        NoMarkerLeft(p, s[k..], rep);
        forall i | 0 <= i < |r| ensures MatchLen(p, r[i..]) == 0 {
          if i < |rep| {
            InertAt(p, rep, t, i);
          } else {
            assert r[i..] == t[i - |rep|..];
          }
        }
      } else {
        var t := Replace(p, s[1..], rep);
        assert r == [s[0]] + t;
        assert [s[0]] + s[1..] == s;
        NoNewMatch(p, [s[0]], s[1..], rep);
        NoMarkerLeft(p, s[1..], rep);
        forall i | 0 <= i < |r| ensures MatchLen(p, r[i..]) == 0 {
          if i == 0 {
            assert r[0..] == r;
          } else {
            assert r[i..] == t[i - 1..];
          }
        }
      }
    }
  }

  /** Past its first character, a stamped text holds `c` nowhere if neither tag nor frame does. */
  lemma StampedAvoids(tag: string, ts: string, c: char)
    requires |tag| > 0 && AllDigits(ts) && !IsDigit(c)
    requires forall i :: 1 <= i < |tag| ==> tag[i] != c
    requires c !in "<t:" && c !in ":f>"
    ensures forall i :: 1 <= i < |Stamped(tag, ts)| ==> Stamped(tag, ts)[i] != c
  {
    var rep := Stamped(tag, ts);
    forall i | 1 <= i < |rep| ensures rep[i] != c {
      if i < |tag| {
        assert rep[i] == tag[i];
      } else if i < |tag| + 3 {
        assert rep[i] == "<t:"[i - |tag|];
      } else if i < |tag| + 3 + |ts| {
        assert rep[i] == ts[i - |tag| - 3];
      } else {
        assert rep[i] == ":f>"[i - |tag| - 3 - |ts|];
      }
    }
  }

  /** `rep` and the prefix differ at position `j`, so neither is a prefix of the other. */
  lemma DifferAt(prefix: string, rep: string, j: nat)
    requires j < |prefix| && j < |rep| && prefix[j] != rep[j]
    ensures !(prefix <= rep) && !(rep <= prefix)
  {
  }

  lemma ExpiryShape()
    ensures WellFormed(Expiry) && Barrier(Expiry, 'E')
    ensures |Expiry.prefix| > 6 && Expiry.prefix[6] == 'c'
  {
  }

  lemma ExpiredShape(ts: string)
    ensures |Stamped("Expirado: ", ts)| > 6
    ensures Stamped("Expirado: ", ts)[0] == 'E' && Stamped("Expirado: ", ts)[6] == 'd'
  {
  }

  lemma ExpiryStampFacts(ts: string)
    requires AllDigits(ts)
    ensures WellFormed(Expiry)
    ensures Barrier(Expiry, Stamped("Expirado: ", ts)[0])
    ensures Inert(Expiry, Stamped("Expirado: ", ts))
  {
    ExpiryShape();
    ExpiredShape(ts);
    DifferAt(Expiry.prefix, Stamped("Expirado: ", ts), 6);
    StampedAvoids("Expirado: ", ts, 'E');
  }

  lemma IslandStartShape()
    ensures WellFormed(IslandStart) && Barrier(IslandStart, 'T')
    ensures |IslandStart.prefix| > 0 && IslandStart.prefix[0] == 'E'
  {
  }

  lemma EndedShape(ts: string)
    ensures |Stamped("Terminó: ", ts)| > 0 && Stamped("Terminó: ", ts)[0] == 'T'
  {
  }

  lemma IslandStampFacts(ts: string)
    requires AllDigits(ts)
    ensures WellFormed(IslandStart)
    ensures Barrier(IslandStart, Stamped("Terminó: ", ts)[0])
    ensures Inert(IslandStart, Stamped("Terminó: ", ts))
  {
    IslandStartShape();
    EndedShape(ts);
    DifferAt(IslandStart.prefix, Stamped("Terminó: ", ts), 0);
    StampedAvoids("Terminó: ", ts, 'E');
  }

  lemma CaptureIsDigits(p: Pattern, s: string)
    ensures FirstCapture(p, s).Some? ==> |FirstCapture(p, s).value| > 0 && AllDigits(FirstCapture(p, s).value)
    decreases |s|
  {
    if s != [] && MatchLen(p, s) == 0 {
      CaptureIsDigits(p, s[1..]);
    }
  }

  /**
   * The expiry rewrite edits exactly the messages that carry an expiry marker, and
   * the edited text carries none.
   */
  lemma RewriteExpirySpec(s: string)
    ensures RewriteExpiry(s).None? <==> NoMarker(Expiry, s)
    ensures RewriteExpiry(s).Some? ==> NoMarker(Expiry, RewriteExpiry(s).value)
  {
    FirstCaptureNone(Expiry, s);
    CaptureIsDigits(Expiry, s);
    if FirstCapture(Expiry, s).Some? {
      var ts := FirstCapture(Expiry, s).value;
      ExpiryStampFacts(ts);
      NoMarkerLeft(Expiry, s, Stamped("Expirado: ", ts));
    }
  }

  /** The same for the islands' start marker. */
  lemma RewriteIslandStartSpec(s: string)
    ensures RewriteIslandStart(s).None? <==> NoMarker(IslandStart, s)
    ensures RewriteIslandStart(s).Some? ==> NoMarker(IslandStart, RewriteIslandStart(s).value)
  {
    FirstCaptureNone(IslandStart, s);
    CaptureIsDigits(IslandStart, s);
    if FirstCapture(IslandStart, s).Some? {
      var ts := FirstCapture(IslandStart, s).value;
      IslandStampFacts(ts);
      NoMarkerLeft(IslandStart, s, Stamped("Terminó: ", ts));
    }
  }

  /** One step of the scan at a match: the match is replaced and scanning resumes after it. */
  lemma AtMatch(p: Pattern, b: string, rep: string)
    requires MatchLen(p, b) > 0
    ensures Replace(p, b, rep) == rep + Replace(p, b[MatchLen(p, b)..], rep)
    ensures FirstCapture(p, b) == Some(Capture(p, b))
  {
  }

  /** The leftmost match is the one at position n. */
  lemma CaptureFirst(p: Pattern, s: string, n: nat)
    requires NoMatchBefore(p, s, n) && n < |s| && MatchLen(p, s[n..]) > 0
    ensures FirstCapture(p, s) == Some(Capture(p, s[n..]))
  {
    FirstCaptureLead(p, s, n);
    AtMatch(p, s[n..], []);
  }

  /** A match of length k at position n is replaced and scanning resumes after it. */
  lemma AtMatchIn(p: Pattern, s: string, n: nat, k: nat, rep: string)
    requires n < |s| && k == MatchLen(p, s[n..]) > 0
    ensures Replace(p, s[n..], rep) == rep + Replace(p, s[n + k..], rep)
  {
    AtMatch(p, s[n..], rep);
    DropDrop(s, n, k);
  }

  /**
   * Everything in front of the first match (at position n, of length k) is kept,
   * and the match becomes `rep`.
   */
  lemma ReplaceFirst(p: Pattern, s: string, n: nat, k: nat, rep: string)
    requires NoMatchBefore(p, s, n) && n < |s| && k == MatchLen(p, s[n..]) > 0
    ensures Replace(p, s, rep) == s[..n] + rep + Replace(p, s[n + k..], rep)
  {
    ReplaceKeepsLead(p, s, n, rep);
    AtMatchIn(p, s, n, k, rep);
    Chain(Replace(p, s, rep), s[..n], Replace(p, s[n..], rep), rep, Replace(p, s[n + k..], rep));
  }

  /** For a message whose first expiry marker is at position n and has length k. */
  lemma RewriteExpiryFirst(s: string, n: nat, k: nat)
    requires NoMatchBefore(Expiry, s, n) && n < |s| && k == MatchLen(Expiry, s[n..]) > 0
    ensures var rep := Stamped("Expirado: ", Capture(Expiry, s[n..]));
      RewriteExpiry(s) == Some(s[..n] + rep + Replace(Expiry, s[n + k..], rep))
  {
    CaptureFirst(Expiry, s, n);
    ReplaceFirst(Expiry, s, n, k, Stamped("Expirado: ", Capture(Expiry, s[n..])));
  }

  /** For a message whose first start marker is at position n and has length k. */
  lemma RewriteIslandStartFirst(s: string, n: nat, k: nat)
    requires NoMatchBefore(IslandStart, s, n) && n < |s| && k == MatchLen(IslandStart, s[n..]) > 0
    ensures var rep := Stamped("Terminó: ", Capture(IslandStart, s[n..]));
      RewriteIslandStart(s) == Some(s[..n] + rep + Replace(IslandStart, s[n + k..], rep))
  {
    CaptureFirst(IslandStart, s, n);
    ReplaceFirst(IslandStart, s, n, k, Stamped("Terminó: ", Capture(IslandStart, s[n..])));
  }
}
