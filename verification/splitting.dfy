/** Splitting a string on a one-character separator, with the semantics of
    Python's `str.split(sep)` for an explicit separator: every occurrence of
    the separator ends a token, tokens are never trimmed, empty tokens are
    kept, and the empty string splits into one empty token. */
module Splitting {

  /** Number of occurrences of `c` in `s`. */
  function Count(s: string, c: char): (n: nat)
    ensures n <= |s|
    ensures n == 0 <==> c !in s
  {
    if |s| == 0 then 0
    else (if s[0] == c then 1 else 0) + Count(s[1..], c)
  }

  /** The tokens of `s` between occurrences of `sep`, left to right. */
  function Split(s: string, sep: char): (r: seq<string>)
    ensures |r| == Count(s, sep) + 1
    ensures forall i :: 0 <= i < |r| ==> sep !in r[i]
  {
    if |s| == 0 then [""]
    else
      var rest := Split(s[1..], sep);
      if s[0] == sep then [""] + rest
      else [[s[0]] + rest[0]] + rest[1..]
  }

  /** The tokens `ts` glued back together with `sep` between neighbours
      (Python's `sep.join(ts)`), defined for a non-empty token list. */
  function Join(ts: seq<string>, sep: char): string
    requires |ts| > 0
  {
    if |ts| == 1 then ts[0] else ts[0] + [sep] + Join(ts[1..], sep)
  }

  /** Extending the first token by one character extends the joined string. */
  lemma JoinConsChar(c: char, ts: seq<string>, sep: char)
    requires |ts| > 0
    ensures Join([[c] + ts[0]] + ts[1..], sep) == [c] + Join(ts, sep)
  {
  }

  /** Splitting loses nothing: joining the tokens restores the input. */
  lemma {:induction false} JoinSplit(s: string, sep: char)
    ensures Join(Split(s, sep), sep) == s
  {
    if |s| > 0 {
      var rest := Split(s[1..], sep);
      JoinSplit(s[1..], sep);
      if s[0] == sep {
        assert ([""] + rest)[1..] == rest;
      } else {
        JoinConsChar(s[0], rest, sep);
      }
    }
  }

  /** A separator-free prefix fuses with the first token of the rest. */
  lemma {:induction false} SplitFreePrefix(t: string, s: string, sep: char)
    requires sep !in t
    ensures Split(t + s, sep) == [t + Split(s, sep)[0]] + Split(s, sep)[1..]
  {
    if |t| > 0 {
      SplitFreePrefix(t[1..], s, sep);
      assert (t + s)[1..] == t[1..] + s;
      assert [t[0]] + (t[1..] + Split(s, sep)[0]) == t + Split(s, sep)[0];
    } else {
      var r := Split(s, sep);
      assert t + s == s && t + r[0] == r[0];
      assert r == [r[0]] + r[1..];
    }
  }

  /** Joining separator-free tokens and splitting again gives the tokens back. */
  lemma {:induction false} SplitJoin(ts: seq<string>, sep: char)
    requires |ts| > 0
    requires forall i :: 0 <= i < |ts| ==> sep !in ts[i]
    ensures Split(Join(ts, sep), sep) == ts
  {
    if |ts| == 1 {
      SplitFreePrefix(ts[0], "", sep);
      assert ts[0] + "" == ts[0];
    } else {
      var tail := Join(ts[1..], sep);
      SplitJoin(ts[1..], sep);
      assert ts[0] + [sep] + tail == ts[0] + ([sep] + tail);
      SplitFreePrefix(ts[0], [sep] + tail, sep);
      assert ([sep] + tail)[1..] == tail;
      assert Split([sep] + tail, sep) == [""] + ts[1..];
      assert ts[0] + "" == ts[0];
      assert ts == [ts[0]] + ts[1..];
    }
  }
}
