/**
 * A small backtracking matcher covering the regular expressions of
 * backend/chatbot.py: character classes repeated a bounded or unbounded
 * number of times (greedily, giving characters back on failure, as Python's
 * `re` does) and a choice between literal words (`(am|pm)`). `Search` is
 * `re.search`: the leftmost position at which the pattern matches.
 */
module Regex {
  import opened Wrappers
  import opened Text

  /** `\d`, `\s`, or a bracket class such as `[-/]`. */
  datatype CharClass = Digit | Space | OneOf(chars: set<char>)

  /** An upper bound on repetitions: `{n,m}` or `*`. */
  datatype Bound = AtMost(n: nat) | Many

  /** One element of a pattern. */
  datatype Piece =
    | Repeat(cls: CharClass, lo: nat, hi: Bound)  // cls{lo,hi}, greedy
    | Alt(words: seq<string>)                     // (w1|w2|...)

  type Pattern = seq<Piece>

  predicate InClass(cls: CharClass, c: char) {
    match cls
    case Digit => IsDigit(c)
    case Space => IsSpace(c)
    case OneOf(cs) => c in cs
  }

  /** How many characters of class `cls` follow position `i`. */
  function Run(cls: CharClass, s: string, i: nat): (n: nat)
    requires i <= |s|
    ensures i + n <= |s|
    ensures forall j :: i <= j < i + n ==> InClass(cls, s[j])
    ensures i + n < |s| ==> !InClass(cls, s[i + n])
    decreases |s| - i
  {
    if i < |s| && InClass(cls, s[i]) then 1 + Run(cls, s, i + 1) else 0
  }

  /** The end of the first match of `p` at position `i`, in the order Python's backtracking tries. */
  function MatchAt(p: Pattern, s: string, i: nat): (r: Option<nat>)
    requires i <= |s|
    ensures r.Some? ==> i <= r.value <= |s|
    decreases |p|, 1, 0
  {
    if p == [] then Some(i)
    else
      match p[0]
      case Repeat(cls, lo, hi) =>
        var avail := Run(cls, s, i);
        var most := match hi case AtMost(n) => if n < avail then n else avail case Many => avail;
        TryCounts(p[1..], s, i, lo, most)
      case Alt(words) => TryWords(p[1..], s, i, words)
  }

  /** Greedy repetition: take `k` characters, then fewer, down to `lo`. */
  function TryCounts(rest: Pattern, s: string, i: nat, lo: nat, k: nat): (r: Option<nat>)
    requires i + k <= |s|
    ensures r.Some? ==> i <= r.value <= |s|
    decreases |rest| + 1, 0, k
  {
    if k < lo then None
    else
      match MatchAt(rest, s, i + k)
      case Some(e) => Some(e)
      case None => if k == 0 then None else TryCounts(rest, s, i, lo, k - 1)
  }

  /** Alternation: try each word in the order written. */
  function TryWords(rest: Pattern, s: string, i: nat, words: seq<string>): (r: Option<nat>)
    requires i <= |s|
    ensures r.Some? ==> i <= r.value <= |s|
    decreases |rest| + 1, 0, |words|
  {
    if words == [] then None
    else if OccursAt(s, words[0], i) then
      match MatchAt(rest, s, i + |words[0]|)
      case Some(e) => Some(e)
      case None => TryWords(rest, s, i, words[1..])
    else TryWords(rest, s, i, words[1..])
  }

  /** The leftmost match at or after `from`, as (start, end). */
  function SearchFrom(p: Pattern, s: string, from: nat): (r: Option<(nat, nat)>)
    requires from <= |s|
    ensures r.Some? ==> from <= r.value.0 <= |s|
    ensures r.Some? ==> MatchAt(p, s, r.value.0) == Some(r.value.1)
    ensures r.Some? ==> forall j :: from <= j < r.value.0 ==> MatchAt(p, s, j).None?
    ensures r.None? ==> forall j :: from <= j <= |s| ==> MatchAt(p, s, j).None?
    decreases |s| - from
  {
    match MatchAt(p, s, from)
    case Some(e) => Some((from, e))
    case None => if from == |s| then None else SearchFrom(p, s, from + 1)
  }

  /** Python's `re.search(p, s)`, yielding `match.group()`. */
  function Search(p: Pattern, s: string): (r: Option<string>)
    ensures r.Some? <==> exists j :: 0 <= j <= |s| && MatchAt(p, s, j).Some?
  {
    match SearchFrom(p, s, 0)
    case Some((b, e)) => assert MatchAt(p, s, b).Some?; Some(s[b..e])
    case None => None
  }

  /** `\d{n}`: exactly `n` digits. */
  function ExactDigits(n: nat): Pattern {
    [Repeat(Digit, n, AtMost(n))]
  }

  /** `\d{n}` matches at `i` exactly when the next `n` characters are digits, and takes just those. */
  lemma ExactDigitsAt(n: nat, s: string, i: nat)
    requires i <= |s|
    ensures MatchAt(ExactDigits(n), s, i) == (if DigitsAt(s, i, n) then Some(i + n) else None)
  {
    var avail := Run(Digit, s, i);
    var p := ExactDigits(n);
    var most := if n < avail then n else avail;
    assert p[0] == Repeat(Digit, n, AtMost(n)) && p[1..] == [];
    assert MatchAt(p, s, i) == TryCounts([], s, i, n, most);
    if DigitsAt(s, i, n) {
      RunCoversDigits(s, i, n);
      assert most == n;
      assert MatchAt([], s, i + n) == Some(i + n);
    } else {
      if avail >= n {
        assert DigitsAt(s, i, n);
      }
      assert most < n;
    }
  }

  lemma {:induction false} RunCoversDigits(s: string, i: nat, n: nat)
    requires DigitsAt(s, i, n)
    ensures Run(Digit, s, i) >= n
    decreases n
  {
    if n > 0 {
      assert InClass(Digit, s[i]);
      RunCoversDigits(s, i + 1, n - 1);
    }
  }

  /** The `n` characters from `i` on exist and are all digits. */
  predicate DigitsAt(s: string, i: nat, n: nat) {
    i + n <= |s| && forall j :: i <= j < i + n ==> IsDigit(s[j])
  }
}
