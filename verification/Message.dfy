/** Fitting a message to a limit, round by round: which lines shrink or go, which stay, and that it ends. */
module Message {

  /** Lines no longer than this are dropped rather than clipped. */
  const SHORT := 16

  const ELLIPSIS: char := '\U{2026}'

  function NonEmpty(lines: seq<string>): seq<string> {
    if lines == [] then [] else (if lines[0] == "" then [] else [lines[0]]) + NonEmpty(lines[1..])
  }

  /** The first n lines, joined. */
  function JoinFirst(lines: seq<string>, n: nat): string
    requires n <= |lines|
  {
    if n == 0 then "" else if n == 1 then lines[0] else JoinFirst(lines, n - 1) + "\n" + lines[n - 1]
  }

  function Join(lines: seq<string>): string {
    JoinFirst(lines, |lines|)
  }

  function Characters(lines: seq<string>, n: nat): nat
    requires n <= |lines|
  {
    if n == 0 then 0 else Characters(lines, n - 1) + |lines[n - 1]|
  }

  /** How long the lines are, joined. */
  function Size(lines: seq<string>): nat {
    if lines == [] then 0 else Characters(lines, |lines|) + |lines| - 1
  }

  lemma {:induction false} JoinLength(lines: seq<string>, n: nat)
    requires 0 < n <= |lines|
    ensures |JoinFirst(lines, n)| == Characters(lines, n) + n - 1
  {
    if n > 1 { JoinLength(lines, n - 1); }
  }

  lemma SizeIsLength(lines: seq<string>)
    ensures |Join(lines)| == Size(lines)
  {
    if lines != [] { JoinLength(lines, |lines|); }
  }

  /** What `str.isspace` calls white space. */
  predicate IsSpace(c: char) {
    var code := c as int;
    || 0x09 <= code <= 0x0d || 0x1c <= code <= 0x20 || code == 0x85 || code == 0xa0 || code == 0x1680
    || 0x2000 <= code <= 0x200a || code == 0x2028 || code == 0x2029 || code == 0x202f || code == 0x205f
    || code == 0x3000
  }

  function RStrip(s: string): (r: string)
    ensures r <= s && (r != "" ==> !IsSpace(r[|r| - 1]))
  {
    if s != "" && IsSpace(s[|s| - 1]) then RStrip(s[..|s| - 1]) else s
  }

  function Max(a: int, b: int): int {
    if a < b then b else a
  }

  function Cut(s: string, limit: nat): string {
    if |s| <= limit then s else s[..limit]
  }

  /** The first of the longest among the first n lines. */
  function Longest(lines: seq<string>, n: nat): (k: nat)
    requires 0 < n <= |lines|
    ensures k < n
  {
    if n == 1 then 0
    else
      var k := Longest(lines, n - 1);
      if |lines[n - 1]| > |lines[k]| then n - 1 else k
  }

  lemma {:induction false} LongestIs(lines: seq<string>, n: nat, i: nat)
    requires i < n <= |lines|
    ensures |lines[i]| <= |lines[Longest(lines, n)]|
    ensures i < Longest(lines, n) ==> |lines[i]| < |lines[Longest(lines, n)]|
  {
    if i < n - 1 {
      LongestIs(lines, n - 1, i);
    } else if n > 1 {
      LongestIs(lines, n - 1, Longest(lines, n - 1));
    }
  }

  /** One round: drop the line if it is short already, or else clip it by what is too much. */
  function Round(lines: seq<string>, excess: nat): seq<string>
    requires |lines| > 1 && excess > 0
  {
    var k := Longest(lines, |lines| - 1);
    if |lines[k]| <= SHORT then Drop(lines, k) else lines[k := Clipped(lines[k], excess)]
  }

  function Clipped(line: string, excess: nat): string
    requires |line| > SHORT && excess > 0
  {
    RStrip(line[..Max(15, |line| - excess - 1)]) + [ELLIPSIS]
  }

  // ---- the rounds come to an end ----

  lemma {:induction false} CharactersClipped(lines: seq<string>, k: nat, line: string, n: nat)
    requires k < |lines| && n <= |lines|
    ensures Characters(lines[k := line], n) == Characters(lines, n) + if k < n then |line| - |lines[k]| else 0
  {
    if n > 0 { CharactersClipped(lines, k, line, n - 1); }
  }

  function Drop(lines: seq<string>, k: nat): (left: seq<string>)
    requires k < |lines|
    ensures |left| == |lines| - 1
    ensures forall i {:trigger left[i]} :: 0 <= i < |left| ==> left[i] == lines[if i < k then i else i + 1]
  {
    lines[..k] + lines[k + 1..]
  }

  lemma {:induction false} CharactersDropped(lines: seq<string>, k: nat, n: nat)
    requires k < |lines| && n < |lines|
    ensures Characters(Drop(lines, k), n) ==
            if n <= k then Characters(lines, n) else Characters(lines, n + 1) - |lines[k]|
  {
    if n > 0 { CharactersDropped(lines, k, n - 1); }
  }

  /** Every round makes the whole strictly shorter. */
  lemma RoundShortens(lines: seq<string>, excess: nat)
    requires |lines| > 1 && excess > 0
    ensures Size(Round(lines, excess)) < Size(lines)
  {
    var k, next := Longest(lines, |lines| - 1), Round(lines, excess);
    if |lines[k]| <= SHORT {
      CharactersDropped(lines, k, |lines| - 1);
    } else {
      CharactersClipped(lines, k, Clipped(lines[k], excess), |lines|);
    }
  }

  /** The first of the longest lines, the last line apart. */
  ghost predicate IsFirstLongest(lines: seq<string>, k: nat) {
    k < |lines| - 1 && forall i :: 0 <= i < |lines| - 1 ==>
      |lines[i]| <= |lines[k]| && (i < k ==> |lines[i]| < |lines[k]|)
  }

  /**
   A round changes the first of the longest lines, the last line apart, and no other: it goes if it has at most
   16 characters and is clipped if it has more. Where it can give up all that is too much, it does.
  */
  lemma RoundTakesFromLongest(lines: seq<string>, excess: nat, k: nat)
    requires excess > 0 && IsFirstLongest(lines, k)
    ensures |lines[k]| <= 16 ==>
      && |Round(lines, excess)| == |lines| - 1
      && (forall i :: 0 <= i < k ==> Round(lines, excess)[i] == lines[i])
      && (forall i :: k < i < |lines| ==> Round(lines, excess)[i - 1] == lines[i])
    ensures |lines[k]| > 16 ==>
      && |Round(lines, excess)| == |lines| && |Round(lines, excess)[k]| < |lines[k]|
      && forall i :: 0 <= i < |lines| && i != k ==> Round(lines, excess)[i] == lines[i]
    ensures |lines[k]| >= 16 + excess ==> Size(Round(lines, excess)) <= Size(lines) - excess
  {
    var longest := Longest(lines, |lines| - 1);
    LongestIs(lines, |lines| - 1, k);
    assert longest == k;
    if |lines[k]| > 16 { CharactersClipped(lines, k, Clipped(lines[k], excess), |lines|); }
  }

  /** What is shortened is the lines that are not empty, each of them, in their order. */
  lemma {:induction false} NonEmptyKeeps(lines: seq<string>, i: nat)
    requires i < |lines|
    ensures NonEmpty(lines) ==
            NonEmpty(lines[..i]) + (if lines[i] == "" then [] else [lines[i]]) + NonEmpty(lines[i + 1..])
  {
    if i > 0 {
      assert lines[..i][1..] == lines[1..][..i - 1] && lines[i + 1..] == lines[1..][i..];
      NonEmptyKeeps(lines[1..], i - 1);
    }
  }

  /** It fits, or only the last line is left. */
  predicate Fits(lines: seq<string>, limit: nat) {
    Size(lines) <= limit || |lines| <= 1
  }

  ghost predicate Follows(rounds: seq<seq<string>>, i: nat, limit: nat)
    requires i + 1 < |rounds|
  {
    !Fits(rounds[i], limit) && rounds[i + 1] == Round(rounds[i], Size(rounds[i]) - limit)
  }

  /** Round after round. */
  ghost predicate Rounds(rounds: seq<seq<string>>, limit: nat) {
    rounds != [] && forall i {:trigger Follows(rounds, i, limit)} :: 0 <= i < |rounds| - 1 ==> Follows(rounds, i, limit)
  }

  /** The text is what is left, joined, after the rounds it takes until the lines fit. */
  ghost predicate Shortened(all: seq<string>, limit: nat, text: string) {
    exists rounds :: Rounds(rounds, limit) && rounds[0] == NonEmpty(all) && EndsAs(rounds[|rounds| - 1], limit, text)
  }

  ghost predicate EndsAs(lines: seq<string>, limit: nat, text: string) {
    Fits(lines, limit) && text == Cut(Join(lines), limit)
  }

  lemma OneMoreRound(rounds: seq<seq<string>>, limit: nat, next: seq<string>)
    requires Rounds(rounds, limit) && !Fits(rounds[|rounds| - 1], limit)
    requires next == Round(rounds[|rounds| - 1], Size(rounds[|rounds| - 1]) - limit)
    ensures Rounds(rounds + [next], limit)
  {
    var more := rounds + [next];
    forall i | 0 <= i < |more| - 1 ensures Follows(more, i, limit) {
      if i < |rounds| - 1 { assert Follows(rounds, i, limit); }
    }
  }

  method LongestLine(lines: seq<string>) returns (k: nat)
    requires |lines| > 1
    ensures k == Longest(lines, |lines| - 1)
  {
    k := 0;
    for n := 1 to |lines| - 1
      invariant k == Longest(lines, n)
    {
      if |lines[n]| > |lines[k]| { k := n; }
    }
  }

  /** The lines joined, shortened to fit. */
  method Shorten(all: seq<string>, limit: nat) returns (text: string)
    ensures Shortened(all, limit, text)
  {
    var lines := NonEmpty(all);
    ghost var rounds := [lines];
    SizeIsLength(lines);
    if |lines| == 1 {
      assert EndsAs(rounds[0], limit, Cut(lines[0], limit));
      return Cut(lines[0], limit);
    }
    while |Join(lines)| > limit && |lines| > 1
      invariant |Join(lines)| == Size(lines)
      invariant Rounds(rounds, limit) && rounds[0] == NonEmpty(all) && rounds[|rounds| - 1] == lines
      decreases Size(lines)
    {
      lines := ShortenOnce(lines, |Join(lines)| - limit);
      OneMoreRound(rounds, limit, lines);
      rounds := rounds + [lines];
      SizeIsLength(lines);
    }
    assert EndsAs(rounds[|rounds| - 1], limit, Cut(Join(lines), limit));
    return Cut(Join(lines), limit);
  }

  method ShortenOnce(all: seq<string>, excess: nat) returns (lines: seq<string>)
    requires |all| > 1 && excess > 0
    ensures lines == Round(all, excess) && Size(lines) < Size(all)
  {
    RoundShortens(all, excess);
    var k := LongestLine(all);
    var line := all[k];
    if |line| <= SHORT {
      lines := Drop(all, k);
    } else {
      lines := all[k := RStrip(line[..Max(15, |line| - excess - 1)]) + [ELLIPSIS]];
    }
  }

  // ---- what becomes of the lines ----

  /** The line as it was, or its beginning and an ellipsis. */
  predicate Abridges(line: string, original: string) {
    line == original || (line != "" && line[|line| - 1] == ELLIPSIS && line[..|line| - 1] < original)
  }

  predicate Sooner(a: nat, b: nat) {
    a < b
  }

  /** Lines of the original, in its order, each whole or abridged. */
  ghost predicate Embeds(at: seq<nat>, lines: seq<string>, original: seq<string>) {
    && |at| == |lines|
    && (forall i, j {:trigger Sooner(at[i], at[j])} :: 0 <= i < j < |at| ==> Sooner(at[i], at[j]))
    && forall i :: 0 <= i < |at| ==> at[i] < |original| && Abridges(lines[i], original[at[i]])
  }

  lemma ClippedAbridges(line: string, original: string, excess: nat)
    requires Abridges(line, original) && |line| > SHORT && excess > 0
    ensures Abridges(Clipped(line, excess), original)
  {
    var shorter, keep := Clipped(line, excess), Max(15, |line| - excess - 1);
    assert shorter[..|shorter| - 1] == RStrip(line[..keep]);
    assert line[..keep] <= line[..|line| - 1];
    assert RStrip(line[..keep]) <= line[..|line| - 1];
  }

  lemma {:induction false} RStripKeeps(s: string, i: nat)
    requires i < |s| && !IsSpace(s[i])
    ensures i < |RStrip(s)|
  {
    if IsSpace(s[|s| - 1]) { RStripKeeps(s[..|s| - 1], i); }
  }

  /** A clipped line gives up what is too much and no more, but for white space at its end: and 15 characters stay. */
  lemma ClippedKeeps(line: string, excess: nat, i: nat)
    requires |line| > SHORT && excess > 0
    ensures |Clipped(line, excess)| <= Max(16, |line| - excess)
    ensures i < Max(15, |line| - excess - 1) && !IsSpace(line[i]) ==>
      i < |Clipped(line, excess)| - 1 && Clipped(line, excess)[i] == line[i]
  {
    var kept := line[..Max(15, |line| - excess - 1)];
    if i < |kept| && !IsSpace(line[i]) { RStripKeeps(kept, i); }
  }

  lemma DropEmbeds(at: seq<nat>, lines: seq<string>, original: seq<string>, k: nat) returns (next: seq<nat>)
    requires Embeds(at, lines, original) && k < |lines| - 1
    ensures Embeds(next, Drop(lines, k), original)
    ensures next != [] && next[|next| - 1] == at[|at| - 1]
  {
    next := at[..k] + at[k + 1..];
    forall i | 0 <= i < |next| ensures next[i] == at[if i < k then i else i + 1] {}
    forall i, j | 0 <= i < j < |next| ensures Sooner(next[i], next[j]) {
      assert Sooner(at[if i < k then i else i + 1], at[if j < k then j else j + 1]);
    }
  }

  lemma ClipEmbeds(at: seq<nat>, lines: seq<string>, original: seq<string>, k: nat, excess: nat)
    requires Embeds(at, lines, original) && k < |lines| && |lines[k]| > SHORT && excess > 0
    ensures Embeds(at, lines[k := Clipped(lines[k], excess)], original)
  {
    ClippedAbridges(lines[k], original[at[k]], excess);
  }

  lemma RoundEmbeds(at: seq<nat>, lines: seq<string>, original: seq<string>, excess: nat) returns (next: seq<nat>)
    requires Embeds(at, lines, original) && |lines| > 1 && excess > 0
    ensures Embeds(next, Round(lines, excess), original)
    ensures next != [] && next[|next| - 1] == at[|at| - 1]
  {
    var k := Longest(lines, |lines| - 1);
    if |lines[k]| <= SHORT {
      assert Round(lines, excess) == Drop(lines, k);
      next := DropEmbeds(at, lines, original, k);
    } else {
      assert Round(lines, excess) == lines[k := Clipped(lines[k], excess)];
      ClipEmbeds(at, lines, original, k, excess);
      next := at;
    }
  }

  /** Lines give way in place: what is left keeps the order, is whole or abridged, and includes the last. */
  lemma {:induction false} LinesKeepTheirOrder(rounds: seq<seq<string>>, i: nat, limit: nat) returns (at: seq<nat>)
    requires Rounds(rounds, limit) && i < |rounds| && rounds[0] != []
    ensures at != [] && at[|at| - 1] == |rounds[0]| - 1 && Embeds(at, rounds[i], rounds[0])
  {
    if i == 0 {
      at := seq(|rounds[0]|, j => j);
    } else {
      var before := LinesKeepTheirOrder(rounds, i - 1, limit);
      assert Follows(rounds, i - 1, limit);
      at := RoundEmbeds(before, rounds[i - 1], rounds[0], Size(rounds[i - 1]) - limit);
    }
  }

  lemma RoundKeepsLast(lines: seq<string>, excess: nat)
    requires |lines| > 1 && excess > 0
    ensures Round(lines, excess) != []
    ensures Round(lines, excess)[|Round(lines, excess)| - 1] == lines[|lines| - 1]
  {
  }

  lemma {:induction false} LastLineStays(rounds: seq<seq<string>>, i: nat, limit: nat)
    requires Rounds(rounds, limit) && i < |rounds| && rounds[0] != []
    ensures rounds[i] != [] && rounds[i][|rounds[i]| - 1] == rounds[0][|rounds[0]| - 1]
  {
    if i > 0 {
      LastLineStays(rounds, i - 1, limit);
      assert Follows(rounds, i - 1, limit);
      RoundKeepsLast(rounds[i - 1], Size(rounds[i - 1]) - limit);
    }
  }

  /** The text ends with a line of its own. */
  predicate EndsWith(text: string, line: string) {
    |line| <= |text| && text[|text| - |line|..] == line
  }

  lemma JoinEnds(lines: seq<string>)
    requires lines != []
    ensures EndsWith(Join(lines), lines[|lines| - 1])
  {
  }

  lemma {:induction false} LastNonEmpty(lines: seq<string>)
    requires lines != [] && lines[|lines| - 1] != ""
    ensures NonEmpty(lines) != [] && NonEmpty(lines)[|NonEmpty(lines)| - 1] == lines[|lines| - 1]
  {
    if |lines| > 1 { LastNonEmpty(lines[1..]); }
  }

  /** The message is never longer than the limit, and what already fits is left alone. */
  lemma MessageFits(all: seq<string>, limit: nat, text: string)
    requires Shortened(all, limit, text)
    ensures |text| <= limit
    ensures |Join(NonEmpty(all))| <= limit ==> text == Join(NonEmpty(all))
  {
    var rounds :| Rounds(rounds, limit) && rounds[0] == NonEmpty(all) && EndsAs(rounds[|rounds| - 1], limit, text);
    SizeIsLength(rounds[0]);
    assert |rounds| > 1 ==> Follows(rounds, 0, limit);
  }

  /** A last line no longer than the limit ends the shortened text, uncut. */
  lemma TagStaysWhole(all: seq<string>, limit: nat, text: string)
    requires Shortened(all, limit, text)
    requires all != [] && all[|all| - 1] != "" && |all[|all| - 1]| <= limit
    ensures EndsWith(text, all[|all| - 1])
  {
    var rounds :| Rounds(rounds, limit) && rounds[0] == NonEmpty(all) && EndsAs(rounds[|rounds| - 1], limit, text);
    LastNonEmpty(all);
    TagStaysThroughout(rounds, limit, text);
  }

  lemma TagStaysThroughout(rounds: seq<seq<string>>, limit: nat, text: string)
    requires Rounds(rounds, limit) && rounds[0] != [] && |rounds[0][|rounds[0]| - 1]| <= limit
    requires EndsAs(rounds[|rounds| - 1], limit, text)
    ensures EndsWith(text, rounds[0][|rounds[0]| - 1])
  {
    LastLineStays(rounds, |rounds| - 1, limit);
    WholeAtTheEnd(rounds[|rounds| - 1], limit, text);
  }

  lemma WholeAtTheEnd(lines: seq<string>, limit: nat, text: string)
    requires lines != [] && EndsAs(lines, limit, text) && |lines[|lines| - 1]| <= limit
    ensures EndsWith(text, lines[|lines| - 1])
  {
    SizeIsLength(lines);
    JoinEnds(lines);
  }

  /** Every message has one shortening: the rounds are the only ones there are. */
  lemma {:induction false} RoundsAreUnique(a: seq<seq<string>>, b: seq<seq<string>>, i: nat, limit: nat)
    requires Rounds(a, limit) && Rounds(b, limit) && a[0] == b[0] && i < |a| && i < |b|
    ensures a[i] == b[i]
  {
    if i > 0 {
      RoundsAreUnique(a, b, i - 1, limit);
      assert Follows(a, i - 1, limit) && Follows(b, i - 1, limit);
    }
  }

  /** The text depends on the lines and the limit alone. */
  lemma OneText(all: seq<string>, limit: nat, text: string, other: string)
    requires Shortened(all, limit, text) && Shortened(all, limit, other)
    ensures text == other
  {
    var a :| Rounds(a, limit) && a[0] == NonEmpty(all) && EndsAs(a[|a| - 1], limit, text);
    var b :| Rounds(b, limit) && b[0] == NonEmpty(all) && EndsAs(b[|b| - 1], limit, other);
    if |a| <= |b| { SameEnd(a, b, limit); } else { SameEnd(b, a, limit); }
  }

  lemma SameEnd(a: seq<seq<string>>, b: seq<seq<string>>, limit: nat)
    requires Rounds(a, limit) && Rounds(b, limit) && a[0] == b[0] && |a| <= |b| && Fits(a[|a| - 1], limit)
    ensures a[|a| - 1] == b[|b| - 1]
  {
    RoundsAreUnique(a, b, |a| - 1, limit);
    assert |a| < |b| ==> Follows(b, |a| - 1, limit);
  }
}
