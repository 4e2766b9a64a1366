/**
 How mini_grep searches one file: fgets into a fixed buffer, strtok over the line read, strstr on
 each token (sections 7.19.7.2, 7.21.5.8 and 7.21.5.7 of ISO C99).
 */
module Tokens {
  import opened Bits

  const MAX_LENGTH := 1024

  predicate IsDelimiter(c: char) { c == ' ' || c == ',' || c == '.' || c == '-' }

  predicate OccursAt(key: string, token: string, i: nat) {
    i + |key| <= |token| && token[i..i + |key|] == key
  }

  /** strstr: the key occurs in the token. The empty key occurs in every token. */
  predicate Occurs(key: string, token: string) {
    exists i | 0 <= i <= |token| :: OccursAt(key, token, i)
  }

  lemma EmptyOccurs(token: string)
    ensures Occurs("", token)
  {
    assert OccursAt("", token, 0);
  }

  // ---------------------------------------------------------------- what the count means

  /** A token starts at i: a character that is not a delimiter, at the front or right after a delimiter. */
  predicate StartsToken(line: string, i: nat)
    requires i < |line|
  {
    !IsDelimiter(line[i]) && (i == 0 || IsDelimiter(line[i - 1]))
  }

  /** Where the delimiter-free run that contains i ends. */
  function RunEnd(line: string, i: nat): (e: nat)
    requires i <= |line|
    ensures i <= e <= |line|
    ensures forall k | i <= k < e :: !IsDelimiter(line[k])
    ensures e < |line| ==> IsDelimiter(line[e])
    decreases |line| - i
  {
    if i == |line| || IsDelimiter(line[i]) then i else RunEnd(line, i + 1)
  }

  predicate HitAt(line: string, key: string, i: nat)
    requires i < |line|
  {
    StartsToken(line, i) && Occurs(key, line[i..RunEnd(line, i)])
  }

  /** The maximal delimiter-free runs of the line, from position i on, that contain the key. */
  function Hits(line: string, key: string, i: nat): nat
    requires i <= |line|
    decreases |line| - i
  {
    if i == |line| then 0 else Bit(HitAt(line, key, i)) + Hits(line, key, i + 1)
  }

  /** Where fgets stops when it starts at i with room for `room` characters. */
  function ReadEnd(content: string, i: nat, room: nat): (e: nat)
    requires i <= |content|
    ensures i <= e <= |content| && e - i <= room
    ensures i < |content| && room > 0 ==> i < e
    ensures forall k | i <= k < e - 1 :: content[k] != '\n'
    ensures e < |content| && e - i < room ==> e > i && content[e - 1] == '\n'
    decreases |content| - i
  {
    if i == |content| || room == 0 then i
    else if content[i] == '\n' then i + 1
    else ReadEnd(content, i + 1, room - 1)
  }

  function LineEnd(content: string, i: nat): (e: nat)
    requires i <= |content|
    ensures i <= e <= |content|
    ensures i < |content| ==> i < e
  {
    ReadEnd(content, i, |content| - i)
  }

  /** The part of the buffer that strtok sees: it stops at the first NUL. */
  function CString(buffer: string): (s: string)
    ensures s <= buffer && '\0' !in s
    ensures '\0' !in buffer ==> s == buffer
  {
    if buffer == "" || buffer[0] == '\0' then "" else
      assert forall c :: c in buffer[1..] ==> c in buffer;
      [buffer[0]] + CString(buffer[1..])
  }

  /** The count of the search from position i on: buffer by buffer. */
  function CountFrom(content: string, key: string, i: nat): nat
    requires i <= |content|
    decreases |content| - i
  {
    if i == |content| then 0 else
      var e := ReadEnd(content, i, MAX_LENGTH - 1);
      Hits(CString(content[i..e]), key, 0) + CountFrom(content, key, e)
  }

  function CountFile(content: string, key: string): nat { CountFrom(content, key, 0) }

  /** The count one would expect: line by line. */
  function CountLines(content: string, key: string, i: nat): nat
    requires i <= |content|
    decreases |content| - i
  {
    if i == |content| then 0 else
      var e := LineEnd(content, i);
      Hits(content[i..e], key, 0) + CountLines(content, key, e)
  }

  // ---------------------------------------------------------------- the search itself

  lemma {:induction false} NoHits(line: string, key: string, i: nat, j: nat)
    requires i <= j <= |line|
    requires forall k | i <= k < j :: !StartsToken(line, k)
    ensures Hits(line, key, i) == Hits(line, key, j)
    decreases j - i
  {
    if i < j { NoHits(line, key, i + 1, j); }
  }

  /** strtok: the next token at or after `from`, if any. */
  method NextToken(line: string, from: nat) returns (found: bool, start: nat, end: nat)
    requires from <= |line|
    requires from == 0 || from == |line| || IsDelimiter(line[from])
    ensures found ==> from <= start < end <= |line| && StartsToken(line, start) && end == RunEnd(line, start)
    ensures found ==> forall k | from <= k < start :: !StartsToken(line, k)
    ensures !found ==> forall k | from <= k < |line| :: !StartsToken(line, k)
  {
    start := from;
    while start < |line| && IsDelimiter(line[start])
      invariant from <= start <= |line|
      invariant forall k | from <= k < start :: IsDelimiter(line[k])
    {
      start := start + 1;
    }
    found, end := start < |line|, start;
    while end < |line| && !IsDelimiter(line[end])
      invariant start <= end <= |line|
      invariant forall k | start <= k < end :: !IsDelimiter(line[k])
    {
      end := end + 1;
    }
    if found { RunEndIs(line, start, end); }
  }

  lemma {:induction false} RunEndIs(line: string, i: nat, e: nat)
    requires i <= e <= |line|
    requires forall k | i <= k < e :: !IsDelimiter(line[k])
    requires e < |line| ==> IsDelimiter(line[e])
    ensures RunEnd(line, i) == e
    decreases e - i
  {
    if i < e { RunEndIs(line, i + 1, e); }
  }

  /** The strtok loop over one buffer. */
  method SearchLine(line: string, key: string) returns (n: nat)
    ensures n == Hits(line, key, 0)
  {
    n := 0;
    var pos := 0;
    var found, start, end := NextToken(line, 0);
    while found
      invariant pos <= |line|
      invariant found ==> pos <= start < end <= |line| && StartsToken(line, start) && end == RunEnd(line, start)
      invariant found ==> forall k | pos <= k < start :: !StartsToken(line, k)
      invariant !found ==> forall k | pos <= k < |line| :: !StartsToken(line, k)
      invariant n + Hits(line, key, pos) == Hits(line, key, 0)
      decreases |line| - pos, found
    {
      NoHits(line, key, pos, start);
      if Occurs(key, line[start..end]) {
        n := n + 1;
      }
      assert forall k | start + 1 <= k < end :: !StartsToken(line, k);
      NoHits(line, key, start + 1, end);
      pos := end;
      found, start, end := NextToken(line, pos);
    }
    NoHits(line, key, pos, |line|);
  }

  /** The fgets loop over one file. */
  method SearchContent(content: string, key: string) returns (n: nat)
    ensures n == CountFile(content, key)
  {
    n := 0;
    var pos := 0;
    while pos < |content|
      invariant pos <= |content|
      invariant n + CountFrom(content, key, pos) == CountFile(content, key)
    {
      var end := ReadEnd(content, pos, MAX_LENGTH - 1);
      var found := SearchLine(CString(content[pos..end]), key);
      n := n + found;
      pos := end;
    }
  }

  // ---------------------------------------------------------------- buffers against lines

  /** Cutting a line at k cuts no token in two. */
  predicate CleanCut(line: string, k: nat)
    requires k <= |line|
  {
    k == 0 || k == |line| || IsDelimiter(line[k - 1]) || IsDelimiter(line[k])
  }

  lemma {:induction false} RunEndPrefix(line: string, k: nat, i: nat)
    requires i <= k <= |line|
    ensures RunEnd(line[..k], i) == if RunEnd(line, i) <= k then RunEnd(line, i) else k
    decreases k - i
  {
    if i < k && !IsDelimiter(line[i]) { RunEndPrefix(line, k, i + 1); }
  }

  lemma {:induction false} RunEndSuffix(line: string, k: nat, i: nat)
    requires k <= i <= |line|
    ensures RunEnd(line[k..], i - k) == RunEnd(line, i) - k
    decreases |line| - i
  {
    if i < |line| && !IsDelimiter(line[i]) { RunEndSuffix(line, k, i + 1); }
  }

  /** Positions after the cut: only the one right at an unclean cut becomes the start of a token. */
  lemma {:induction false} HitsAfterCut(line: string, key: string, k: nat, i: nat)
    requires k <= i <= |line| && (i > k || CleanCut(line, k))
    ensures Hits(line[k..], key, i - k) == Hits(line, key, i)
    decreases |line| - i
  {
    if i == |line| {
    } else {
      RunEndSuffix(line, k, i);
      assert line[k..][i - k..RunEnd(line[k..], i - k)] == line[i..RunEnd(line, i)];
      HitsAfterCut(line, key, k, i + 1);
    }
  }

  lemma {:induction false} HitsBeforeCut(line: string, key: string, k: nat, i: nat)
    requires i <= k <= |line| && (key == "" || CleanCut(line, k))
    ensures Hits(line[..k], key, i) + Hits(line, key, k) == Hits(line, key, i)
    decreases k - i
  {
    if i < k {
      RunEndPrefix(line, k, i);
      var whole, part := line[i..RunEnd(line, i)], line[..k][i..RunEnd(line[..k], i)];
      if key == "" {
        EmptyOccurs(whole);
        EmptyOccurs(part);
      } else if StartsToken(line, i) {
        assert RunEnd(line, i) <= k;
        assert whole == part;
      }
      assert HitAt(line[..k], key, i) == HitAt(line, key, i);
      HitsBeforeCut(line, key, k, i + 1);
    }
  }

  lemma CleanCutKeepsHits(line: string, key: string, k: nat)
    requires k <= |line| && CleanCut(line, k)
    ensures Hits(line[..k], key, 0) + Hits(line[k..], key, 0) == Hits(line, key, 0)
  {
    HitsBeforeCut(line, key, k, 0);
    HitsAfterCut(line, key, k, k);
  }

  /** An unclean cut makes two tokens of one. */
  lemma UncleanCutAddsToken(line: string, k: nat)
    requires k <= |line| && !CleanCut(line, k)
    ensures Hits(line[..k], "", 0) + Hits(line[k..], "", 0) == Hits(line, "", 0) + 1
  {
    HitsBeforeCut(line, "", k, 0);
    HitsAfterCut(line, "", k, k + 1);
    var rest := line[k..];
    EmptyOccurs(rest[0..RunEnd(rest, 0)]);
    assert HitAt(rest, "", 0) && !HitAt(line, "", k);
  }

  /** How many times, from position i on, a full buffer ends inside a token. */
  function TokensCut(content: string, i: nat): nat
    requires i <= |content|
    decreases |content| - i
  {
    if i == |content| then 0 else
      var e := ReadEnd(content, i, MAX_LENGTH - 1);
      Bit(content[e - 1] != '\n' && !CleanCut(content, e)) + TokensCut(content, e)
  }

  lemma {:induction false} SameLineEnd(content: string, i: nat, room: nat)
    requires i < |content|
    ensures var e := ReadEnd(content, i, room);
            e == |content| || (e > i && content[e - 1] == '\n') || (e - i == room && LineEnd(content, i) == LineEnd(content, e))
    ensures var e := ReadEnd(content, i, room);
            e == |content| || (e > i && content[e - 1] == '\n') ==> e == LineEnd(content, i)
    decreases room
  {
    if room > 0 && content[i] != '\n' && i + 1 < |content| {
      SameLineEnd(content, i + 1, room - 1);
    }
  }

  /** One buffer further: what the cut at its end does to the rest of the line. */
  lemma OneBuffer(content: string, key: string, i: nat)
    requires i < |content|
    ensures var e := ReadEnd(content, i, MAX_LENGTH - 1);
            var clean := content[e - 1] == '\n' || CleanCut(content, e);
            && (clean ==> CountLines(content, key, i) == Hits(content[i..e], key, 0) + CountLines(content, key, e))
            && (!clean && key == "" ==>
                  CountLines(content, key, i) + 1 == Hits(content[i..e], key, 0) + CountLines(content, key, e))
  {
    var e := ReadEnd(content, i, MAX_LENGTH - 1);
    SameLineEnd(content, i, MAX_LENGTH - 1);
    if e < |content| && content[e - 1] != '\n' {
      var line := content[i..LineEnd(content, i)];
      assert line[..e - i] == content[i..e] && line[e - i..] == content[e..LineEnd(content, e)];
      assert line[e - i - 1] == content[e - 1] && line[e - i] == content[e];
      if CleanCut(content, e) {
        CleanCutKeepsHits(line, key, e - i);
      } else if key == "" {
        UncleanCutAddsToken(line, e - i);
      }
    }
  }

  predicate NulFree(content: string) { '\0' !in content }

  lemma {:induction false} CleanCountsAgree(content: string, key: string, i: nat)
    requires NulFree(content) && i <= |content| && TokensCut(content, i) == 0
    ensures CountFrom(content, key, i) == CountLines(content, key, i)
    decreases |content| - i
  {
    if i == |content| {
    } else {
      var e := ReadEnd(content, i, MAX_LENGTH - 1);
      assert forall c :: c in content[i..e] ==> c in content;
      OneBuffer(content, key, i);
      CleanCountsAgree(content, key, e);
    }
  }

  /** For the empty key the difference is exactly the number of tokens cut. */
  lemma {:induction false} CutsAreCounted(content: string, i: nat)
    requires NulFree(content) && i <= |content|
    ensures CountFrom(content, "", i) == CountLines(content, "", i) + TokensCut(content, i)
    decreases |content| - i
  {
    if i == |content| {
    } else {
      var e := ReadEnd(content, i, MAX_LENGTH - 1);
      assert forall c :: c in content[i..e] ==> c in content;
      OneBuffer(content, "", i);
      CutsAreCounted(content, e);
    }
  }

  /** Reading through the 1024-byte buffer counts what one would count line by line, for every key, exactly when no
      full buffer ends inside a token. */
  lemma CountsByLineIff(content: string)
    requires NulFree(content)
    ensures (forall key :: CountFile(content, key) == CountLines(content, key, 0)) <==> TokensCut(content, 0) == 0
  {
    if TokensCut(content, 0) == 0 {
      forall key ensures CountFile(content, key) == CountLines(content, key, 0) {
        CleanCountsAgree(content, key, 0);
      }
    } else {
      CutsAreCounted(content, 0);
      assert CountFile(content, "") != CountLines(content, "", 0);
    }
  }

  // ---------------------------------------------------------------- one long word

  predicate Word(line: string) { forall k | 0 <= k < |line| :: line[k] == 'a' }

  lemma {:induction false} WordReadEnd(content: string, i: nat, room: nat)
    requires Word(content) && i <= |content|
    ensures ReadEnd(content, i, room) == if i + room < |content| then i + room else |content|
    decreases room
  {
    if i == |content| || room == 0 {
    } else {
      WordReadEnd(content, i + 1, room - 1);
    }
  }

  lemma {:induction false} WordRunEnd(line: string, i: nat)
    requires Word(line) && i <= |line|
    ensures RunEnd(line, i) == |line|
    decreases |line| - i
  {
    if i == |line| {
    } else {
      WordRunEnd(line, i + 1);
    }
  }

  /** A word is one token, and it contains the letter. */
  lemma WordHits(line: string)
    requires Word(line) && line != ""
    ensures Hits(line, "a", 0) == 1
  {
    WordRunEnd(line, 0);
    assert OccursAt("a", line[0..|line|], 0);
    NoHits(line, "a", 1, |line|);
  }

  lemma {:induction false} WordCString(line: string)
    requires Word(line)
    ensures CString(line) == line
  {
    if line == "" {
    } else {
      WordCString(line[1..]);
    }
  }

  /** A line that consists of one word is counted once for each 1023 letters of it, or part of them. */
  lemma {:induction false} WordCountFrom(content: string, i: nat)
    requires Word(content) && i <= |content|
    ensures CountFrom(content, "a", i) == (|content| - i + MAX_LENGTH - 2) / (MAX_LENGTH - 1)
    decreases |content| - i
  {
    if i == |content| {
    } else {
      WordReadEnd(content, i, MAX_LENGTH - 1);
      var e := ReadEnd(content, i, MAX_LENGTH - 1);
      WordCString(content[i..e]);
      WordHits(content[i..e]);
      WordCountFrom(content, e);
    }
  }

  /** So a word of any length is found once line by line, but from 1024 letters on more than once by the search. */
  lemma LongWords(n: nat)
    requires n > 0
    ensures var content := seq(n, i => 'a');
            && CountLines(content, "a", 0) == 1
            && CountFile(content, "a") == (n + 1022) / 1023
            && (CountFile(content, "a") != CountLines(content, "a", 0) <==> n >= 1024)
  {
    var content := seq(n, i => 'a');
    WordCountFrom(content, 0);
    WordReadEnd(content, 0, n);
    assert content[0..n] == content;
    WordHits(content);
  }

  /** Every line, with its newline, fits into the buffer together with the terminating NUL. */
  predicate LinesFit(content: string, i: nat)
    requires i <= |content|
    decreases |content| - i
  {
    i == |content| || (LineEnd(content, i) - i < 1024 && LinesFit(content, LineEnd(content, i)))
  }

  lemma {:induction false} FittingLinesUncut(content: string, i: nat)
    requires i <= |content| && LinesFit(content, i)
    ensures TokensCut(content, i) == 0
    decreases |content| - i
  {
    if i == |content| {
    } else {
      var e := ReadEnd(content, i, MAX_LENGTH - 1);
      SameLineEnd(content, i, MAX_LENGTH - 1);
      FittingLinesUncut(content, e);
    }
  }

  /** When every line fits, the file's count is the sum over its lines. */
  lemma FittingLinesCount(content: string, key: string)
    requires NulFree(content) && LinesFit(content, 0)
    ensures CountFile(content, key) == CountLines(content, key, 0)
  {
    FittingLinesUncut(content, 0);
    CleanCountsAgree(content, key, 0);
  }

  // ---------------------------------------------------------------- keys with delimiters

  lemma OccursInside(key: string, token: string)
    requires Occurs(key, token)
    ensures forall d | 0 <= d < |key| :: key[d] in token
  {
    var at :| 0 <= at <= |token| && OccursAt(key, token, at);
    forall d | 0 <= d < |key| ensures key[d] in token {
      assert token[at..at + |key|][d] == token[at + d];
    }
  }

  lemma DelimiterNeverOccurs(line: string, key: string, i: nat)
    requires i < |line|
    requires exists d | 0 <= d < |key| :: IsDelimiter(key[d])
    ensures !HitAt(line, key, i)
  {
    var token := line[i..RunEnd(line, i)];
    assert forall c | c in token :: !IsDelimiter(c);
    if Occurs(key, token) { OccursInside(key, token); }
  }

  lemma {:induction false} DelimiterNoHits(line: string, key: string, i: nat)
    requires i <= |line|
    requires exists d | 0 <= d < |key| :: IsDelimiter(key[d])
    ensures Hits(line, key, i) == 0
    decreases |line| - i
  {
    if i == |line| {
    } else {
      DelimiterNeverOccurs(line, key, i);
      DelimiterNoHits(line, key, i + 1);
    }
  }

  /** A key with a delimiter in it is never found, however long the lines are and whatever they hold. */
  lemma {:induction false} DelimiterNeverFound(content: string, key: string, i: nat)
    requires i <= |content|
    requires exists d | 0 <= d < |key| :: IsDelimiter(key[d])
    ensures CountFrom(content, key, i) == 0
    decreases |content| - i
  {
    if i == |content| {
    } else {
      var e := ReadEnd(content, i, MAX_LENGTH - 1);
      DelimiterNoHits(CString(content[i..e]), key, 0);
      DelimiterNeverFound(content, key, e);
    }
  }
}
