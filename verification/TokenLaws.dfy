/**
 What the counts of mini_grep mean, in terms of the text alone: a line is split at every character of " ,.-", and the
 pieces that contain the key are counted; a file is cut into pieces of at most 1023 characters, or shorter where a line ends.
 */
module TokenLaws {
  import opened Tokens

  // ---------------------------------------------------------------- strstr

  /** The key stands somewhere in the word. */
  ghost predicate Contains(word: string, key: string) { exists a: string, b: string :: word == a + key + b }

  /** strstr finds the key wherever it stands in the token. */
  lemma OccursInMiddle(a: string, key: string, b: string)
    ensures Occurs(key, a + key + b)
  {
    assert OccursAt(key, a + key + b, |a|);
  }

  /** And nowhere else. */
  lemma OccursIff(key: string, token: string)
    ensures Occurs(key, token) <==> Contains(token, key)
  {
    if Occurs(key, token) {
      var i :| 0 <= i <= |token| && OccursAt(key, token, i);
      assert token == token[..i] + key + token[i + |key|..];
    }
    if Contains(token, key) {
      var a: string, b: string :| token == a + key + b;
      OccursInMiddle(a, key, b);
    }
  }

  // ---------------------------------------------------------------- strtok

  ghost predicate IsWord(w: string) { forall k | 0 <= k < |w| :: w[k] !in " ,.-" }

  lemma DelimitersAre(c: char)
    ensures IsDelimiter(c) <==> c in " ,.-"
  {
    assert " ,.-"[0] == ' ' && " ,.-"[1] == ',' && " ,.-"[2] == '.' && " ,.-"[3] == '-';
  }

  lemma {:induction false} WordRuns(w: string, i: nat)
    requires IsWord(w) && i <= |w|
    ensures RunEnd(w, i) == |w|
    decreases |w| - i
  {
    if i == |w| {
    } else {
      DelimitersAre(w[i]);
      WordRuns(w, i + 1);
    }
  }

  /** A word counts once when it contains the key, and not at all otherwise. */
  lemma OneWord(w: string, key: string)
    requires IsWord(w) && w != ""
    ensures Hits(w, key, 0) == if Contains(w, key) then 1 else 0
  {
    WordRuns(w, 0);
    DelimitersAre(w[0]);
    assert w[0..|w|] == w;
    OccursIff(key, w);
    forall k | 1 <= k < |w| ensures !StartsToken(w, k) { DelimitersAre(w[k - 1]); }
    NoHits(w, key, 1, |w|);
  }

  /** Each of the four characters separates what is on its two sides. */
  lemma Separates(a: string, d: char, b: string, key: string)
    requires d in " ,.-"
    ensures Hits(a + [d] + b, key, 0) == Hits(a, key, 0) + Hits(b, key, 0)
  {
    var line := a + [d] + b;
    DelimitersAre(d);
    CleanCutKeepsHits(line, key, |a|);
    assert line[..|a|] == a && line[|a|..] == [d] + b;
    CleanCutKeepsHits([d] + b, key, 1);
    assert ([d] + b)[..1] == [d] && ([d] + b)[1..] == b;
    NoHits([d], key, 0, 1);
  }

  /** The line split at each of the four characters. */
  function Pieces(line: string): (pieces: seq<string>)
    ensures pieces != []
  {
    if line == "" then [""]
    else
      var rest := Pieces(line[1..]);
      if line[0] in " ,.-" then [""] + rest else [[line[0]] + rest[0]] + rest[1..]
  }

  /** How many pieces contain the key; the empty ones between two separators are no tokens. */
  ghost function Matching(pieces: seq<string>, key: string): nat {
    if pieces == [] then 0
    else (if pieces[0] != "" && Contains(pieces[0], key) then 1 else 0) + Matching(pieces[1..], key)
  }

  lemma {:induction false} WordPieces(w: string)
    requires IsWord(w)
    ensures Pieces(w) == [w]
  {
    if w == "" {
    } else {
      assert IsWord(w[1..]) by { assert forall k | 0 <= k < |w[1..]| :: w[1..][k] == w[k + 1]; }
      WordPieces(w[1..]);
      assert w[0] !in " ,.-";
      assert [w[0]] + w[1..] == w;
    }
  }

  lemma {:induction false} SplitPieces(w: string, d: char, b: string)
    requires IsWord(w) && d in " ,.-"
    ensures Pieces(w + [d] + b) == [w] + Pieces(b)
  {
    var line := w + [d] + b;
    if w == "" {
      assert line[1..] == b;
    } else {
      assert IsWord(w[1..]) by { assert forall k | 0 <= k < |w[1..]| :: w[1..][k] == w[k + 1]; }
      assert line[1..] == w[1..] + [d] + b;
      SplitPieces(w[1..], d, b);
      assert line[0] == w[0] && w[0] !in " ,.-";
      assert [w[0]] + w[1..] == w;
      assert ([w[1..]] + Pieces(b))[1..] == Pieces(b);
    }
  }

  function FirstSeparator(line: string): (e: nat)
    ensures e <= |line| && (e < |line| ==> line[e] in " ,.-")
    ensures forall k | 0 <= k < e :: line[k] !in " ,.-"
  {
    if line == "" || line[0] in " ,.-" then 0 else 1 + FirstSeparator(line[1..])
  }

  lemma {:induction false} HitsArePieces(line: string, key: string)
    ensures Hits(line, key, 0) == Matching(Pieces(line), key)
    decreases |line|
  {
    var e := FirstSeparator(line);
    var w := line[..e];
    if w != "" { OneWord(w, key); }
    if e == |line| {
      assert line == w;
      WordPieces(w);
    } else {
      var d, b := line[e], line[e + 1..];
      assert line == w + [d] + b;
      Separates(w, d, b, key);
      SplitPieces(w, d, b);
      HitsArePieces(b, key);
    }
  }

  // ---------------------------------------------------------------- fgets

  /** The file from position i on, cut as fgets does with room for so many characters: at the end of each line, and where the
      room is used up. */
  ghost predicate Cut(content: string, i: nat, pieces: seq<string>, room: nat)
    decreases |pieces|
  {
    if pieces == [] then i == |content|
    else
      var p := pieces[0];
      && p != "" && |p| <= room && i + |p| <= |content| && p == content[i..i + |p|]
      && (forall k | 0 <= k < |p| - 1 :: p[k] != '\n')
      && (p[|p| - 1] == '\n' || |p| == room || i + |p| == |content|)
      && Cut(content, i + |p|, pieces[1..], room)
  }

  lemma {:induction false} ReadEndIs(content: string, i: nat, e: nat, room: nat)
    requires i < e <= |content| && e - i <= room && forall k | i <= k < e - 1 :: content[k] != '\n'
    requires content[e - 1] == '\n' || e - i == room || e == |content|
    ensures ReadEnd(content, i, room) == e
    decreases room
  {
    if i + 1 < e { ReadEndIs(content, i + 1, e, room - 1); }
  }

  lemma FirstPiece(content: string, i: nat, pieces: seq<string>, room: nat)
    requires pieces != [] && Cut(content, i, pieces, room)
    ensures i < |content| && ReadEnd(content, i, room) == i + |pieces[0]|
  {
    var p := pieces[0];
    forall k | i <= k < i + |p| - 1 ensures content[k] != '\n' { assert content[k] == p[k - i]; }
    assert content[i + |p| - 1] == p[|p| - 1];
    ReadEndIs(content, i, i + |p|, room);
  }

  /** The tokens found in the pieces, each of which strtok sees up to its first NUL. */
  ghost function FoundIn(pieces: seq<string>, key: string): nat {
    if pieces == [] then 0 else Matching(Pieces(UpToNul(pieces[0])), key) + FoundIn(pieces[1..], key)
  }

  function UpToNul(p: string): string {
    if p == "" || p[0] == '\0' then "" else [p[0]] + UpToNul(p[1..])
  }

  lemma {:induction false} CStringIs(p: string)
    ensures CString(p) == UpToNul(p)
  {
    if p == "" {
    } else {
      CStringIs(p[1..]);
    }
  }

  /** strtok reaches the first NUL and stops there. */
  lemma {:induction false} StopsAtNul(a: string, b: string)
    requires '\0' !in a
    ensures CString(a + "\0" + b) == a && CString(a) == a
  {
    var whole := a + "\0" + b;
    if a == "" {
      assert whole[0] == '\0';
    } else {
      assert whole[1..] == a[1..] + "\0" + b;
      StopsAtNul(a[1..], b);
    }
  }

  lemma CountOnePiece(content: string, key: string, i: nat)
    requires i < |content|
    ensures var e := ReadEnd(content, i, 1023);
            CountFrom(content, key, i) == Matching(Pieces(UpToNul(content[i..e])), key) + CountFrom(content, key, e)
  {
    var p := content[i..ReadEnd(content, i, 1023)];
    CStringIs(p);
    HitsArePieces(CString(p), key);
  }

  lemma {:induction false} CountFromPieces(content: string, key: string, i: nat, pieces: seq<string>)
    requires i <= |content| && Cut(content, i, pieces, 1023)
    ensures CountFrom(content, key, i) == FoundIn(pieces, key)
    decreases |pieces|
  {
    if pieces == [] {
    } else {
      FirstPiece(content, i, pieces, 1023);
      CountFromPieces(content, key, i + |pieces[0]|, pieces[1..]);
      CountOnePiece(content, key, i);
    }
  }

  /** The count of a file is the number of tokens found in its pieces. */
  lemma CountIsFound(content: string, key: string, pieces: seq<string>)
    requires Cut(content, 0, pieces, 1023)
    ensures CountFile(content, key) == FoundIn(pieces, key)
  {
    CountFromPieces(content, key, 0, pieces);
  }

  /** Every file can be cut so. */
  lemma {:induction false} CutExists(content: string, i: nat, room: nat) returns (pieces: seq<string>)
    requires i <= |content| && room > 0
    ensures Cut(content, i, pieces, room)
    decreases |content| - i
  {
    if i == |content| {
      pieces := [];
    } else {
      var e := ReadEnd(content, i, room);
      var rest := CutExists(content, e, room);
      pieces := [content[i..e]] + rest;
      PutInFront(content, i, e, rest, room);
    }
  }

  lemma PutInFront(content: string, i: nat, e: nat, rest: seq<string>, room: nat)
    requires i < |content| && room > 0 && e == ReadEnd(content, i, room) && Cut(content, e, rest, room)
    ensures Cut(content, i, [content[i..e]] + rest, room)
  {
    var pieces, p := [content[i..e]] + rest, content[i..e];
    assert pieces[0] == p && pieces[1..] == rest;
    assert p[|p| - 1] == content[e - 1];
    assert forall k | 0 <= k < |p| - 1 :: p[k] == content[i + k];
  }
}
