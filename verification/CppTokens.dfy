/**
  The views token by token: which tokens a source splits into, what each of them is made of, and
  what either view shows of every character in it.
 */
module CppTokens {
  import opened Wrappers
  import opened CppScanner
  import opened CppScannerProofs

  /** Splitting the source into tokens from `from` on, one of them starts at `i`. */
  predicate Starts(a: Alphabet, s: string, from: nat, i: nat)
    requires from <= |s|
    decreases |s| - from
  {
    from == i || (from < i && from < |s| && Starts(a, s, TokenAt(a, s, from).end, i))
  }

  /** A character hidden from a view: a newline stays, anything else is a blank. */
  function Hidden(c: char): char {
    if c == '\n' then '\n' else ' '
  }

  lemma Joined(one: string, two: string, k: nat)
    requires k < |one| + |two|
    ensures (one + two)[k] == if k < |one| then one[k] else two[k - |one|]
  {
  }

  lemma PieceShows(kind: Kind, piece: string, k: nat)
    requires k < |piece|
    ensures FreePiece(kind, piece)[k] == if kind.Comment? then Hidden(piece[k]) else piece[k]
    ensures CodePiece(kind, piece)[k] == if kind.Code? then piece[k] else Hidden(piece[k])
  {
  }

  lemma {:induction false} CharacterOfToken(a: Alphabet, s: string, from: nat, i: nat, k: nat)
    requires from <= i <= k < |s| && Starts(a, s, from, i) && k < TokenAt(a, s, i).end
    ensures CommentFreeFrom(a, s, from)[k - from] == if TokenAt(a, s, i).kind.Comment? then Hidden(s[k]) else s[k]
    ensures CodeFrom(a, s, from)[k - from] == if TokenAt(a, s, i).kind.Code? then s[k] else Hidden(s[k])
    decreases |s| - from
  {
    hide TokenAt, CommentFreeFrom, CodeFrom, FreePiece, CodePiece, Hidden;
    var t := TokenAt(a, s, from);
    var piece := s[from..t.end];
    FirstToken(a, s, from);
    Joined(FreePiece(t.kind, piece), CommentFreeFrom(a, s, t.end), k - from);
    Joined(CodePiece(t.kind, piece), CodeFrom(a, s, t.end), k - from);
    if from == i {
      PieceShows(t.kind, piece, k - from);
    } else {
      EndsBefore(a, s, t.end, i);
      CharacterOfToken(a, s, t.end, i, k);
    }
  }

  lemma {:induction false} EndsBefore(a: Alphabet, s: string, from: nat, i: nat)
    requires from <= |s| && Starts(a, s, from, i)
    ensures from <= i
  {
  }

  /** Every character belongs to a token. */
  lemma {:induction false} EveryCharacterHasAToken(a: Alphabet, s: string, from: nat, k: nat) returns (i: nat)
    requires from <= k < |s|
    ensures i <= k && Starts(a, s, from, i) && k < TokenAt(a, s, i).end
    decreases |s| - from
  {
    hide TokenAt;
    var t := TokenAt(a, s, from);
    if k < t.end {
      i := from;
    } else {
      i := EveryCharacterHasAToken(a, s, t.end, k);
      EndsBefore(a, s, t.end, i);
    }
  }

  /**
    Every character of the source belongs to a token of the split, and the views show it by that
    token's kind alone: the comment-free view hides exactly the comments, the code view exactly the
    comments and the literals, newlines aside.
   */
  lemma {:induction false} ViewsShowEveryCharacter(a: Alphabet, s: string, k: nat) returns (i: nat)
    requires k < |s|
    ensures i <= k && Starts(a, s, 0, i) && k < TokenAt(a, s, i).end
    ensures |CommentFree(a, s)| == |CodeOnly(a, s)| == |s|
    ensures match TokenAt(a, s, i).kind
            case Comment => CommentFree(a, s)[k] == CodeOnly(a, s)[k] == if s[k] == '\n' then '\n' else ' '
            case Literal => CommentFree(a, s)[k] == s[k] && CodeOnly(a, s)[k] == if s[k] == '\n' then '\n' else ' '
            case Code => CommentFree(a, s)[k] == CodeOnly(a, s)[k] == s[k]
  {
    hide TokenAt;
    i := EveryCharacterHasAToken(a, s, 0, k);
    CharacterOfToken(a, s, 0, i, k);
  }

  // ---- what a token is made of

  /** The character at `k` is escaped, reading a literal's contents from `i` on. */
  predicate Escaped(s: string, i: nat, k: nat)
    requires i <= k <= |s|
    decreases k
  {
    i < k && s[k - 1] == '\\' && !Escaped(s, i, k - 1)
  }

  /** The contents from `i` on run to the first quote that is not escaped, or to the end of the source. */
  predicate Quotes(s: string, quote: char, i: nat, end: nat) {
    && i <= end <= |s|
    && ((i < end && s[end - 1] == quote && !Escaped(s, i, end - 1) && Unclosed(s, quote, i, i, end - 1))
        || (end == |s| && Unclosed(s, quote, i, i, end)))
  }

  /** No quote between the two places ends the literal. */
  predicate Unclosed(s: string, quote: char, i: nat, lo: nat, hi: nat) {
    i <= lo && hi <= |s| && forall k :: lo <= k < hi && s[k] == quote ==> Escaped(s, i, k)
  }

  lemma {:induction false} QuotedRunsOn(s: string, quote: char, i: nat, j: nat)
    requires i <= j <= |s| && !Escaped(s, i, j) && quote != '\\' && Unclosed(s, quote, i, i, j)
    ensures Quotes(s, quote, i, QuotedEnd(s, quote, j))
    decreases |s| - j
  {
    if j < |s| {
      if s[j] == '\\' && j + 1 < |s| {
        assert Escaped(s, i, j + 1) && !Escaped(s, i, j + 2);
        QuotedRunsOn(s, quote, i, j + 2);
      } else if s[j] != quote && j + 1 < |s| {
        assert !Escaped(s, i, j + 1);
        QuotedRunsOn(s, quote, i, j + 1);
      }
    }
  }

  lemma {:induction false} OneEnd(s: string, quote: char, i: nat, end: nat, other: nat)
    requires Quotes(s, quote, i, end) && Quotes(s, quote, i, other)
    ensures end == other
  {
  }

  /** A quoted literal ends where its contents do: at the first quote that no backslash escapes. */
  lemma {:induction false} QuotedLiteralMeans(s: string, i: nat, end: nat)
    requires i < |s| && (s[i] == '"' || s[i] == '\'')
    ensures QuotedEnd(s, s[i], i + 1) == end <==> Quotes(s, s[i], i + 1, end)
  {
    QuotedRunsOn(s, s[i], i + 1, i + 1);
    if Quotes(s, s[i], i + 1, end) {
      OneEnd(s, s[i], i + 1, end, QuotedEnd(s, s[i], i + 1));
    }
  }

  /** The place where `p` first shows at or after `from`. */
  predicate FirstAt(s: string, p: string, from: nat, k: nat) {
    from <= k && MatchesAt(s, p, k) && forall j :: from <= j < k ==> !MatchesAt(s, p, j)
  }

  ghost predicate Nowhere(s: string, p: string, from: nat) {
    forall k: nat :: from <= k ==> !MatchesAt(s, p, k)
  }

  /** From `i` to `end` there is a comment: to the end of its line, past its first terminator, or to the end of all. */
  ghost predicate IsComment(s: string, i: nat, end: nat) {
    if MatchesAt(s, "//", i) then FirstAt(s, "\n", i + 2, end) || (Nowhere(s, "\n", i + 2) && end == |s|)
    else
      && MatchesAt(s, "/*", i)
      && ((2 <= end && FirstAt(s, "*/", i + 2, end - 2)) || (Nowhere(s, "*/", i + 2) && end == |s|))
  }

  /** A raw string may begin here, and its prefix has `n` characters. */
  predicate RawBegins(a: Alphabet, s: string, i: nat, n: nat) {
    && i < |s| && (0 < i ==> !a.alnum(s[i - 1]) && s[i - 1] != '_')
    && (|| (n == 2 && MatchesAt(s, "R\"", i))
        || (n == 3 && (MatchesAt(s, "uR\"", i) || MatchesAt(s, "UR\"", i) || MatchesAt(s, "LR\"", i)))
        || (n == 4 && MatchesAt(s, "u8R\"", i)))
  }

  /** A delimiter of at most sixteen proper characters lies between the two places, and a parenthesis behind it. */
  predicate Delimits(a: Alphabet, s: string, from: nat, opening: nat) {
    && from <= opening < |s| && opening - from <= 16 && s[opening] == '('
    && forall k :: from <= k < opening ==> s[k] !in "()\\" && !a.space(s[k])
  }

  /** The raw string runs past the first closing of its own delimiter, or to the end of all. */
  ghost predicate IsRaw(a: Alphabet, s: string, i: nat, n: nat, opening: nat, end: nat) {
    && RawBegins(a, s, i, n) && Delimits(a, s, i + n, opening)
    && var terminator := ")" + s[i + n..opening] + "\"";
       || (|terminator| <= end && FirstAt(s, terminator, opening + 1, end - |terminator|))
       || (Nowhere(s, terminator, opening + 1) && end == |s|)
  }

  lemma MatchMeans(s: string, p: string, i: nat)
    ensures MatchesAt(s, p, i) <==> i + |p| <= |s| && forall k :: 0 <= k < |p| ==> s[i + k] == p[k]
  {
    if MatchesAt(s, p, i) {
      forall k | 0 <= k < |p| ensures s[i + k] == p[k] {
        assert s[i..i + |p|][k] == s[i + k];
      }
    }
  }

  lemma ShortMatch(s: string, p: string, i: nat)
    requires 2 <= |p| <= 4
    ensures MatchesAt(s, p, i) <==>
              && i + |p| <= |s| && s[i] == p[0] && s[i + 1] == p[1]
              && (2 < |p| ==> s[i + 2] == p[2]) && (3 < |p| ==> s[i + 3] == p[3])
  {
    MatchMeans(s, p, i);
    hide MatchesAt;
    assert i + |p| <= |s| ==> s[i] == s[i + 0];
    if i + |p| <= |s| && s[i] == p[0] && s[i + 1] == p[1] && (2 < |p| ==> s[i + 2] == p[2]) && (3 < |p| ==> s[i + 3] == p[3]) {
      forall k | 0 <= k < |p| ensures s[i + k] == p[k] {
        assert k == 0 || k == 1 || k == 2 || k == 3;
      }
    }
  }

  lemma PrefixMeans(s: string, i: nat)
    ensures RawPrefix(s, i) == 2 <==> MatchesAt(s, "R\"", i)
    ensures RawPrefix(s, i) == 3 <==> MatchesAt(s, "uR\"", i) || MatchesAt(s, "UR\"", i) || MatchesAt(s, "LR\"", i)
    ensures RawPrefix(s, i) == 4 <==> MatchesAt(s, "u8R\"", i)
    ensures RawPrefix(s, i) == 0 || 2 <= RawPrefix(s, i) <= 4
  {
    hide MatchesAt;
    ShortMatch(s, "R\"", i);
    ShortMatch(s, "uR\"", i);
    ShortMatch(s, "UR\"", i);
    ShortMatch(s, "LR\"", i);
    ShortMatch(s, "u8R\"", i);
  }

  lemma {:induction false} FindMeans(s: string, p: string, from: nat, end: nat)
    ensures Find(s, p, from) == Some(end) <==> FirstAt(s, p, from, end)
    ensures Find(s, p, from).None? <==> Nowhere(s, p, from)
  {
    hide MatchesAt;
    var r := Find(s, p, from);
    if FirstAt(s, p, from, end) {
      FindIs(s, p, from, end);
    }
  }

  lemma {:induction false} OpeningMeans(a: Alphabet, s: string, from: nat, opening: nat)
    requires from <= |s|
    ensures Opening(s, from, 17) == Some(opening) && ValidDelimiter(a, s[from..opening]) <==> Delimits(a, s, from, opening)
  {
    if from <= opening <= |s| {
      assert forall k :: from <= k < opening ==> s[from..opening][k - from] == s[k];
      if Delimits(a, s, from, opening) {
        forall k | from <= k < opening ensures s[k] != '(' { assert s[k] !in "()\\"; }
        FirstParenthesis(s, from, 17, opening);
      }
    }
  }

  lemma {:induction false} FirstParenthesis(s: string, i: nat, left: nat, opening: nat)
    requires i <= opening < |s| && opening < i + left && s[opening] == '(' && forall k :: i <= k < opening ==> s[k] != '('
    ensures Opening(s, i, left) == Some(opening)
    decreases left
  {
    if i < opening {
      FirstParenthesis(s, i + 1, left - 1, opening);
    }
  }

  lemma {:induction false} RawMeans(a: Alphabet, s: string, i: nat, n: nat, opening: nat, end: nat)
    requires i < |s| && IsRaw(a, s, i, n, opening, end)
    ensures RawEnd(a, s, i) == Some(end)
  {
    hide MatchesAt, Find, Opening, Nowhere, FirstAt, Delimits, ValidDelimiter, RawPrefix, RawEnd;
    PrefixMeans(s, i);
    assert RawPrefix(s, i) == n;
    OpeningMeans(a, s, i + n, opening);
    assert opening <= |s| && i + n <= opening by { Delimited(a, s, i + n, opening); }
    var terminator := ")" + s[i + n..opening] + "\"";
    FindMeans(s, terminator, opening + 1, if |terminator| <= end then end - |terminator| else 0);
    RawEndIs(a, s, i, n, opening);
  }

  lemma Delimited(a: Alphabet, s: string, from: nat, opening: nat)
    requires Delimits(a, s, from, opening)
    ensures from <= opening < |s|
  {
  }

  /** The raw string's end, once its prefix and its delimiter are known. */
  lemma RawEndIs(a: Alphabet, s: string, i: nat, n: nat, opening: nat)
    requires i < |s| && n == RawPrefix(s, i) && 0 < n && !(0 < i && Identifier(a, s[i - 1])) && i + n <= opening < |s|
    requires Opening(s, i + n, 17) == Some(opening) && ValidDelimiter(a, s[i + n..opening])
    ensures var terminator := ")" + s[i + n..opening] + "\""; var closing := Find(s, terminator, opening + 1);
            RawEnd(a, s, i) == Some(if closing.None? then |s| else closing.value + |terminator|)
  {
    hide MatchesAt, Find, Opening, ValidDelimiter, RawPrefix;
  }

  lemma {:induction false} RawParts(a: Alphabet, s: string, i: nat)
    requires i < |s| && RawEnd(a, s, i).Some?
    ensures var n := RawPrefix(s, i); var opening := Opening(s, i + n, 17);
            && 0 < n && !(0 < i && Identifier(a, s[i - 1])) && opening.Some?
            && ValidDelimiter(a, s[i + n..opening.value])
  {
    hide MatchesAt, Find, Opening, ValidDelimiter, RawPrefix, Identifier;
  }

  lemma {:induction false} RawIsMeant(a: Alphabet, s: string, i: nat) returns (n: nat, opening: nat)
    requires i < |s| && RawEnd(a, s, i).Some?
    ensures IsRaw(a, s, i, n, opening, RawEnd(a, s, i).value)
  {
    hide MatchesAt, Find, Opening, Nowhere, FirstAt, Delimits, ValidDelimiter, RawPrefix, RawEnd;
    RawParts(a, s, i);
    n := RawPrefix(s, i);
    opening := Opening(s, i + n, 17).value;
    PrefixMeans(s, i);
    OpeningMeans(a, s, i + n, opening);
    RawEndIs(a, s, i, n, opening);
    var terminator := ")" + s[i + n..opening] + "\"";
    var closing := Find(s, terminator, opening + 1);
    FindMeans(s, terminator, opening + 1, if closing.Some? then closing.value else 0);
  }

  ghost predicate RawHere(a: Alphabet, s: string, i: nat) {
    exists n: nat, opening: nat, end: nat :: IsRaw(a, s, i, n, opening, end)
  }

  /** What the token at `i` is, in full. */
  ghost predicate TokenMeans(a: Alphabet, s: string, i: nat, t: Token)
    requires i < |s|
  {
    match t.kind
    case Comment => IsComment(s, i, t.end)
    case Literal =>
      && !MatchesAt(s, "//", i) && !MatchesAt(s, "/*", i)
      && if RawHere(a, s, i) then exists n: nat, opening: nat :: IsRaw(a, s, i, n, opening, t.end)
         else (s[i] == '"' || s[i] == '\'') && Quotes(s, s[i], i + 1, t.end)
    case Code =>
      && !MatchesAt(s, "//", i) && !MatchesAt(s, "/*", i) && !RawHere(a, s, i) && s[i] != '"' && s[i] != '\''
      && t.end == i + 1
  }

  lemma {:induction false} CommentMeans(a: Alphabet, s: string, i: nat)
    requires i < |s| && (MatchesAt(s, "//", i) || MatchesAt(s, "/*", i))
    ensures TokenAt(a, s, i).kind.Comment? && IsComment(s, i, TokenAt(a, s, i).end)
  {
    var end := TokenAt(a, s, i).end;
    hide MatchesAt, RawEnd, QuotedEnd, Find, Nowhere, FirstAt;
    var r := if MatchesAt(s, "//", i) then Find(s, "\n", i + 2) else Find(s, "*/", i + 2);
    FindMeans(s, "\n", i + 2, if r.Some? then r.value else 0);
    FindMeans(s, "*/", i + 2, if r.Some? then r.value else 0);
  }

  /**
    Every token is what its kind says: a comment to its end of line or its first terminator, a raw
    string from its prefix past the first closing of its own delimiter, a quoted literal past the
    first quote that no backslash escapes, each to the end of the source if it is never closed;
    and a single character of code where none of these begins.
   */
  lemma {:induction false} EveryTokenMeansItsKind(a: Alphabet, s: string, i: nat)
    requires i < |s|
    ensures TokenMeans(a, s, i, TokenAt(a, s, i))
  {
    if MatchesAt(s, "//", i) || MatchesAt(s, "/*", i) {
      CommentMeans(a, s, i);
    } else {
      hide MatchesAt, RawEnd, QuotedEnd, Find, Quotes, IsRaw;
      forall n: nat, opening: nat, end: nat | IsRaw(a, s, i, n, opening, end) ensures RawEnd(a, s, i) == Some(end) {
        RawMeans(a, s, i, n, opening, end);
      }
      if RawEnd(a, s, i).Some? {
        var n, opening := RawIsMeant(a, s, i);
      } else if s[i] == '"' || s[i] == '\'' {
        QuotedLiteralMeans(s, i, TokenAt(a, s, i).end);
      }
    }
  }
}
