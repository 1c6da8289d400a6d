/** What the two views keep, when stripping comments twice is stripping them once, and what a function body is. */
module CppScannerProofs {
  import opened Wrappers
  import opened CppScanner

  // ---- the views, position by position

  predicate Blank(c: char) {
    c == ' ' || c == '\n'
  }

  /** The views keep the length and every newline, and blank out nothing but what they hide. */
  predicate Aligned(s: string, free: string, code: string) {
    && |free| == |code| == |s|
    && forall k :: 0 <= k < |s| ==>
         && (free[k] == s[k] || (free[k] == ' ' && s[k] != '\n'))
         && (code[k] == free[k] || (code[k] == ' ' && free[k] != '\n'))
  }

  lemma AlignedTogether(s: string, free: string, code: string, s': string, free': string, code': string)
    requires Aligned(s, free, code) && Aligned(s', free', code')
    ensures Aligned(s + s', free + free', code + code')
  {
  }

  lemma PieceAligned(piece: string, kind: Kind)
    ensures Aligned(piece, FreePiece(kind, piece), CodePiece(kind, piece))
  {
  }

  lemma {:induction false} FirstToken(a: Alphabet, s: string, i: nat)
    requires i < |s|
    ensures var t := TokenAt(a, s, i);
            && CommentFreeFrom(a, s, i) == FreePiece(t.kind, s[i..t.end]) + CommentFreeFrom(a, s, t.end)
            && CodeFrom(a, s, i) == CodePiece(t.kind, s[i..t.end]) + CodeFrom(a, s, t.end)
            && s[i..] == s[i..t.end] + s[t.end..]
  {
    hide TokenAt, FreePiece, CodePiece;
  }

  lemma {:induction false} ViewsAlignedFrom(a: Alphabet, s: string, i: nat)
    requires i <= |s|
    ensures Aligned(s[i..], CommentFreeFrom(a, s, i), CodeFrom(a, s, i))
    decreases |s| - i
  {
    if i < |s| {
      hide *;
      var t := TokenAt(a, s, i);
      var piece := s[i..t.end];
      FirstToken(a, s, i);
      ViewsAlignedFrom(a, s, t.end);
      PieceAligned(piece, t.kind);
      AlignedTogether(piece, FreePiece(t.kind, piece), CodePiece(t.kind, piece),
                      s[t.end..], CommentFreeFrom(a, s, t.end), CodeFrom(a, s, t.end));
    }
  }

  /** Both views have the length and the newlines of the source; the code view masks the comment-free view. */
  lemma ViewsAreAligned(a: Alphabet, s: string)
    ensures Aligned(s, CommentFree(a, s), CodeOnly(a, s))
  {
    ViewsAlignedFrom(a, s, 0);
    assert s[0..] == s;
  }

  // ---- scanning the comment-free view again

  /** `v` is `s` with some characters blanked. */
  predicate Blanked(s: string, v: string) {
    |v| == |s| && forall k :: 0 <= k < |s| ==> v[k] == s[k] || v[k] == ' '
  }

  predicate SameOn(s: string, v: string, lo: nat, hi: nat) {
    hi <= |s| == |v| && forall k :: lo <= k < hi ==> v[k] == s[k]
  }

  /** What precedes `i` reads as an identifier in `v` exactly when it does in `s`, if that matters at `i`. */
  predicate PreviousAgrees(s: string, v: string, i: nat) {
    i == 0 || (|v| == |s| && i <= |s| && (v[i - 1] == s[i - 1] || s[i - 1] == '/' || (i < |s| && s[i] == '\n') || i == |s|))
  }

  lemma MatchAgrees(s: string, v: string, p: string, i: nat)
    requires SameOn(s, v, i, i + |p|)
    ensures MatchesAt(s, p, i) <==> MatchesAt(v, p, i)
  {
    assert s[i..i + |p|] == v[i..i + |p|];
  }

  /** A word without blanks that shows in `v` is in `s` too. */
  lemma MatchWasThere(s: string, v: string, p: string, i: nat)
    requires Blanked(s, v) && MatchesAt(v, p, i) && ' ' !in p
    ensures MatchesAt(s, p, i) && SameOn(s, v, i, i + |p|)
  {
    forall k | i <= k < i + |p| ensures v[k] == s[k] {
      assert v[k] == v[i..i + |p|][k - i] == p[k - i];
    }
    MatchAgrees(s, v, p, i);
  }

  lemma {:induction false} FindIs(s: string, p: string, i: nat, r: nat)
    requires i <= r && MatchesAt(s, p, r) && forall k :: i <= k < r ==> !MatchesAt(s, p, k)
    ensures Find(s, p, i) == Some(r)
    decreases r - i
  {
    if i < r {
      FindIs(s, p, i + 1, r);
    }
  }

  lemma {:induction false} OpeningAgrees(s: string, v: string, i: nat, left: nat, opening: nat)
    requires i <= opening < |s| && SameOn(s, v, i, opening + 1) && Opening(s, i, left) == Some(opening)
    ensures Opening(v, i, left) == Some(opening)
    decreases left
  {
    if 0 < left && s[i] != '(' {
      OpeningAgrees(s, v, i + 1, left - 1, opening);
    }
  }

  lemma {:induction false} QuotedAgrees(s: string, v: string, quote: char, i: nat)
    requires i <= |s| && SameOn(s, v, i, QuotedEnd(s, quote, i))
    ensures QuotedEnd(v, quote, i) == QuotedEnd(s, quote, i)
    decreases |s| - i
  {
    if i < |s| {
      if s[i] == '\\' && i + 1 < |s| {
        QuotedAgrees(s, v, quote, i + 2);
      } else if s[i] != quote {
        QuotedAgrees(s, v, quote, i + 1);
      }
    }
  }

  /** The closing of a raw string is where it was, if everything up to it is kept. */
  lemma {:induction false} ClosingAgrees(s: string, v: string, terminator: string, from: nat)
    requires terminator != "" && |v| == |s|
    requires var r := Find(s, terminator, from);
             SameOn(s, v, from, if r.None? then |s| else r.value + |terminator|)
    ensures Find(v, terminator, from) == Find(s, terminator, from)
  {
    var r := Find(s, terminator, from);
    var end := if r.None? then |s| else r.value + |terminator|;
    forall k: nat | from <= k && k + |terminator| <= end
      ensures MatchesAt(v, terminator, k) <==> MatchesAt(s, terminator, k)
    {
      MatchAgrees(s, v, terminator, k);
    }
    if r.Some? {
      FindIs(v, terminator, from, r.value);
    } else {
      assert forall k: nat :: from <= k ==> !MatchesAt(v, terminator, k);
    }
  }

  lemma PrefixAgrees(s: string, v: string, i: nat, n: nat)
    requires n == RawPrefix(s, i) && 0 < n && SameOn(s, v, i, i + n)
    ensures RawPrefix(v, i) == n
  {
    assert v[i] == s[i] && v[i + 1] == s[i + 1];
    assert n == 3 ==> v[i + 2] == s[i + 2];
    assert n == 4 ==> v[i + 2] == s[i + 2] && v[i + 3] == s[i + 3];
  }

  /** A raw string whose text is kept scans to the same end. */
  lemma RawStringAgrees(a: Alphabet, s: string, v: string, i: nat)
    requires Sane(a) && i < |s| && Blanked(s, v) && PreviousAgrees(s, v, i)
    requires RawEnd(a, s, i).Some? && SameOn(s, v, i, RawEnd(a, s, i).value)
    ensures RawEnd(a, v, i) == RawEnd(a, s, i)
  {
    hide RawPrefix, Opening, Find, MatchesAt, Sane, DelimiterChar;
    var n := RawPrefix(s, i);
    var opening := Opening(s, i + n, MAX_DELIMITER + 1).value;
    assert SameOn(s, v, i, i + n) && SameOn(s, v, i + n, opening + 1);
    var delimiter := s[i + n..opening];
    PrefixAgrees(s, v, i, n);
    OpeningAgrees(s, v, i + n, MAX_DELIMITER + 1, opening);
    assert v[i + n..opening] == delimiter;
    ClosingAgrees(s, v, ")" + delimiter + "\"", opening + 1);
    PreviousIsNoIdentifier(a, s, v, i);
  }

  /** Before the start of a raw string there is no identifier in `v` either. */
  lemma PreviousIsNoIdentifier(a: Alphabet, s: string, v: string, i: nat)
    requires Sane(a) && i < |s| && Blanked(s, v)
    ensures 0 < i && !Identifier(a, s[i - 1]) ==> !Identifier(a, v[i - 1])
  {
    if 0 < i { assert v[i - 1] == s[i - 1] || v[i - 1] == ' '; }
  }

  lemma LiteralStays(a: Alphabet, s: string, v: string, i: nat)
    requires Sane(a) && i < |s| && Blanked(s, v) && PreviousAgrees(s, v, i)
    requires TokenAt(a, s, i).kind.Literal? && SameOn(s, v, i, TokenAt(a, s, i).end)
    ensures TokenAt(a, v, i) == TokenAt(a, s, i)
  {
    NotAComment(s, v, i);
    if RawEnd(a, s, i).Some? {
      RawStringAgrees(a, s, v, i);
    } else {
      QuotedAgrees(s, v, s[i], i + 1);
      NoRawPrefix(s, i);
      NoRawPrefix(v, i);
      hide RawEnd, Find, QuotedEnd;
    }
  }

  /** No comment starts in `v` where none started in `s`. */
  lemma NotAComment(s: string, v: string, i: nat)
    requires Blanked(s, v) && !MatchesAt(s, "//", i) && !MatchesAt(s, "/*", i)
    ensures !MatchesAt(v, "//", i) && !MatchesAt(v, "/*", i)
  {
    if MatchesAt(v, "//", i) { MatchWasThere(s, v, "//", i); }
    if MatchesAt(v, "/*", i) { MatchWasThere(s, v, "/*", i); }
  }

  lemma StartsWith(s: string, p: string, i: nat)
    requires MatchesAt(s, p, i) && p != ""
    ensures i < |s| && s[i] == p[0]
  {
    assert s[i..i + |p|][0] == s[i];
  }

  /** A quote or a blank starts no raw string. */
  lemma NoRawPrefix(s: string, i: nat)
    requires i < |s| && s[i] != 'u' && s[i] != 'U' && s[i] != 'L' && s[i] != 'R'
    ensures RawPrefix(s, i) == 0
  {
  }

  /** A raw-string prefix that shows in `v` was there in `s`. */
  lemma PrefixWasThere(s: string, v: string, i: nat)
    requires Blanked(s, v) && 0 < RawPrefix(v, i)
    ensures RawPrefix(s, i) == RawPrefix(v, i) && SameOn(s, v, i, i + RawPrefix(v, i))
  {
    var n := RawPrefix(v, i);
    forall k | i <= k < i + n ensures v[k] != ' ' {
      assert k == i || k == i + 1 || k == i + 2 || k == i + 3;
    }
    PrefixAgrees(v, s, i, n);
  }

  /** Where code was, there is no raw string in `v` either, whatever comments follow. */
  lemma NoNewRawString(a: Alphabet, s: string, v: string, i: nat)
    requires Sane(a) && i < |s| && Blanked(s, v) && PreviousAgrees(s, v, i) && v[i] == s[i]
    requires RawEnd(a, s, i).None?
    ensures RawEnd(a, v, i).None?
  {
    hide Find, MatchesAt, Opening, ValidDelimiter, DelimiterChar;
    var n := RawPrefix(v, i);
    if n != 0 && !(0 < i && Identifier(a, v[i - 1])) {
      PrefixWasThere(s, v, i);
      if s[i] == '\n' { NoRawPrefix(s, i); }
      var q, p := Opening(s, i + n, MAX_DELIMITER + 1), Opening(v, i + n, MAX_DELIMITER + 1);
      if p.Some? {
        InvalidDelimiterStays(a, s, v, i + n, q, p.value);
      }
    }
  }

  /** Blanking can only lengthen a delimiter, and a blank makes it invalid. */
  lemma {:induction false} InvalidDelimiterStays(a: Alphabet, s: string, v: string, from: nat, q: Option<nat>, p: nat)
    requires Sane(a) && Blanked(s, v) && from <= |s|
    requires q == Opening(s, from, MAX_DELIMITER + 1) && Some(p) == Opening(v, from, MAX_DELIMITER + 1)
    requires q.Some? ==> !ValidDelimiter(a, s[from..q.value])
    ensures q.Some? && !ValidDelimiter(a, v[from..p])
  {
    assert v[p] == s[p] == '(';
    if q.value < p {
      assert v[q.value] == ' ';
      assert v[from..p][q.value - from] == ' ';
    } else {
      var k :| 0 <= k < |s[from..p]| && !DelimiterChar(a, s[from..p][k]);
      assert v[from..p][k] == v[from + k] && s[from..p][k] == s[from + k];
    }
  }

  lemma CodeStays(a: Alphabet, s: string, v: string, i: nat)
    requires Sane(a) && i < |s| && Blanked(s, v) && PreviousAgrees(s, v, i) && v[i] == s[i]
    requires TokenAt(a, s, i).kind.Code?
    ensures TokenAt(a, v, i) == TokenAt(a, s, i)
  {
    hide RawEnd, Find, QuotedEnd, MatchesAt;
    NotAComment(s, v, i);
    NoNewRawString(a, s, v, i);
  }

  /** Blanks are code, one character at a time. */
  lemma {:induction false} BlanksAreCode(a: Alphabet, v: string, i: nat, end: nat)
    requires i <= end <= |v| && forall k :: i <= k < end ==> Blank(v[k])
    ensures CommentFreeFrom(a, v, i) == v[i..end] + CommentFreeFrom(a, v, end)
    ensures CodeFrom(a, v, i) == v[i..end] + CodeFrom(a, v, end)
    decreases end - i
  {
    if i < end {
      PlainIsCode(a, v, i);
      BlanksAreCode(a, v, i + 1, end);
      OneCharacterOfCode(a, v, i, end);
      Appending(v[i..i + 1], v[i + 1..end], CommentFreeFrom(a, v, end));
      Appending(v[i..i + 1], v[i + 1..end], CodeFrom(a, v, end));
      hide *;
    }
  }

  lemma OneCharacterOfCode(a: Alphabet, v: string, i: nat, end: nat)
    requires i < end <= |v| && TokenAt(a, v, i) == Token(Code, i + 1)
    ensures CommentFreeFrom(a, v, i) == v[i..i + 1] + CommentFreeFrom(a, v, i + 1)
    ensures CodeFrom(a, v, i) == v[i..i + 1] + CodeFrom(a, v, i + 1)
    ensures v[i..end] == v[i..i + 1] + v[i + 1..end]
  {
    hide TokenAt;
  }

  /** A character that starts neither a comment, a literal nor a prefix is code. */
  lemma PlainIsCode(a: Alphabet, v: string, i: nat)
    requires i < |v| && (Blank(v[i]) || v[i] == '\\')
    ensures TokenAt(a, v, i) == Token(Code, i + 1)
  {
    hide Find, QuotedEnd, RawPrefix, MatchesAt;
    NoRawPrefix(v, i);
    NoCommentStart(v, i);
  }

  lemma NoCommentStart(v: string, i: nat)
    requires i < |v| && v[i] != '/'
    ensures !MatchesAt(v, "//", i) && !MatchesAt(v, "/*", i)
  {
    hide MatchesAt;
    if MatchesAt(v, "//", i) { StartsWith(v, "//", i); }
    if MatchesAt(v, "/*", i) { StartsWith(v, "/*", i); }
  }

  /** The start of the token after a token: what precedes it reads the same in `v` and `s`. */
  lemma NextPreviousAgrees(a: Alphabet, s: string, v: string, i: nat)
    requires i < |s| && Blanked(s, v)
    requires TokenAt(a, s, i).kind.Comment? || SameOn(s, v, i, TokenAt(a, s, i).end)
    ensures PreviousAgrees(s, v, TokenAt(a, s, i).end)
  {
    var end := TokenAt(a, s, i).end;
    if TokenAt(a, s, i).kind.Comment? && end < |s| {
      if MatchesAt(s, "//", i) {
        assert s[end..end + 1][0] == s[end];
      } else {
        assert s[end - 2..end][1] == s[end - 1];
      }
    }
  }

  /** From any token on, scanning the comment-free view keeps it and yields the same code view. */
  lemma {:induction false} Rescan(a: Alphabet, s: string, v: string, i: nat)
    requires Sane(a) && i <= |s| && Blanked(s, v) && PreviousAgrees(s, v, i)
    requires v[i..] == CommentFreeFrom(a, s, i)
    ensures CommentFreeFrom(a, v, i) == v[i..] && CodeFrom(a, v, i) == CodeFrom(a, s, i)
    decreases |s| - i
  {
    if i < |s| {
      var t := TokenAt(a, s, i);
      hide TokenAt, RawEnd, Sane, PreviousAgrees;
      var piece := FreePiece(t.kind, s[i..t.end]);
      assert v[i..][..t.end - i] == piece && v[i..][t.end - i..] == CommentFreeFrom(a, s, t.end);
      assert v[i..t.end] == piece && v[t.end..] == CommentFreeFrom(a, s, t.end);
      TokenRescans(a, s, v, i, t, piece);
      Rescan(a, s, v, t.end);
      assert v[i..] == v[i..t.end] + v[t.end..];
    }
  }

  lemma {:induction false} TokenRescans(a: Alphabet, s: string, v: string, i: nat, t: Token, piece: string)
    requires Sane(a) && i < |s| && Blanked(s, v) && PreviousAgrees(s, v, i) && t == TokenAt(a, s, i)
    requires piece == FreePiece(t.kind, s[i..t.end]) && v[i..t.end] == piece
    ensures PreviousAgrees(s, v, t.end)
    ensures CommentFreeFrom(a, v, i) == piece + CommentFreeFrom(a, v, t.end)
    ensures CodeFrom(a, v, i) == CodePiece(t.kind, s[i..t.end]) + CodeFrom(a, v, t.end)
  {
    hide TokenAt, RawEnd, Sane, PreviousAgrees;
    forall k | i <= k < t.end ensures v[k] == piece[k - i] {
      assert v[k] == v[i..t.end][k - i];
    }
    if t.kind.Comment? {
      BlanksAreCode(a, v, i, t.end);
    } else {
      assert SameOn(s, v, i, t.end);
      if t.kind.Literal? { LiteralStays(a, s, v, i); } else { CodeEndsNext(a, s, i); CodeStays(a, s, v, i); }
    }
    NextPreviousAgrees(a, s, v, i);
  }

  lemma CodeEndsNext(a: Alphabet, s: string, i: nat)
    requires i < |s| && TokenAt(a, s, i).kind.Code?
    ensures TokenAt(a, s, i).end == i + 1
  {
  }

  /** On logical source, scanning the comment-free view again changes nothing and finds the same code. */
  lemma CommentFreeIsStable(a: Alphabet, s: string)
    requires Sane(a)
    ensures CommentFree(a, CommentFree(a, s)) == CommentFree(a, s)
    ensures CodeOnly(a, CommentFree(a, s)) == CodeOnly(a, s)
  {
    var v := CommentFree(a, s);
    ViewsAreAligned(a, s);
    assert v[0..] == v;
    Rescan(a, s, v, 0);
  }
}
