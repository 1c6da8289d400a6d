/**
  The lexical scanner for C++ source: comments, quoted literals and raw strings of sections 5.2,
  5.7 and 5.13.5 of ISO/IEC 14882:2020, as a split into tokens, and as the loop that builds the
  two views of the source.
 */
module CppScanner {
  import opened Wrappers

  /** Which characters count as alphanumeric and as white space, beyond what is fixed here. */
  datatype Alphabet = Alphabet(alnum: char -> bool, space: char -> bool)

  ghost predicate Sane(a: Alphabet) {
    !a.alnum(' ') && !a.alnum('/') && a.space(' ')
  }

  predicate Identifier(a: Alphabet, c: char) {
    a.alnum(c) || c == '_'
  }

  // ---- searching

  predicate MatchesAt(s: string, p: string, i: nat) {
    i + |p| <= |s| && s[i..i + |p|] == p
  }

  /** The first occurrence of `p` at or after `i`. */
  function Find(s: string, p: string, i: nat): (r: Option<nat>)
    ensures r.Some? ==> i <= r.value && MatchesAt(s, p, r.value)
    ensures forall k: nat :: i <= k && (r.Some? ==> k < r.value) ==> !MatchesAt(s, p, k)
    decreases |s| - i
  {
    if |s| < i then None
    else if MatchesAt(s, p, i) then Some(i)
    else if i == |s| then None
    else Find(s, p, i + 1)
  }

  // ---- tokens

  datatype Kind = Comment | Literal | Code

  datatype Token = Token(kind: Kind, end: nat)

  const MAX_DELIMITER: nat := 16

  predicate RawQuote(s: string, i: nat) {
    i + 1 < |s| && s[i] == 'R' && s[i + 1] == '"'
  }

  /** The length of the raw-string prefix at `i`, with its encoding prefix if it has one, or zero. */
  function RawPrefix(s: string, i: nat): (n: nat)
    ensures 0 < n ==> i + n <= |s|
  {
    if RawQuote(s, i) then 2
    else if i < |s| && (s[i] == 'u' || s[i] == 'U' || s[i] == 'L') && RawQuote(s, i + 1) then 3
    else if i + 1 < |s| && s[i] == 'u' && s[i + 1] == '8' && RawQuote(s, i + 2) then 4
    else 0
  }

  /** The parenthesis that ends a raw-string delimiter starting at `i`, within its largest length. */
  function Opening(s: string, i: nat, left: nat): (r: Option<nat>)
    requires i <= |s|
    ensures r.Some? ==> i <= r.value < |s| && r.value < i + left && s[r.value] == '('
    ensures forall k :: i <= k < |s| && k < i + left && (r.Some? ==> k < r.value) ==> s[k] != '('
    decreases left
  {
    if left == 0 || i == |s| then None
    else if s[i] == '(' then Some(i)
    else Opening(s, i + 1, left - 1)
  }

  predicate DelimiterChar(a: Alphabet, c: char) {
    !a.space(c) && c != '(' && c != ')' && c != '\\'
  }

  predicate ValidDelimiter(a: Alphabet, d: string) {
    forall k :: 0 <= k < |d| ==> DelimiterChar(a, d[k])
  }

  /** Where the raw string at `i` ends, if there is one. */
  function RawEnd(a: Alphabet, s: string, i: nat): (r: Option<nat>)
    requires i < |s|
    ensures r.Some? ==> i < r.value <= |s|
  {
    var n := RawPrefix(s, i);
    if n == 0 || (0 < i && Identifier(a, s[i - 1])) then None
    else
      match Opening(s, i + n, MAX_DELIMITER + 1)
      case None => None
      case Some(opening) =>
        var delimiter := s[i + n..opening];
        if !ValidDelimiter(a, delimiter) then None
        else
          var terminator := ")" + delimiter + "\"";
          match Find(s, terminator, opening + 1)
          case None => Some(|s|)
          case Some(closing) => Some(closing + |terminator|)
  }

  /** Where a quoted literal ends whose contents go on at `i`: past its quote, skipping escaped characters. */
  function QuotedEnd(s: string, quote: char, i: nat): (end: nat)
    requires i <= |s|
    ensures i <= end <= |s|
    decreases |s| - i
  {
    if i == |s| then i
    else if s[i] == '\\' && i + 1 < |s| then QuotedEnd(s, quote, i + 2)
    else if s[i] == quote then i + 1
    else QuotedEnd(s, quote, i + 1)
  }

  /** The token that starts at `i`. */
  function TokenAt(a: Alphabet, s: string, i: nat): (t: Token)
    requires i < |s|
    ensures i < t.end <= |s|
  {
    if MatchesAt(s, "//", i) then
      Token(Comment, match Find(s, "\n", i + 2) case None => |s| case Some(end) => end)
    else if MatchesAt(s, "/*", i) then
      Token(Comment, match Find(s, "*/", i + 2) case None => |s| case Some(end) => end + 2)
    else
      match RawEnd(a, s, i)
      case Some(end) => Token(Literal, end)
      case None =>
        if s[i] == '"' || s[i] == '\'' then Token(Literal, QuotedEnd(s, s[i], i + 1))
        else Token(Code, i + 1)
  }

  // ---- the two views

  function Masked(s: string): (m: string)
    ensures |m| == |s|
    ensures forall k :: 0 <= k < |s| ==> m[k] == if s[k] == '\n' then '\n' else ' '
  {
    seq(|s|, k requires 0 <= k < |s| => if s[k] == '\n' then '\n' else ' ')
  }

  /** A token in the comment-free view, and in the code view. */
  function FreePiece(kind: Kind, piece: string): (v: string)
    ensures |v| == |piece|
  {
    if kind.Comment? then Masked(piece) else piece
  }

  function CodePiece(kind: Kind, piece: string): (v: string)
    ensures |v| == |piece|
  {
    if kind.Code? then piece else Masked(piece)
  }

  function CommentFreeFrom(a: Alphabet, s: string, i: nat): (v: string)
    requires i <= |s|
    ensures |v| == |s| - i
    decreases |s| - i
  {
    if i == |s| then ""
    else
      var t := TokenAt(a, s, i);
      FreePiece(t.kind, s[i..t.end]) + CommentFreeFrom(a, s, t.end)
  }

  function CodeFrom(a: Alphabet, s: string, i: nat): (v: string)
    requires i <= |s|
    ensures |v| == |s| - i
    decreases |s| - i
  {
    if i == |s| then ""
    else
      var t := TokenAt(a, s, i);
      CodePiece(t.kind, s[i..t.end]) + CodeFrom(a, s, t.end)
  }

  function CommentFree(a: Alphabet, s: string): string {
    CommentFreeFrom(a, s, 0)
  }

  function CodeOnly(a: Alphabet, s: string): string {
    CodeFrom(a, s, 0)
  }

  // ---- the loops

  method FindLoop(s: string, p: string, from: nat) returns (r: Option<nat>)
    ensures r == Find(s, p, from)
  {
    var i := from;
    while i <= |s|
      invariant Find(s, p, i) == Find(s, p, from)
      decreases |s| + 1 - i
    {
      if MatchesAt(s, p, i) {
        return Some(i);
      }
      if i == |s| {
        return None;
      }
      i := i + 1;
    }
    return None;
  }

  method ScanQuoted(s: string, index: nat) returns (end: nat)
    requires index < |s|
    ensures end == QuotedEnd(s, s[index], index + 1)
  {
    var quote := s[index];
    end := index + 1;
    while end < |s|
      invariant index < end <= |s|
      invariant QuotedEnd(s, quote, end) == QuotedEnd(s, quote, index + 1)
    {
      if s[end] == '\\' && end + 1 < |s| {
        end := end + 2;
      } else {
        end := end + 1;
        if s[end - 1] == quote {
          return;
        }
      }
    }
  }

  /** The search for the parenthesis that ends a delimiter. */
  method FindOpening(s: string, from: nat, left: nat) returns (r: Option<nat>)
    requires from <= |s|
    ensures r == Opening(s, from, left)
  {
    var i := from;
    while i < |s| && i < from + left
      invariant from <= i <= |s| && i <= from + left
      invariant Opening(s, i, from + left - i) == Opening(s, from, left)
    {
      if s[i] == '(' {
        return Some(i);
      }
      i := i + 1;
    }
    return None;
  }

  method DelimiterIsValid(a: Alphabet, delimiter: string) returns (valid: bool)
    ensures valid == ValidDelimiter(a, delimiter)
  {
    for i := 0 to |delimiter|
      invariant forall k :: 0 <= k < i ==> DelimiterChar(a, delimiter[k])
    {
      if !DelimiterChar(a, delimiter[i]) {
        return false;
      }
    }
    return true;
  }

  /** A raw string: its prefix, its delimiter, and the search for its terminator. */
  method ScanRaw(a: Alphabet, source: string, index: nat) returns (end: Option<nat>)
    requires index < |source|
    ensures end == RawEnd(a, source, index)
  {
    hide Find, RawPrefix, Opening, MatchesAt, ValidDelimiter, Identifier;
    var prefix := RawPrefix(source, index);
    if prefix == 0 || (0 < index && Identifier(a, source[index - 1])) {
      return None;
    }
    var opening := FindOpening(source, index + prefix, MAX_DELIMITER + 1);
    if opening.None? {
      return None;
    }
    var delimiter := source[index + prefix..opening.value];
    var valid := DelimiterIsValid(a, delimiter);
    if !valid {
      return None;
    }
    var terminator := ")" + delimiter + "\"";
    var closing := FindLoop(source, terminator, opening.value + 1);
    return Some(if closing.None? then |source| else closing.value + |terminator|);
  }

  method ScanToken(a: Alphabet, source: string, index: nat) returns (t: Token)
    requires index < |source|
    ensures t == TokenAt(a, source, index)
  {
    if MatchesAt(source, "//", index) {
      var newline := FindLoop(source, "\n", index + 2);
      return Token(Comment, if newline.None? then |source| else newline.value);
    }
    if MatchesAt(source, "/*", index) {
      var closing := FindLoop(source, "*/", index + 2);
      return Token(Comment, if closing.None? then |source| else closing.value + 2);
    }
    var raw := ScanRaw(a, source, index);
    if raw.Some? {
      return Token(Literal, raw.value);
    }
    if source[index] == '"' || source[index] == '\'' {
      var end := ScanQuoted(source, index);
      return Token(Literal, end);
    }
    return Token(Code, index + 1);
  }

  /** The scanner: one token at a time, appending to both views. */
  method LexicalViews(a: Alphabet, source: string) returns (commentFree: string, codeOnly: string)
    ensures commentFree == CommentFree(a, source) && codeOnly == CodeOnly(a, source)
  {
    commentFree, codeOnly := "", "";
    var index := 0;
    while index < |source|
      invariant index <= |source|
      invariant commentFree + CommentFreeFrom(a, source, index) == CommentFree(a, source)
      invariant codeOnly + CodeFrom(a, source, index) == CodeOnly(a, source)
    {
      hide TokenAt;
      var t := ScanToken(a, source, index);
      var fragment := source[index..t.end];
      var free, code := FreePiece(t.kind, fragment), CodePiece(t.kind, fragment);
      Appending(commentFree, free, CommentFreeFrom(a, source, t.end));
      Appending(codeOnly, code, CodeFrom(a, source, t.end));
      commentFree, codeOnly := commentFree + free, codeOnly + code;
      index := t.end;
    }
  }

  lemma Appending(done: string, piece: string, rest: string)
    ensures done + (piece + rest) == (done + piece) + rest
  {
  }
}
