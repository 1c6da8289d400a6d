/** Translation phase 2, the stripping of comments from physical source, and the extraction of function bodies. */
module CppBody {
  import opened Wrappers
  import opened CppScanner
  import opened CppScannerProofs

  // ---- line splicing

  /** The length of the backslash-newline pair at `i`, or zero. */
  function PairAt(s: string, i: nat): (n: nat)
    ensures 0 < n ==> i + n <= |s| && s[i] == '\\'
  {
    if i + 1 < |s| && s[i] == '\\' then
      if s[i + 1] == '\r' && i + 2 < |s| && s[i + 2] == '\n' then 3
      else if s[i + 1] == '\n' || s[i + 1] == '\r' then 2
      else 0
    else 0
  }

  function SplicedFrom(s: string, i: nat): string
    requires i <= |s|
    decreases |s| - i
  {
    if i == |s| then ""
    else if PairAt(s, i) != 0 then SplicedFrom(s, i + PairAt(s, i))
    else [s[i]] + SplicedFrom(s, i + 1)
  }

  /** The logical source: every physical backslash-newline pair removed, once. */
  function Spliced(s: string): string {
    SplicedFrom(s, 0)
  }

  method Splice(s: string) returns (r: string)
    ensures r == Spliced(s)
  {
    r := "";
    var i := 0;
    while i < |s|
      invariant i <= |s| && r + SplicedFrom(s, i) == Spliced(s)
      decreases |s| - i
    {
      var n := PairAt(s, i);
      if n != 0 {
        i := i + n;
      } else {
        Appending(r, [s[i]], SplicedFrom(s, i + 1));
        r := r + [s[i]];
        i := i + 1;
      }
    }
  }

  predicate NoPair(s: string, from: nat) {
    forall i :: from <= i < |s| ==> PairAt(s, i) == 0
  }

  /** Splicing keeps a source exactly when it holds no pair; otherwise it gets shorter. */
  lemma {:induction false} SplicingKeepsOrShortens(s: string, i: nat)
    requires i <= |s|
    ensures if NoPair(s, i) then SplicedFrom(s, i) == s[i..] else |SplicedFrom(s, i)| < |s| - i
    ensures |SplicedFrom(s, i)| <= |s| - i
    decreases |s| - i
  {
    if i < |s| {
      var n := PairAt(s, i);
      SplicingKeepsOrShortens(s, if n != 0 then i + n else i + 1);
      if n == 0 {
        assert NoPair(s, i) <==> NoPair(s, i + 1);
        assert s[i..] == [s[i]] + s[i + 1..];
      }
    }
  }

  // ---- stripping comments from physical source

  function Strip(a: Alphabet, s: string): string {
    CommentFree(a, Spliced(s))
  }

  /** The character at `k` belongs to a comment, in the token split that starts at `from`. */
  predicate InComment(a: Alphabet, s: string, from: nat, k: nat)
    requires from <= |s|
    decreases |s| - from
  {
    from <= k && from < |s|
    && var t := TokenAt(a, s, from);
       if k < t.end then t.kind.Comment? else InComment(a, s, t.end, k)
  }

  /** The comment-free view blanks the comments, but for their newlines, and keeps everything else. */
  lemma {:induction false} ViewBlanksComments(a: Alphabet, s: string, from: nat, k: nat)
    requires from <= k < |s|
    ensures CommentFreeFrom(a, s, from)[k - from]
         == if !InComment(a, s, from, k) then s[k] else if s[k] == '\n' then '\n' else ' '
    decreases |s| - from
  {
    hide TokenAt;
    var t := TokenAt(a, s, from);
    if t.end <= k {
      ViewBlanksComments(a, s, t.end, k);
    }
  }

  /** A comment starts with a slash. */
  lemma {:induction false} CommentsStartWithSlash(a: Alphabet, s: string, from: nat, k: nat)
    requires from <= k < |s| && InComment(a, s, from, k) && (k == from || !InComment(a, s, from, k - 1))
    ensures s[k] == '/'
    decreases |s| - from
  {
    var t := TokenAt(a, s, from);
    if k < t.end {
      if MatchesAt(s, "//", from) { StartsWith(s, "//", from); } else { StartsWith(s, "/*", from); }
    } else {
      hide TokenAt;
      CommentsStartWithSlash(a, s, t.end, k);
    }
  }

  /** The pairs of the comment-free view are the pairs of the source that lie outside comments. */
  lemma {:induction false} PairsOfTheView(a: Alphabet, s: string, i: nat)
    requires i < |s|
    ensures PairAt(CommentFree(a, s), i) != 0 <==> PairAt(s, i) != 0 && !InComment(a, s, 0, i)
  {
    hide CommentFreeFrom, InComment;
    var v := CommentFree(a, s);
    ViewBlanksComments(a, s, 0, i);
    if i + 1 < |s| {
      ViewBlanksComments(a, s, 0, i + 1);
      if InComment(a, s, 0, i + 1) && !InComment(a, s, 0, i) {
        CommentsStartWithSlash(a, s, 0, i + 1);
      }
    }
    if i + 2 < |s| {
      ViewBlanksComments(a, s, 0, i + 2);
    }
  }

  /**
    Stripping comments twice is stripping them once if and only if every backslash-newline pair
    that splicing leaves in the source lies in a comment.
   */
  lemma {:induction false} StripIsIdempotentIff(a: Alphabet, s: string)
    requires Sane(a)
    ensures var p := Spliced(s);
            Strip(a, Strip(a, s)) == Strip(a, s)
            <==> forall i :: 0 <= i < |p| && PairAt(p, i) != 0 ==> InComment(a, p, 0, i)
  {
    hide InComment, CommentFree, Spliced, Sane;
    var p, v := Spliced(s), Strip(a, s);
    SplicingKeepsOrShortens(v, 0);
    assert v[0..] == v && Spliced(v) == SplicedFrom(v, 0) by { SplicingStartsAtZero(v); }
    CommentFreeIsStable(a, p);
    ViewsAreAligned(a, p);
    ViewsAreAligned(a, Spliced(v));
    forall i: nat | i < |p| ensures PairAt(v, i) != 0 <==> PairAt(p, i) != 0 && !InComment(a, p, 0, i) {
      PairsOfTheView(a, p, i);
    }
  }

  lemma {:induction false} SplicingStartsAtZero(s: string)
    ensures Spliced(s) == SplicedFrom(s, 0)
  {
  }

  /** In particular it is enough that splicing leaves no pair at all. */
  lemma CleanSplicingIsIdempotent(a: Alphabet, s: string)
    requires Sane(a) && NoPair(Spliced(s), 0)
    ensures Strip(a, Strip(a, s)) == Strip(a, s)
  {
    hide Spliced, InComment, Strip;
    StripIsIdempotentIff(a, s);
  }

  /** Splicing can leave a pair behind: two backslashes before two newlines. */
  lemma StripIsNotAlwaysIdempotent(a: Alphabet)
    requires Sane(a)
    ensures Strip(a, "\\\\\n\n") == "\\\n" && Strip(a, Strip(a, "\\\\\n\n")) != Strip(a, "\\\\\n\n")
  {
    var s, v := "\\\\\n\n", "\\\n";
    assert SplicedFrom(s, 3) == "\n" + SplicedFrom(s, 4);
    assert SplicedFrom(s, 1) == SplicedFrom(s, 3);
    assert Spliced(s) == "\\" + SplicedFrom(s, 1) == v;
    PlainIsCode(a, v, 0);
    PlainIsCode(a, v, 1);
    assert CommentFreeFrom(a, v, 1) == v[1..2] + CommentFreeFrom(a, v, 2);
    assert CommentFree(a, v) == v[0..1] + CommentFreeFrom(a, v, 1) == v;
    assert PairAt(v, 0) == 2;
    StripIsIdempotentIff(a, s);
  }

  // ---- function bodies

  datatype BodyResult = Body(text: string) | NoDefinition | NoBody | Unterminated

  /** Opening braces minus closing braces. */
  function Depth(code: string, lo: nat, hi: nat): int
    requires lo <= hi <= |code|
  {
    if lo == hi then 0
    else Depth(code, lo, hi - 1) + if code[hi - 1] == '{' then 1 else if code[hi - 1] == '}' then -1 else 0
  }

  /** The brace at `open` is closed at `close`, and nowhere before. */
  predicate Closes(code: string, open: nat, close: nat) {
    && open < close < |code| && Depth(code, open, close + 1) == 0
    && forall k :: open < k <= close ==> 0 < Depth(code, open, k)
  }

  /** What extraction answers, judged by the code view. */
  ghost predicate Answers(free: string, code: string, signature: string, r: BodyResult)
    requires |free| == |code|
  {
    match Find(code, signature, 0)
    case None => r == NoDefinition
    case Some(at) =>
      match Find(code, "{", at)
      case None => r == NoBody
      case Some(open) =>
        match r
        case Body(text) => exists close: nat :: Closes(code, open, close) && text == free[open + 1..close]
        case Unterminated => forall close: nat :: !Closes(code, open, close)
        case _ => false
  }

  /** The loop over the code view: depth goes up and down, and its first return to zero ends the body. */
  method CloseBrace(code: string, open: nat) returns (close: Option<nat>)
    requires open < |code| && code[open] == '{'
    ensures close.Some? ==> Closes(code, open, close.value)
    ensures close.None? ==> forall k: nat :: !Closes(code, open, k)
  {
    var depth := 0;
    for index := open to |code|
      invariant depth == Depth(code, open, index)
      invariant forall k :: open < k <= index ==> 0 < Depth(code, open, k)
    {
      if code[index] == '{' {
        depth := depth + 1;
      } else if code[index] == '}' {
        depth := depth - 1;
        if depth == 0 {
          return Some(index);
        }
      }
    }
    forall k: nat ensures !Closes(code, open, k) {
      if open < k < |code| { PositiveIsOpen(code, open, k); }
    }
    return None;
  }

  lemma {:induction false} PositiveIsOpen(code: string, open: nat, k: nat)
    requires open < k < |code| && 0 < Depth(code, open, k + 1)
    ensures !Closes(code, open, k)
  {
  }

  method FunctionBody(a: Alphabet, source: string, signature: string) returns (r: BodyResult)
    ensures var p := Spliced(source);
            |CommentFree(a, p)| == |CodeOnly(a, p)| && Answers(CommentFree(a, p), CodeOnly(a, p), signature, r)
  {
    hide CommentFree, CodeOnly, Spliced, Find, MatchesAt, Closes, Depth;
    var logical := Splice(source);
    var free, code := LexicalViews(a, logical);
    ViewsAreAligned(a, logical);
    var at := FindLoop(code, signature, 0);
    if at.None? {
      return NoDefinition;
    }
    var open := FindLoop(code, "{", at.value);
    if open.None? {
      return NoBody;
    }
    StartsWith(code, "{", open.value);
    var close := CloseBrace(code, open.value);
    if close.None? {
      return Unterminated;
    }
    ClosesInside(code, open.value, close.value);
    return Body(free[open.value + 1..close.value]);
  }

  lemma ClosesInside(code: string, open: nat, close: nat)
    requires Closes(code, open, close)
    ensures open < close < |code|
  {
  }

  lemma {:induction false} DepthSplits(code: string, lo: nat, mid: nat, hi: nat)
    requires lo <= mid <= hi <= |code|
    ensures Depth(code, lo, hi) == Depth(code, lo, mid) + Depth(code, mid, hi)
  {
    if mid < hi {
      DepthSplits(code, lo, mid, hi - 1);
    }
  }

  /** A body is balanced, never closes more than it opened, and is the only one: the shortest balanced stretch. */
  lemma {:induction false} BodyIsShortestBalanced(code: string, open: nat, close: nat, k: nat)
    requires Closes(code, open, close) && code[open] == '{'
    ensures Depth(code, open + 1, close) == 0 && code[close] == '}'
    ensures open < k <= close ==> 0 <= Depth(code, open + 1, k)
    ensures open < k < close ==> Depth(code, open, k + 1) != 0
    ensures Closes(code, open, k) ==> k == close
  {
    assert Depth(code, open, open + 1) == 1;
    DepthSplits(code, open, open + 1, close);
    if open < k <= close {
      DepthSplits(code, open, open + 1, k);
    }
  }
}
