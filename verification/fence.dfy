/**
 * The first fenced block of a text, as the page finds it with the regular
 * expression /```(?:sql)?\s*([\s\S]*?)\s*```/i (app/page.tsx:77, 85 and 191,
 * 196): the leftmost opening fence, an optional case-insensitive `sql` tag
 * (taken whenever it is there), greedy white space, the shortest body, greedy
 * white space and the closing fence.
 */
module Fence {
  import opened Wrappers
  import opened Text

  const Tick := "```"

  /** A fence delimiter starts at index `i` of `s`. */
  predicate FenceAt(s: string, i: nat) {
    OccursAt(s, Tick, i)
  }

  /** The optional language tag `sql`, in any letter case, starts at index `i` of `s`. */
  predicate SqlTagAt(s: string, i: nat) {
    i + 3 <= |s| && LowerIsSql(s[i..i + 3])
  }

  /** `s` holds two fence delimiters, the second starting after the first has ended. */
  ghost predicate HasFencedBlock(s: string) {
    exists i: nat, j: nat :: i + 3 <= j && FenceAt(s, i) && FenceAt(s, j)
  }

  /**
   * Where one regex match lies: the opening fence at `open`, the tag (if any)
   * ending at `tagEnd`, the captured body `s[innerStart..innerEnd]`, and the
   * closing fence at `close`; the match is `s[open..close + 3]`.
   */
  datatype Block = Block(open: nat, tagEnd: nat, innerStart: nat, innerEnd: nat, close: nat)

  /**
   * `b` is the match the regex engine returns on `s`, described declaratively:
   * leftmost opening fence, tag taken when present, the first `\s*` greedy,
   * the lazy body ending at the first closing fence, the second `\s*` greedy.
   */
  ghost predicate IsFirstBlock(s: string, b: Block) {
    && FenceAt(s, b.open)
    && (forall j: nat :: j < b.open ==> !FenceAt(s, j))
    && b.tagEnd == b.open + 3 + (if SqlTagAt(s, b.open + 3) then 3 else 0)
    && b.tagEnd <= b.innerStart <= b.innerEnd <= b.close
    && FenceAt(s, b.close)
    && AllSpace(s[b.tagEnd..b.innerStart]) && !IsSpace(s[b.innerStart])
    && (forall j: nat :: b.innerStart <= j < b.close ==> !FenceAt(s, j))
    && AllSpace(s[b.innerEnd..b.close])
    && (b.innerEnd == b.innerStart || !IsSpace(s[b.innerEnd - 1]))
  }

  /** The first index at or after `i` that is not white space (or `|s|`). */
  function SkipSpace(s: string, i: nat): (r: nat)
    requires i <= |s|
    ensures i <= r <= |s|
    ensures r == |s| || !IsSpace(s[r])
    decreases |s| - i
  {
    if i < |s| && IsSpace(s[i]) then SkipSpace(s, i + 1) else i
  }

  /** Everything `SkipSpace` skips is white space. */
  lemma {:induction false} SkippedIsSpace(s: string, i: nat)
    requires i <= |s|
    ensures AllSpace(s[i..SkipSpace(s, i)])
    decreases |s| - i
  {
    if i < |s| && IsSpace(s[i]) {
      var r := SkipSpace(s, i + 1);
      SkippedIsSpace(s, i + 1);
      forall k | 0 <= k < r - i ensures IsSpace(s[i..r][k]) {
        if k > 0 {
          assert s[i..r][k] == s[i + 1..r][k - 1];
          assert IsSpace(s[i + 1..r][k - 1]);
        } else {
          assert s[i..r][k] == s[i];
        }
      }
    }
  }

  /** The smallest index `r` in `lo..hi` such that `s[r..hi]` is all white space. */
  function BackOverSpace(s: string, lo: nat, hi: nat): (r: nat)
    requires lo <= hi <= |s|
    ensures lo <= r <= hi
    ensures r == lo || !IsSpace(s[r - 1])
    decreases hi
  {
    if lo < hi && IsSpace(s[hi - 1]) then BackOverSpace(s, lo, hi - 1) else hi
  }

  /** Everything `BackOverSpace` steps back over is white space. */
  lemma {:induction false} SteppedOverIsSpace(s: string, lo: nat, hi: nat)
    requires lo <= hi <= |s|
    ensures AllSpace(s[BackOverSpace(s, lo, hi)..hi])
    decreases hi
  {
    if lo < hi && IsSpace(s[hi - 1]) {
      var r := BackOverSpace(s, lo, hi - 1);
      SteppedOverIsSpace(s, lo, hi - 1);
      forall k | 0 <= k < hi - r ensures IsSpace(s[r..hi][k]) {
        if k < hi - 1 - r {
          assert s[r..hi][k] == s[r..hi - 1][k];
          assert IsSpace(s[r..hi - 1][k]);
        } else {
          assert s[r..hi][k] == s[hi - 1];
        }
      }
    }
  }

  lemma FenceStartsWithTick(s: string, j: nat)
    ensures FenceAt(s, j) ==> s[j] == '`'
  {
    if j + 3 <= |s| {
      assert s[j..j + 3][0] == s[j];
    }
  }

  /** A fence cannot start where the `sql` tag stands. */
  lemma NoFenceInTag(s: string, p: nat, j: nat)
    requires SqlTagAt(s, p) && p <= j < p + 3
    ensures !FenceAt(s, j)
  {
    FenceStartsWithTick(s, j);
    assert s[p..p + 3][j - p] == s[j];
  }

  /** A fence cannot start inside a run of white space. */
  lemma NoFenceInSpace(s: string, lo: nat, hi: nat, j: nat)
    requires lo <= j < hi <= |s| && AllSpace(s[lo..hi])
    ensures !FenceAt(s, j)
  {
    assert s[lo..hi][j - lo] == s[j];
    FenceStartsWithTick(s, j);
  }

  /** Past the opening fence, its tag and the white space after them, no fence means no block. */
  lemma NoCloseNoBlock(s: string, p: nat, t: nat, g: nat)
    requires FenceAt(s, p) && (forall j: nat :: j < p ==> !FenceAt(s, j))
    requires t == p + 3 + (if SqlTagAt(s, p + 3) then 3 else 0)
    requires t <= g <= |s| && AllSpace(s[t..g])
    requires forall j: nat :: g <= j ==> !FenceAt(s, j)
    ensures !HasFencedBlock(s)
  {
    forall i: nat, j: nat | i + 3 <= j && FenceAt(s, i) && FenceAt(s, j) ensures false {
      if j < t { NoFenceInTag(s, p + 3, j); }
      else if j < g { NoFenceInSpace(s, t, g, j); }
    }
  }

  /** The indices of `b` are in order and the whole match lies inside `s`. */
  predicate Placed(s: string, b: Block) {
    b.open + 3 <= b.tagEnd <= b.innerStart <= b.innerEnd <= b.close && b.close + 3 <= |s|
  }

  /** The first regex match on `s`, or `None` when the regex does not match. */
  function FindSqlBlock(s: string): (r: Option<Block>)
    ensures r.Some? ==> Placed(s, r.value)
  {
    match IndexOf(s, Tick, 0)
    case None => None
    case Some(p) =>
      var t := p + 3 + (if SqlTagAt(s, p + 3) then 3 else 0);
      var g := SkipSpace(s, t);
      match IndexOf(s, Tick, g)
      case None => None
      case Some(e) => Some(Block(p, t, g, BackOverSpace(s, g, e), e))
  }

  /**
   * `FindSqlBlock` finds a match exactly when the text holds two fences, the
   * second after the first has ended, and what it finds is the first match.
   */
  lemma FindSqlBlockCorrect(s: string)
    ensures FindSqlBlock(s).Some? <==> HasFencedBlock(s)
    ensures FindSqlBlock(s).Some? ==> IsFirstBlock(s, FindSqlBlock(s).value)
  {
    match IndexOf(s, Tick, 0)
    case None =>
      NoOpenNoBlock(s);
    case Some(p) =>
      var t := p + 3 + (if SqlTagAt(s, p + 3) then 3 else 0);
      var g := SkipSpace(s, t);
      match IndexOf(s, Tick, g)
      case None =>
        OpenWithoutClose(s, p, t, g);
      case Some(e) =>
        OpenAndClose(s, p, t, g, e);
  }

  /** Without any fence there is no block. */
  lemma NoOpenNoBlock(s: string)
    requires IndexOf(s, Tick, 0).None?
    ensures FindSqlBlock(s).None? && !HasFencedBlock(s)
  {
    IndexOfSpec(s, Tick, 0);
  }

  /** An opening fence with no fence after its tag and white space makes no block. */
  lemma OpenWithoutClose(s: string, p: nat, t: nat, g: nat)
    requires IndexOf(s, Tick, 0) == Some(p)
    requires t == p + 3 + (if SqlTagAt(s, p + 3) then 3 else 0) && t <= |s|
    requires g == SkipSpace(s, t) && IndexOf(s, Tick, g).None?
    ensures FindSqlBlock(s).None? && !HasFencedBlock(s)
  {
    IndexOfSpec(s, Tick, 0);
    SkippedIsSpace(s, t);
    IndexOfSpec(s, Tick, g);
    NoCloseNoBlock(s, p, t, g);
  }

  /** With an opening fence and a fence after its tag and white space, the placement found is the first match. */
  lemma OpenAndClose(s: string, p: nat, t: nat, g: nat, e: nat)
    requires IndexOf(s, Tick, 0) == Some(p)
    requires t == p + 3 + (if SqlTagAt(s, p + 3) then 3 else 0) && t <= |s|
    requires g == SkipSpace(s, t) && IndexOf(s, Tick, g) == Some(e)
    ensures FindSqlBlock(s) == Some(Block(p, t, g, BackOverSpace(s, g, e), e))
    ensures HasFencedBlock(s) && IsFirstBlock(s, Block(p, t, g, BackOverSpace(s, g, e), e))
  {
    IndexOfSpec(s, Tick, 0);
    IndexOfSpec(s, Tick, g);
    assert FenceAt(s, p) && FenceAt(s, e) && p + 3 <= e;
    FoundIsFirst(s, Block(p, t, g, BackOverSpace(s, g, e), e));
  }

  lemma FoundIsFirst(s: string, b: Block)
    requires FenceAt(s, b.open) && (forall j: nat :: j < b.open ==> !FenceAt(s, j))
    requires b.tagEnd == b.open + 3 + (if SqlTagAt(s, b.open + 3) then 3 else 0)
    requires b.innerStart == SkipSpace(s, b.tagEnd)
    requires b.close >= b.innerStart && FenceAt(s, b.close)
    requires forall j: nat :: b.innerStart <= j < b.close ==> !FenceAt(s, j)
    requires b.innerEnd == BackOverSpace(s, b.innerStart, b.close)
    ensures IsFirstBlock(s, b)
  {
    SkippedIsSpace(s, b.tagEnd);
    SteppedOverIsSpace(s, b.innerStart, b.close);
  }

  /** Every character of a white-space slice is white space where it sits in the text. */
  lemma SpaceBetween(s: string, lo: nat, hi: nat)
    requires lo <= hi <= |s| && AllSpace(s[lo..hi])
    ensures forall j :: lo <= j < hi ==> IsSpace(s[j])
  {
    forall j | lo <= j < hi ensures IsSpace(s[j]) {
      assert s[lo..hi][j - lo] == s[j];
    }
  }

  lemma FirstNonSpaceUnique(s: string, lo: nat, a: nat, b: nat)
    requires lo <= a < |s| && lo <= b < |s|
    requires AllSpace(s[lo..a]) && !IsSpace(s[a]) && AllSpace(s[lo..b]) && !IsSpace(s[b])
    ensures a == b
  {
    SpaceBetween(s, lo, a);
    SpaceBetween(s, lo, b);
  }

  lemma SpaceRunUnique(s: string, lo: nat, hi: nat, a: nat, b: nat)
    requires lo <= a <= hi <= |s| && lo <= b <= hi
    requires AllSpace(s[a..hi]) && (a == lo || !IsSpace(s[a - 1]))
    requires AllSpace(s[b..hi]) && (b == lo || !IsSpace(s[b - 1]))
    ensures a == b
  {
    SpaceBetween(s, a, hi);
    SpaceBetween(s, b, hi);
  }

  /** At most one placement satisfies `IsFirstBlock`: the description pins the match down. */
  lemma BlockUnique(s: string, b1: Block, b2: Block)
    requires IsFirstBlock(s, b1) && IsFirstBlock(s, b2)
    ensures b1 == b2
  {
    assert FenceAt(s, b1.open) && FenceAt(s, b2.open);
    assert b1.open == b2.open && b1.tagEnd == b2.tagEnd;
    FirstNonSpaceUnique(s, b1.tagEnd, b1.innerStart, b2.innerStart);
    assert FenceAt(s, b1.close) && FenceAt(s, b2.close);
    assert b1.close == b2.close;
    SpaceRunUnique(s, b1.innerStart, b1.close, b1.innerEnd, b2.innerEnd);
  }

  /** Whatever placement satisfies `IsFirstBlock` is the one `FindSqlBlock` returns. */
  lemma FindSqlBlockIsFirst(s: string, b: Block)
    requires IsFirstBlock(s, b)
    ensures FindSqlBlock(s) == Some(b)
  {
    assert FenceAt(s, b.open) && FenceAt(s, b.close) && b.open + 3 <= b.close;
    FindSqlBlockCorrect(s);
    BlockUnique(s, FindSqlBlock(s).value, b);
  }

  /** The SQL the page takes out of the block: the captured body, trimmed. */
  function BlockSql(s: string, b: Block): string
    requires Placed(s, b)
  {
    Trim(s[b.innerStart..b.innerEnd])
  }

  /** The text with the whole match replaced by nothing. */
  function WithoutBlock(s: string, b: Block): string
    requires Placed(s, b)
  {
    s[..b.open] + s[b.close + 3..]
  }

  /** A captured body is already trimmed, so `.trim()` on it changes nothing. */
  lemma BlockSqlIsBody(s: string, b: Block)
    requires IsFirstBlock(s, b)
    ensures BlockSql(s, b) == s[b.innerStart..b.innerEnd]
  {
    var body := s[b.innerStart..b.innerEnd];
    assert IsTrimmed(body) by {
      if body != [] {
        assert body[0] == s[b.innerStart];
        assert body[|body| - 1] == s[b.innerEnd - 1];
      }
    }
    assert [] + body + [] == body;
    TrimPadded([], body, []);
  }

  /** The tag position of a laid-out block: taken exactly when a tag was written. */
  lemma LayoutTag(s: string, open: nat, tag: string, rest: string)
    requires open + 3 <= |s| && s[open + 3..] == tag + rest
    requires tag == [] || LowerIsSql(tag)
    requires tag == [] ==> !SqlTagAt(rest, 0)
    ensures SqlTagAt(s, open + 3) <==> tag != []
  {
    if tag != [] {
      assert s[open + 3..open + 6] == (tag + rest)[..3] == tag;
    }
  }

  /** The opening fence of a laid-out block is the leftmost one. */
  lemma LayoutOpen(s: string, before: string)
    requires |before| + 3 <= |s| && s[..|before|] == before && '`' !in before
    ensures forall j: nat :: j < |before| ==> !FenceAt(s, j)
  {
    forall j: nat | j < |before| ensures !FenceAt(s, j) {
      FenceStartsWithTick(s, j);
      assert s[j] == before[j];
    }
  }

  /** No fence starts between the start of a laid-out body and its closing fence. */
  lemma LayoutBody(s: string, k: nat, body: string, close: nat)
    requires k + |body| <= close <= |s|
    requires s[k..k + |body|] == body && '`' !in body
    requires AllSpace(s[k + |body|..close])
    ensures forall j: nat :: k <= j < close ==> !FenceAt(s, j)
  {
    forall j: nat | k <= j < close ensures !FenceAt(s, j) {
      if j < k + |body| {
        FenceStartsWithTick(s, j);
        assert s[j] == body[j - k];
      } else {
        NoFenceInSpace(s, k + |body|, close, j);
      }
    }
  }

  /** A suffix that is two pieces joined: where the first piece ends, the second starts. */
  lemma Peel(s: string, p: nat, x: string, y: string)
    requires p <= |s| && s[p..] == x + y
    ensures p + |x| <= |s| && s[p..p + |x|] == x && s[p + |x|..] == y
  {
    assert s[p..p + |x|] == (x + y)[..|x|];
    assert s[p + |x|..] == (x + y)[|x|..];
  }

  /** Where the prose, the opening fence and the tag of a laid-out block sit. */
  lemma LayoutHead(s: string, before: string, tag: string, rest: string, b: Block)
    requires s == before + (Tick + (tag + rest))
    requires b.open == |before| && b.tagEnd == b.open + 3 + |tag|
    ensures b.tagEnd <= |s|
    ensures s[..b.open] == before && s[b.open..b.open + 3] == Tick
    ensures s[b.open + 3..] == tag + rest && s[b.tagEnd..] == rest
  {
    assert s[0..] == before + (Tick + (tag + rest));
    Peel(s, 0, before, Tick + (tag + rest));
    assert s[..b.open] == s[0..b.open];
    Peel(s, b.open, Tick, tag + rest);
    Peel(s, b.open + 3, tag, rest);
  }

  /** Where the white space, the body, the closing fence and the prose after it sit. */
  lemma LayoutTail(s: string, p: nat, w1: string, body: string, w2: string, after: string, close: nat)
    requires p <= |s| && s[p..] == w1 + (body + (w2 + (Tick + after)))
    requires close == p + |w1| + |body| + |w2|
    ensures close + 3 <= |s|
    ensures s[p..p + |w1|] == w1 && s[p + |w1|..p + |w1| + |body|] == body
    ensures s[p + |w1| + |body|..close] == w2 && s[close..close + 3] == Tick
    ensures s[close + 3..] == after
  {
    Peel(s, p, w1, body + (w2 + (Tick + after)));
    Peel(s, p + |w1|, body, w2 + (Tick + after));
    Peel(s, p + |w1| + |body|, w2, Tick + after);
    Peel(s, close, Tick, after);
  }

  /**
   * The placement `b` sits over a text laid out as the given pieces: the
   * prose, the opening fence, the tag, the white space, the body, the white
   * space, the closing fence and the prose after it, one after another.
   */
  predicate LaidOutAt(s: string, before: string, tag: string, w1: string, body: string,
                      w2: string, after: string, b: Block)
  {
    && b.open == |before| && b.tagEnd == b.open + 3 + |tag|
    && b.close == b.tagEnd + |w1| + |body| + |w2| && b.close + 3 <= |s|
    && b.innerStart == (if body == [] then b.close else b.tagEnd + |w1|)
    && b.innerEnd == (if body == [] then b.close else b.tagEnd + |w1| + |body|)
    && s[..b.open] == before && s[b.open..b.open + 3] == Tick
    && s[b.open + 3..] == tag + (w1 + (body + (w2 + (Tick + after))))
    && s[b.tagEnd..b.tagEnd + |w1|] == w1 && s[b.tagEnd + |w1|..b.tagEnd + |w1| + |body|] == body
    && s[b.tagEnd + |w1| + |body|..b.close] == w2 && s[b.close..b.close + 3] == Tick
    && s[b.close + 3..] == after
  }

  /** The placement of a block laid out from its pieces is the match, and its body the SQL. */
  lemma LayoutIsFirstBlock(s: string, before: string, tag: string, w1: string, body: string,
                           w2: string, after: string, b: Block)
    requires LaidOutAt(s, before, tag, w1, body, w2, after, b)
    requires '`' !in before && '`' !in body
    requires tag == [] || LowerIsSql(tag)
    requires AllSpace(w1) && AllSpace(w2) && IsTrimmed(body)
    requires tag == [] ==> !SqlTagAt(w1 + (body + (w2 + (Tick + after))), 0)
    ensures FindSqlBlock(s) == Some(b) && BlockSql(s, b) == body
    ensures WithoutBlock(s, b) == before + after
  {
    LaidIsFirst(s, before, tag, w1, body, w2, after, b);
    FindSqlBlockIsFirst(s, b);
    BlockSqlIsBody(s, b);
    WithoutLaidBlock(s, b, before, after);
  }

  /** A block laid out from its pieces satisfies the description of the first match, and captures the body. */
  lemma LaidIsFirst(s: string, before: string, tag: string, w1: string, body: string,
                    w2: string, after: string, b: Block)
    requires LaidOutAt(s, before, tag, w1, body, w2, after, b)
    requires '`' !in before && '`' !in body
    requires tag == [] || LowerIsSql(tag)
    requires AllSpace(w1) && AllSpace(w2) && IsTrimmed(body)
    requires tag == [] ==> !SqlTagAt(w1 + (body + (w2 + (Tick + after))), 0)
    ensures IsFirstBlock(s, b) && s[b.innerStart..b.innerEnd] == body
  {
    LayoutTag(s, b.open, tag, w1 + (body + (w2 + (Tick + after))));
    LayoutOpen(s, before);
    assert FenceAt(s, b.open) && FenceAt(s, b.close);
    LaidInner(s, before, tag, w1, body, w2, after, b);
  }

  /** Between the tag and the closing fence of a laid-out block: the white space, the body, and no fence. */
  lemma LaidInner(s: string, before: string, tag: string, w1: string, body: string,
                  w2: string, after: string, b: Block)
    requires LaidOutAt(s, before, tag, w1, body, w2, after, b)
    requires '`' !in body && AllSpace(w1) && AllSpace(w2) && IsTrimmed(body)
    ensures b.tagEnd <= b.innerStart <= b.innerEnd <= b.close < |s|
    ensures AllSpace(s[b.tagEnd..b.innerStart]) && !IsSpace(s[b.innerStart])
    ensures forall j: nat :: b.innerStart <= j < b.close ==> !FenceAt(s, j)
    ensures AllSpace(s[b.innerEnd..b.close]) && (b.innerEnd == b.innerStart || !IsSpace(s[b.innerEnd - 1]))
    ensures s[b.innerStart..b.innerEnd] == body
  {
    if body == [] {
      LaidEmpty(s, before, tag, w1, body, w2, after, b);
    } else {
      LaidBody(s, before, tag, w1, body, w2, after, b);
    }
  }

  lemma LaidEmpty(s: string, before: string, tag: string, w1: string, body: string,
                  w2: string, after: string, b: Block)
    requires LaidOutAt(s, before, tag, w1, body, w2, after, b)
    requires body == [] && AllSpace(w1) && AllSpace(w2)
    ensures b.tagEnd <= b.innerStart == b.innerEnd == b.close < |s|
    ensures AllSpace(s[b.tagEnd..b.innerStart]) && !IsSpace(s[b.innerStart])
    ensures s[b.innerStart..b.innerEnd] == body
  {
    assert s[b.tagEnd..b.close] == w1 + w2;
    assert FenceAt(s, b.close);
    FenceStartsWithTick(s, b.close);
  }

  lemma LaidBody(s: string, before: string, tag: string, w1: string, body: string,
                 w2: string, after: string, b: Block)
    requires LaidOutAt(s, before, tag, w1, body, w2, after, b)
    requires body != [] && '`' !in body && AllSpace(w1) && AllSpace(w2) && IsTrimmed(body)
    ensures b.tagEnd <= b.innerStart <= b.innerEnd <= b.close < |s|
    ensures AllSpace(s[b.tagEnd..b.innerStart]) && !IsSpace(s[b.innerStart])
    ensures forall j: nat :: b.innerStart <= j < b.close ==> !FenceAt(s, j)
    ensures AllSpace(s[b.innerEnd..b.close]) && !IsSpace(s[b.innerEnd - 1])
    ensures s[b.innerStart..b.innerEnd] == body
  {
    var k := b.tagEnd + |w1|;
    LayoutBody(s, k, body, b.close);
    assert s[k] == body[0];
    assert s[k + |body| - 1] == body[|body| - 1];
  }

  lemma WithoutLaidBlock(s: string, b: Block, before: string, after: string)
    requires Placed(s, b)
    requires s[..b.open] == before && s[b.close + 3..] == after
    ensures WithoutBlock(s, b) == before + after
  {
  }

  /** The pieces of a laid-out text sit where a placement built from their lengths says. */
  lemma LaidPieces(before: string, tag: string, w1: string, body: string, w2: string, after: string, b: Block)
    requires b.open == |before| && b.tagEnd == b.open + 3 + |tag|
    requires b.close == b.tagEnd + |w1| + |body| + |w2|
    requires b.innerStart == (if body == [] then b.close else b.tagEnd + |w1|)
    requires b.innerEnd == (if body == [] then b.close else b.tagEnd + |w1| + |body|)
    ensures LaidOutAt(Laid(before, tag, w1, body, w2, after), before, tag, w1, body, w2, after, b)
  {
    var s := Laid(before, tag, w1, body, w2, after);
    LayoutHead(s, before, tag, w1 + (body + (w2 + (Tick + after))), b);
    LayoutTail(s, b.tagEnd, w1, body, w2, after, b.close);
  }

  /** The text laid out as prose, a fence, a tag, white space, a body, white space, a fence, prose. */
  function Laid(before: string, tag: string, w1: string, body: string, w2: string, after: string): string {
    before + (Tick + (tag + (w1 + (body + (w2 + (Tick + after))))))
  }

  /**
   * Round trip: a text laid out as prose, a fence, an optional `sql` tag,
   * white space, a trimmed body, white space, a fence and more prose yields
   * exactly that body as SQL, and removing the block leaves the two pieces of
   * prose joined.
   */
  lemma {:induction false} BlockRoundTrip(before: string, tag: string, w1: string, body: string,
                                          w2: string, after: string)
    requires '`' !in before && '`' !in body
    requires tag == [] || LowerIsSql(tag)
    requires AllSpace(w1) && AllSpace(w2) && IsTrimmed(body)
    requires tag == [] ==> !SqlTagAt(w1 + (body + (w2 + (Tick + after))), 0)
    ensures var s := Laid(before, tag, w1, body, w2, after);
            && FindSqlBlock(s).Some?
            && BlockSql(s, FindSqlBlock(s).value) == body
            && WithoutBlock(s, FindSqlBlock(s).value) == before + after
  {
    var s := Laid(before, tag, w1, body, w2, after);
    var tagEnd := |before| + 3 + |tag|;
    var close := tagEnd + |w1| + |body| + |w2|;
    var b := Block(|before|, tagEnd,
                   if body == [] then close else tagEnd + |w1|,
                   if body == [] then close else tagEnd + |w1| + |body|, close);
    LaidPieces(before, tag, w1, body, w2, after, b);
    LayoutIsFirstBlock(s, before, tag, w1, body, w2, after, b);
  }
}
