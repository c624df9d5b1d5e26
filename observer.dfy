/**
 * The in-page mutation observer of initObservers: it folds the bounding
 * rectangles of one batch of DOM mutations into a running box, widens the
 * box's left and right edges to multiples of 32 columns, and emits the box
 * (as a DOMRect) with the 4-level flags of the batch's last mutation.
 */
module Observer {
  import opened Wrappers

  /** Number.MAX_SAFE_INTEGER, the running box's initial left and top. */
  const MaxSafeInteger: int := 9007199254740991

  /** An edge box: getBoundingClientRect of a mutated element, or the running box. */
  datatype Rect = Rect(left: int, top: int, right: int, bottom: int)

  /** A DOMRect as the helper receives it: the clip for a capture and the position of a draw. */
  datatype Area = Area(x: int, y: int, width: int, height: int)

  /** One mutation: the target's bounds and whether it sits inside .eink-4levels / .no-eink-4levels. */
  datatype Mutation = Mutation(bounds: Rect, is4levels: bool, isNo4levels: bool)

  /** What the observer passes to puppeteerMutation. */
  datatype Notice = Notice(area: Area, is4levels: bool, isNo4levels: bool)

  function Min(a: int, b: int): int { if a <= b then a else b }
  function Max(a: int, b: int): int { if a <= b then b else a }

  /** floor32: the largest multiple of 32 not above x. */
  function Floor32(x: int): (r: int)
    ensures r % 32 == 0 && r <= x < r + 32
  {
    x / 32 * 32
  }

  /** ceil32: the smallest multiple of 32 not below x. */
  function Ceil32(x: int): (r: int)
    ensures r % 32 == 0 && r - 32 < x <= r
  {
    (x + 31) / 32 * 32
  }

  /** A mutation with zero width or zero height is ignored. */
  predicate Visible(r: Rect) {
    r.right - r.left != 0 && r.bottom - r.top != 0
  }

  /** box reaches at least as far as r on every side. */
  predicate Covers(box: Rect, r: Rect) {
    box.left <= r.left && box.top <= r.top && r.right <= box.right && r.bottom <= box.bottom
  }

  /** The running box before the first mutation. */
  const Start: Rect := Rect(MaxSafeInteger, MaxSafeInteger, 0, 0)

  /** One step of the observer's loop. Top and bottom are integers here, so Math.floor/ceil leave them as they are. */
  function Grow(box: Rect, m: Rect): Rect {
    if Visible(m) then
      Rect(Floor32(Min(box.left, m.left)), Min(box.top, m.top),
           Ceil32(Max(box.right, m.right)), Max(box.bottom, m.bottom))
    else box
  }

  /** The running box after the given mutations. */
  function Fold(ms: seq<Mutation>): Rect
    decreases |ms|
  {
    if ms == [] then Start else Grow(Fold(ms[..|ms| - 1]), ms[|ms| - 1].bounds)
  }

  /**
   * The min/max of the visible boxes, folded from Start without any alignment.
   * Because Start has right = bottom = 0, right and bottom are never below 0.
   */
  function Hull(ms: seq<Mutation>): Rect
    decreases |ms|
  {
    if ms == [] then Start
    else
      var h := Hull(ms[..|ms| - 1]);
      var m := ms[|ms| - 1].bounds;
      if Visible(m) then Rect(Min(h.left, m.left), Min(h.top, m.top), Max(h.right, m.right), Max(h.bottom, m.bottom))
      else h
  }

  /** Some mutation of the batch has a non-zero width and height. */
  predicate AnyVisible(ms: seq<Mutation>) {
    exists k :: 0 <= k < |ms| && Visible(ms[k].bounds)
  }

  /** The notice for a batch whose running box ended as box. */
  function NoticeFor(box: Rect, ms: seq<Mutation>): Option<Notice> {
    if box.left < box.right && box.top < box.bottom && ms != [] then
      Some(Notice(Area(box.left, box.top, box.right - box.left, box.bottom - box.top),
                  ms[|ms| - 1].is4levels, ms[|ms| - 1].isNo4levels))
    else None
  }

  /**
   * The observer callback for one batch. The flags passed on are those of the
   * last mutation in the batch, visible or not, because the page keeps them in
   * variables the loop overwrites on every mutation.
   */
  method ObserveMutations(mutations: seq<Mutation>) returns (notice: Option<Notice>)
    ensures notice == NoticeFor(Fold(mutations), mutations)
    ensures notice.Some? ==> AnyVisible(mutations)
    ensures notice.Some? ==>
      var a := notice.value.area;
      a.width > 0 && a.height > 0 && a.x % 32 == 0 && (a.x + a.width) % 32 == 0 &&
      notice.value.is4levels == mutations[|mutations| - 1].is4levels &&
      notice.value.isNo4levels == mutations[|mutations| - 1].isNo4levels &&
      forall k :: 0 <= k < |mutations| && Visible(mutations[k].bounds) ==>
        Covers(Rect(a.x, a.y, a.x + a.width, a.y + a.height), mutations[k].bounds)
  {
    var rect := Start;
    var is4levels, isNo4levels := false, false;
    for i := 0 to |mutations|
      invariant rect == Fold(mutations[..i])
      invariant i > 0 ==> is4levels == mutations[i - 1].is4levels && isNo4levels == mutations[i - 1].isNo4levels
    {
      var m := mutations[i];
      is4levels, isNo4levels := m.is4levels, m.isNo4levels;
      if m.bounds.right - m.bounds.left != 0 && m.bounds.bottom - m.bounds.top != 0 {
        rect := Rect(Floor32(Min(rect.left, m.bounds.left)), Min(rect.top, m.bounds.top),
                     Ceil32(Max(rect.right, m.bounds.right)), Max(rect.bottom, m.bounds.bottom));
      }
      assert mutations[..i + 1][..i] == mutations[..i];
    }
    assert mutations[..|mutations|] == mutations;
    if rect.left < rect.right && rect.top < rect.bottom {
      FoldWithoutVisible(mutations);
      FoldCovers(mutations);
      FoldAligned(mutations);
      notice := Some(Notice(Area(rect.left, rect.top, rect.right - rect.left, rect.bottom - rect.top),
                            is4levels, isNo4levels));
    } else {
      notice := None;
    }
  }

  /** A batch with no visible mutation leaves the running box at its start, which is never emitted. */
  lemma {:induction false} FoldWithoutVisible(ms: seq<Mutation>)
    ensures !AnyVisible(ms) ==> Fold(ms) == Start && NoticeFor(Fold(ms), ms) == None
    decreases |ms|
  {
    if ms != [] && !AnyVisible(ms) {
      var p := ms[..|ms| - 1];
      assert !AnyVisible(p) by {
        forall k | 0 <= k < |p| ensures !Visible(p[k].bounds) { assert p[k] == ms[k]; }
      }
      FoldWithoutVisible(p);
      assert !Visible(ms[|ms| - 1].bounds);
    }
  }

  /** The running box covers every visible mutation rectangle of the batch. */
  lemma {:induction false} FoldCovers(ms: seq<Mutation>)
    ensures forall k :: 0 <= k < |ms| && Visible(ms[k].bounds) ==> Covers(Fold(ms), ms[k].bounds)
    decreases |ms|
  {
    if ms != [] {
      var p := ms[..|ms| - 1];
      FoldCovers(p);
      var b, m := Fold(p), ms[|ms| - 1].bounds;
      forall k | 0 <= k < |ms| && Visible(ms[k].bounds)
        ensures Covers(Fold(ms), ms[k].bounds)
      {
        if k < |p| {
          assert ms[k] == p[k];
          assert Covers(b, ms[k].bounds);
        }
      }
    }
  }

  /** Once a visible mutation was folded in, the box's left and right edges are multiples of 32. */
  lemma {:induction false} FoldAligned(ms: seq<Mutation>)
    ensures AnyVisible(ms) ==> Fold(ms).left % 32 == 0 && Fold(ms).right % 32 == 0
    decreases |ms|
  {
    if ms != [] && AnyVisible(ms) {
      var p := ms[..|ms| - 1];
      if !Visible(ms[|ms| - 1].bounds) {
        var k :| 0 <= k < |ms| && Visible(ms[k].bounds);
        assert k < |p| && p[k] == ms[k];
        FoldAligned(p);
      }
    }
  }

  lemma Floor32OfMin(a: int, b: int)
    ensures Floor32(Min(Floor32(a), b)) == Floor32(Min(a, b))
  {
    var fa, fb, fm := Floor32(a), Floor32(b), Floor32(Min(a, b));
    // Floor32 is the unique multiple of 32 in (x - 32, x]; it is monotone and idempotent.
    assert Floor32(fa) == fa by { assert fa % 32 == 0; }
    if a <= b {
      assert Min(fa, b) == fa;
    } else {
      assert fm == fb;
      if fa <= b {
        assert fa >= fb by { FloorMonotone(b, a); }
        assert fa <= b < fb + 32;
        assert fa == fb by { MultiplesApart(fa, fb); }
      }
    }
  }

  lemma Ceil32OfMax(a: int, b: int)
    ensures Ceil32(Max(Ceil32(a), b)) == Ceil32(Max(a, b))
  {
    var ca, cb := Ceil32(a), Ceil32(b);
    assert Ceil32(ca) == ca by { assert ca % 32 == 0; }
    if a < b {
      if ca >= b {
        assert ca <= cb by { CeilMonotone(a, b); }
        assert cb - 32 < b <= ca;
        assert ca == cb by { MultiplesApart(cb, ca); }
      }
    }
  }

  lemma FloorMonotone(x: int, y: int)
    requires x <= y
    ensures Floor32(x) <= Floor32(y)
  {
    if Floor32(x) > Floor32(y) {
      MultiplesApart(Floor32(y), Floor32(x));
    }
  }

  lemma CeilMonotone(x: int, y: int)
    requires x <= y
    ensures Ceil32(x) <= Ceil32(y)
  {
    if Ceil32(x) > Ceil32(y) {
      MultiplesApart(Ceil32(y), Ceil32(x));
    }
  }

  /** Two multiples of 32 less than 32 apart are equal. */
  lemma MultiplesApart(a: int, b: int)
    requires a % 32 == 0 && b % 32 == 0 && a <= b < a + 32
    ensures a == b
  {
    assert a == a / 32 * 32 && b == b / 32 * 32;
    assert a / 32 <= b / 32 < a / 32 + 1;
  }

  /**
   * The running box is the min/max of the visible boxes, starting from Start
   * (so right and bottom are at least 0), with only its left edge floored and
   * its right edge ceiled to a multiple of 32; top and bottom are not aligned.
   */
  lemma {:induction false} FoldIsAlignedHull(ms: seq<Mutation>)
    requires AnyVisible(ms)
    ensures var h := Hull(ms);
      Fold(ms) == Rect(Floor32(h.left), h.top, Ceil32(h.right), h.bottom)
    decreases |ms|
  {
    var p := ms[..|ms| - 1];
    var m := ms[|ms| - 1].bounds;
    if AnyVisible(p) {
      FoldIsAlignedHull(p);
      if Visible(m) {
        Floor32OfMin(Hull(p).left, m.left);
        Ceil32OfMax(Hull(p).right, m.right);
      }
    } else {
      FoldWithoutVisible(p);
      HullWithoutVisible(p);
      assert Visible(m) by {
        var k :| 0 <= k < |ms| && Visible(ms[k].bounds);
        assert forall j :: 0 <= j < |p| ==> p[j] == ms[j];
      }
      Floor32OfMin(MaxSafeInteger, m.left);
      assert Floor32(MaxSafeInteger) <= MaxSafeInteger;
      Ceil32OfMax(0, m.right);
    }
  }

  lemma {:induction false} HullWithoutVisible(ms: seq<Mutation>)
    ensures !AnyVisible(ms) ==> Hull(ms) == Start
    decreases |ms|
  {
    if ms != [] && !AnyVisible(ms) {
      var p := ms[..|ms| - 1];
      assert !AnyVisible(p) by {
        forall k | 0 <= k < |p| ensures !Visible(p[k].bounds) { assert p[k] == ms[k]; }
      }
      HullWithoutVisible(p);
      assert !Visible(ms[|ms| - 1].bounds);
    }
  }

  /** A batch holding a rectangle of positive width and height is always emitted. */
  lemma ProperMutationIsEmitted(ms: seq<Mutation>, k: int)
    requires 0 <= k < |ms|
    requires ms[k].bounds.left < ms[k].bounds.right && ms[k].bounds.top < ms[k].bounds.bottom
    ensures NoticeFor(Fold(ms), ms).Some?
  {
    FoldCovers(ms);
  }

  /** A 40x40 change at the origin is emitted as 64 columns by 40 rows: only the columns are aligned. */
  lemma ExampleAlignment()
    ensures NoticeFor(Fold([Mutation(Rect(0, 0, 40, 40), false, false)]), [Mutation(Rect(0, 0, 40, 40), false, false)])
         == Some(Notice(Area(0, 0, 64, 40), false, false))
  {
    var ms := [Mutation(Rect(0, 0, 40, 40), false, false)];
    assert ms[..0] == [];
  }

  /** A zero-width change is ignored: nothing is emitted. */
  lemma ExampleZeroWidth()
    ensures NoticeFor(Fold([Mutation(Rect(0, 0, 0, 10), true, false)]), [Mutation(Rect(0, 0, 0, 10), true, false)]) == None
  {
    var ms := [Mutation(Rect(0, 0, 0, 10), true, false)];
    assert ms[..0] == [];
  }

  /** The running box starts with right = bottom = 0, so a box wholly above or left of the origin still ends at 0. */
  lemma {:induction false} FoldReachesOrigin(ms: seq<Mutation>)
    ensures Fold(ms).right >= 0 && Fold(ms).bottom >= 0
    decreases |ms|
  {
    if ms != [] {
      FoldReachesOrigin(ms[..|ms| - 1]);
    }
  }

  /** A box wholly above and left of the origin is emitted stretched to the origin. */
  lemma ExampleNegativeBox()
    ensures Fold([Mutation(Rect(-100, -100, -50, -50), false, false)]) == Rect(-128, -100, 0, 0)
  {
    var ms := [Mutation(Rect(-100, -100, -50, -50), false, false)];
    assert ms[..0] == [];
  }
}
