/**
  * The scroll-progress widget (src/components/ScrollProgress.tsx): a
  * percentage computed from the scroll offset and the scrollable height,
  * capped at 100, shown rounded, and three section dots of which the one
  * whose third of the range holds the progress is lit.
  *
  * Arithmetic is exact, except that division by zero follows IEEE 754 as
  * JavaScript does, since that is where the widget misbehaves: a page with
  * no scrollable height yields NaN. The dot bounds are multiples of 33.33,
  * which leaves 99.99 to 100 outside every dot. Both are recorded with a
  * corrected definition beside the one as written.
  */
module ScrollProgress {

  /** A JavaScript number as far as this widget needs: finite, an
      infinity, or NaN (negative zero is not distinguished). */
  datatype JsNum = Finite(r: real) | PosInf | NegInf | NaN

  /** `a / b`. */
  function Divide(a: real, b: real): (q: JsNum)
    ensures b != 0.0 ==> q == Finite(a / b)
    ensures b == 0.0 ==> (q == NaN <==> a == 0.0)
    ensures b == 0.0 ==> (q == PosInf <==> a > 0.0) && (q == NegInf <==> a < 0.0)
  {
    if b != 0.0 then Finite(a / b)
    else if a > 0.0 then PosInf
    else if a < 0.0 then NegInf
    else NaN
  }

  /** `x * 100`. */
  function Times100(x: JsNum): JsNum
  {
    match x
    case Finite(r) => Finite(r * 100.0)
    case _ => x
  }

  /** `Math.min(x, bound)` for a finite `bound`: NaN if `x` is NaN. */
  function MinWith(x: JsNum, bound: real): (m: JsNum)
    ensures x == NaN <==> m == NaN
    ensures m != PosInf
    ensures m.Finite? ==> m.r <= bound
    ensures x.Finite? ==> m == Finite(if x.r <= bound then x.r else bound)
  {
    match x
    case Finite(r) => Finite(if r <= bound then r else bound)
    case PosInf => Finite(bound)
    case NegInf => NegInf
    case NaN => NaN
  }

  /** `updateProgress`'s value, as written. */
  function ProgressAsWritten(scrollTop: real, docHeight: real): (p: JsNum)
    ensures p != PosInf
    ensures p.Finite? ==> p.r <= 100.0
  {
    MinWith(Times100(Divide(scrollTop, docHeight)), 100.0)
  }

  /** On a scrollable page the value is the capped percentage. */
  lemma ProgressOnScrollablePage(scrollTop: real, docHeight: real)
    requires docHeight > 0.0
    ensures var p := ProgressAsWritten(scrollTop, docHeight);
      && p.Finite?
      && (scrollTop <= docHeight ==> p.r == scrollTop / docHeight * 100.0)
      && (scrollTop >= docHeight ==> p.r == 100.0)
      && (0.0 <= scrollTop ==> 0.0 <= p.r)
  {
    var q := scrollTop / docHeight;
    if scrollTop <= docHeight {
      assert q <= 1.0 by {
        assert q * docHeight == scrollTop;
      }
    } else {
      assert q > 1.0 by {
        assert q * docHeight == scrollTop;
      }
    }
    if 0.0 <= scrollTop {
      assert 0.0 <= q;
    }
  }

  /** There is no lower clamp: an overscroll above the top of the page (a
      negative offset, as rubber-band scrolling reports) gives a negative
      value. */
  lemma NoLowerClamp()
    ensures ProgressAsWritten(-10.0, 1000.0) == Finite(-1.0)
  {
  }

  /** A page that fits the window exactly, at rest, gives NaN. */
  lemma NaNOnUnscrollablePage()
    ensures ProgressAsWritten(0.0, 0.0) == NaN
  {
  }

  /** The progress with the zero-height page handled: an unscrollable page
      counts as 0% unless it reports a positive offset (which as written
      already gives 100%). */
  function Progress(scrollTop: real, docHeight: real): (p: real)
    ensures p <= 100.0
  {
    if docHeight == 0.0 then (if scrollTop > 0.0 then 100.0 else 0.0)
    else
      var percent := scrollTop / docHeight * 100.0;
      if percent <= 100.0 then percent else 100.0
  }

  /** The corrected value agrees with the one as written wherever that one
      is a number, and is 0 where that one is NaN. */
  lemma ProgressAgrees(scrollTop: real, docHeight: real)
    ensures ProgressAsWritten(scrollTop, docHeight).Finite? ==>
      ProgressAsWritten(scrollTop, docHeight) == Finite(Progress(scrollTop, docHeight))
    ensures ProgressAsWritten(scrollTop, docHeight) == NaN ==> Progress(scrollTop, docHeight) == 0.0
  {
  }

  /** On a page scrolled within its range the corrected value is a
      percentage. */
  lemma ProgressInRange(scrollTop: real, docHeight: real)
    requires 0.0 <= scrollTop && 0.0 <= docHeight
    ensures 0.0 <= Progress(scrollTop, docHeight) <= 100.0
  {
    if docHeight > 0.0 {
      assert 0.0 <= scrollTop / docHeight;
    }
  }

  /** `Math.round`: the nearest integer, halves rounded up. */
  function Round(x: real): (n: int)
    ensures n as real - 0.5 <= x < n as real + 0.5
  {
    (x + 0.5).Floor
  }

  /** The label's number: NaN and the infinities pass through. */
  function RoundJs(x: JsNum): (y: JsNum)
    ensures x.Finite? <==> y.Finite?
    ensures x.Finite? ==> y.r == Round(x.r) as real
    ensures !x.Finite? ==> y == x
  {
    if x.Finite? then Finite(Round(x.r) as real) else x
  }

  /** A percentage is labelled with a whole number from 0 to 100. */
  lemma LabelInRange(p: real)
    requires 0.0 <= p <= 100.0
    ensures 0 <= Round(p) <= 100
  {
  }

  const Sections: seq<string> := ["Hero", "Timeline", "Projects"]

  /** The width of a dot's range. */
  const Step: real := 33.33

  /** Dot `i` is lit, as written: `i * 33.33 <= progress < (i + 1) * 33.33`;
      every comparison with NaN is false. */
  predicate DotActiveAsWritten(p: JsNum, i: nat)
    ensures DotActiveAsWritten(p, i) ==> p.Finite? && 0.0 <= p.r
    ensures p.Finite? && i as real * Step <= p.r < (i + 1) as real * Step ==> DotActiveAsWritten(p, i)
  {
    match p
    case Finite(r) => i as real * Step <= r && r < (i + 1) as real * Step
    case PosInf => false
    case NegInf => false
    case NaN => false
  }

  /** The ranges are disjoint, so at most one dot is lit. */
  lemma AtMostOneDot(p: JsNum, i: nat, j: nat)
    requires DotActiveAsWritten(p, i) && DotActiveAsWritten(p, j)
    ensures i == j
  {
  }

  /** At the bottom of the page (100%), and from 99.99% on, no section dot
      is lit; neither is one while the value is NaN. */
  lemma NoDotAtBottom(r: real, i: nat)
    requires i < |Sections| && r >= 99.99
    ensures !DotActiveAsWritten(Finite(r), i)
    ensures !DotActiveAsWritten(Finite(100.0), i)
    ensures !DotActiveAsWritten(ProgressAsWritten(0.0, 0.0), i)
  {
  }

  /** Dot `i` is lit with the last dot's range closed at the top, so that it
      covers everything from `2 * 33.33` up. */
  predicate DotActive(r: real, i: nat)
    ensures DotActive(r, i) ==> i < |Sections| && 0.0 <= r
    ensures i == |Sections| - 1 && 2.0 * Step <= r ==> DotActive(r, i)
  {
    i < |Sections| && i as real * Step <= r && (r < (i + 1) as real * Step || i == |Sections| - 1)
  }

  /** With the last range closed, every percentage lights exactly one dot. */
  lemma ExactlyOneDot(r: real)
    requires 0.0 <= r <= 100.0
    ensures DotActive(r, 0) || DotActive(r, 1) || DotActive(r, 2)
    ensures forall i: nat, j: nat :: DotActive(r, i) && DotActive(r, j) ==> i == j
  {
  }

  /** Below 99.99% the corrected rule agrees with the one as written. */
  lemma DotActiveAgrees(r: real, i: nat)
    requires r < 99.99 && i < |Sections|
    ensures DotActive(r, i) <==> DotActiveAsWritten(Finite(r), i)
  {
  }
}
