/**
  * The scrambled-text reveal (src/components/TextScramble.tsx). Frame `f`
  * shows the text with every position up to `f` revealed, spaces kept, and
  * every later position replaced by a random glyph from a fixed charset.
  * The frame counter then advances by one per timer step until it reaches
  * the text's length; that frame shows the plain text and the steps stop.
  * A ref guard makes the animation start at most once per instance.
  */
module TextScramble {

  /** The glyph charset, as the source spells it (its "â€”" is three
      characters, a mis-decoded dash). */
  const Chars: string :=
    "!<>-_\\/[]{}\U{00E2}\U{20AC}\U{201D}=+*^?#________ABCDEFGHIJKLMNOPQRSTUVWXYZabcdefghijklmnopqrstuvwxyz1234567890"

  /** The random draws of one frame: `Math.floor(Math.random() * chars.length)`
      for each position, an index into the charset. */
  predicate ValidPicks(text: string, picks: seq<nat>)
  {
    |picks| == |text| && forall i :: 0 <= i < |picks| ==> picks[i] < |Chars|
  }

  /** The character frame `frame` shows at position `i`: a space stays a
      space, a position up to the frame is revealed, and any later one is a
      glyph of the charset. */
  function FrameChar(text: string, frame: nat, picks: seq<nat>, i: nat): (c: char)
    requires ValidPicks(text, picks) && i < |text|
    ensures text[i] == ' ' ==> c == ' '
    ensures i <= frame ==> c == text[i]
    ensures text[i] != ' ' && frame < i ==> c in Chars
  {
    if text[i] == ' ' then ' '
    else if frame > i then text[i]
    else if frame == i then text[i]
    else Chars[picks[i]]
  }

  /** `s` is the output of frame `frame` under the draws `picks`. */
  ghost predicate IsFrame(text: string, frame: nat, picks: seq<nat>, s: string)
    requires ValidPicks(text, picks)
  {
    |s| == |text| && forall i :: 0 <= i < |text| ==> s[i] == FrameChar(text, frame, picks, i)
  }

  /** `scramble()`'s loop: one character per position of `text`. */
  method Scramble(text: string, frame: nat, picks: seq<nat>) returns (scrambled: string)
    requires ValidPicks(text, picks)
    ensures IsFrame(text, frame, picks, scrambled)
    ensures |scrambled| == |text|
    ensures forall i :: 0 <= i < |text| && text[i] == ' ' ==> scrambled[i] == ' '
    ensures forall i :: 0 <= i < |text| && i <= frame ==> scrambled[i] == text[i]
    ensures forall i :: 0 <= i < |text| && text[i] != ' ' && i > frame ==> scrambled[i] in Chars
  {
    scrambled := "";
    for i := 0 to |text|
      invariant |scrambled| == i
      invariant forall k :: 0 <= k < i ==> scrambled[k] == FrameChar(text, frame, picks, k)
    {
      if text[i] == ' ' {
        scrambled := scrambled + " ";
        continue;
      }
      if frame > i {
        scrambled := scrambled + [text[i]];
      } else if frame == i {
        scrambled := scrambled + [text[i]];
      } else {
        scrambled := scrambled + [Chars[picks[i]]];
      }
    }
  }

  /** From frame `|text| - 1` on, the output is the text itself, whatever
      the draws. */
  lemma LateFrameIsText(text: string, frame: nat, picks: seq<nat>, s: string)
    requires ValidPicks(text, picks) && IsFrame(text, frame, picks, s)
    requires frame + 1 >= |text|
    ensures s == text
  {
    assert forall i :: 0 <= i < |text| ==> s[i] == text[i];
  }

  /** An animated span. `text` is the current prop; `target` is the text the
      effect's closure captured when it ran, the one the timer animates. */
  class Scrambler {
    var text: string
    var target: string
    var displayText: string
    var frame: nat
    var hasAnimated: bool
    /** a `scramble` call is scheduled on the timer */
    var pending: bool
    /** the `isScrambling` state */
    var scrambling: bool

    ghost predicate Valid()
      reads this
    {
      && frame <= |target|
      && (pending ==> hasAnimated)
      && (hasAnimated && !pending ==> frame == |target| && displayText == target && !scrambling)
      && (!hasAnimated ==> frame == 0 && scrambling)
    }

    /** `useState(text)`: the plain text shows before the effect runs. */
    constructor (text: string)
      ensures Valid()
      ensures this.text == text && target == text && displayText == text
      ensures frame == 0 && !hasAnimated && !pending && scrambling
    {
      this.text := text;
      target := text;
      displayText := text;
      frame := 0;
      hasAnimated := false;
      pending := false;
      scrambling := true;
    }

    /** The effect: the first pass captures the current text and schedules
        frame 0; every later pass returns at the guard and changes nothing. */
    method Start()
      requires Valid()
      modifies this
      ensures Valid()
      ensures old(hasAnimated) ==>
        hasAnimated && pending == old(pending) && frame == old(frame)
        && target == old(target)
      ensures !old(hasAnimated) ==> hasAnimated && pending && frame == 0 && target == text
      ensures text == old(text) && displayText == old(displayText) && scrambling == old(scrambling)
    {
      if hasAnimated {
        return;
      }
      hasAnimated := true;
      target := text;
      frame := 0;
      pending := true;
    }

    /** A re-render with a new `text` prop, followed by the effect, which
        lists `text` as a dependency and so runs again. Once the instance has
        animated, the guard returns: the span keeps what it shows, and a
        running animation goes on revealing the text it captured. */
    method ChangeText(newText: string)
      requires Valid()
      modifies this
      ensures Valid() && text == newText && hasAnimated
      ensures old(hasAnimated) ==>
        target == old(target) && displayText == old(displayText) && frame == old(frame)
        && pending == old(pending) && scrambling == old(scrambling)
      ensures !old(hasAnimated) ==> target == newText && pending && frame == 0
    {
      text := newText;
      Start();
    }

    /** One timer callback: nothing happens unless a call is scheduled; a
        scheduled call shows the current frame of the captured text and
        either advances the counter by one and reschedules, or, at the last
        frame, stops. */
    method Tick(picks: seq<nat>)
      requires Valid() && ValidPicks(target, picks)
      modifies this
      ensures Valid()
      ensures hasAnimated == old(hasAnimated) && text == old(text) && target == old(target)
      ensures !old(pending) ==>
        pending == old(pending) && frame == old(frame) && displayText == old(displayText)
        && scrambling == old(scrambling)
      ensures old(pending) ==> IsFrame(target, old(frame), picks, displayText)
      ensures old(pending) && old(frame) < |target| ==>
        frame == old(frame) + 1 && pending && scrambling == old(scrambling)
      ensures old(pending) && old(frame) == |target| ==>
        frame == old(frame) && !pending && !scrambling && displayText == target
    {
      if !pending {
        return;
      }
      var shown := Scramble(target, frame, picks);
      displayText := shown;
      if frame < |target| {
        frame := frame + 1;
      } else {
        LateFrameIsText(target, frame, picks, shown);
        pending := false;
        scrambling := false;
      }
    }
  }

  /** Starting an animation and stepping it until nothing is scheduled takes
      exactly `|text| + 1` steps and leaves the plain text on screen. */
  method RunToEnd(s: Scrambler, picks: seq<nat>) returns (steps: nat)
    requires s.Valid() && !s.hasAnimated && ValidPicks(s.text, picks)
    modifies s
    ensures s.Valid() && !s.pending && !s.scrambling
    ensures s.text == s.target == old(s.text)
    ensures s.displayText == s.text && steps == |s.text| + 1
  {
    s.Start();
    steps := 0;
    while s.pending
      invariant s.Valid() && s.hasAnimated && s.text == s.target == old(s.text)
      invariant s.pending ==> steps == s.frame
      invariant !s.pending ==> steps == |s.text| + 1
      decreases |s.target| - s.frame + (if s.pending then 1 else 0)
    {
      s.Tick(picks);
      steps := steps + 1;
    }
  }
}
