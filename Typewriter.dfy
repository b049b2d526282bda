/**
 * The hero greeting's typewriter. An interval fires every 100 ms; each tick
 * shows one more UTF-16 code unit of the greeting, and the first tick that
 * finds the whole greeting shown stops the interval and schedules the
 * subtitle 300 ms and the YES button 800 ms later.
 */
module Typewriter {

  /** A UTF-16 code unit: JavaScript strings are indexed (and `substring` cuts) by these. */
  newtype CodeUnit = x: int | 0 <= x < 0x1_0000

  /** "Hey Anita! " followed by U+1F5A4 BLACK HEART, which is the surrogate pair D83D DDA4. */
  const Greeting: seq<CodeUnit> := [0x48, 0x65, 0x79, 0x20, 0x41, 0x6E, 0x69, 0x74, 0x61, 0x21, 0x20, 0xD83D, 0xDDA4]

  const TypeInterval: nat := 100
  const SubtitleDelay: nat := 300
  const ButtonDelay: nat := 800

  /** The tick that finds the greeting complete and stops the interval: one tick after the last code unit. */
  function DoneAt(): nat {
    TypeInterval * (|Greeting| + 1)
  }

  function Min(a: nat, b: nat): (m: nat)
    ensures m <= a && m <= b && (m == a || m == b)
  {
    if a <= b then a else b
  }

  /** The text shown `elapsed` ms after mount: one code unit per completed tick, up to the whole greeting. */
  function TypedAt(elapsed: nat): (s: seq<CodeUnit>)
    ensures |s| == Min(elapsed / TypeInterval, |Greeting|) && s == Greeting[..|s|]
  {
    Greeting[..Min(elapsed / TypeInterval, |Greeting|)]
  }

  /**
   * The state of the hero `elapsed` ms after mount, computed by running the
   * interval callback once per elapsed tick: `i` counts the code units shown,
   * and the tick that finds `i == text.length` clears the interval and
   * starts the two timeouts.
   */
  method TypewriterAt(elapsed: nat) returns (typedText: seq<CodeUnit>, showSubtitle: bool, showButton: bool)
    ensures typedText == TypedAt(elapsed)
    ensures showSubtitle <==> elapsed >= DoneAt() + SubtitleDelay
    ensures showButton <==> elapsed >= DoneAt() + ButtonDelay
  {
    typedText := [];
    var i := 0;
    var cleared := false;
    var clearedAt := 0;
    var tick: nat := 1;
    while !cleared && TypeInterval * tick <= elapsed
      invariant tick >= 1 && i <= |Greeting| && typedText == Greeting[..i]
      invariant !cleared ==> i == tick - 1 && TypeInterval * (tick - 1) <= elapsed
      invariant cleared ==> i == |Greeting| && clearedAt == DoneAt() && clearedAt <= elapsed
      decreases if cleared then 0 else elapsed + TypeInterval - TypeInterval * tick + 1
    {
      if i < |Greeting| {
        typedText := Greeting[..i + 1];
        i := i + 1;
      } else {
        cleared := true;
        clearedAt := TypeInterval * tick;
      }
      tick := tick + 1;
    }
    showSubtitle := cleared && clearedAt + SubtitleDelay <= elapsed;
    showButton := cleared && clearedAt + ButtonDelay <= elapsed;
    if cleared {
      assert elapsed / TypeInterval >= |Greeting| + 1;
    } else {
      assert elapsed < TypeInterval * tick;
      assert elapsed / TypeInterval == tick - 1;
    }
  }

  predicate IsHighSurrogate(u: CodeUnit) {
    0xD800 <= u <= 0xDBFF
  }

  predicate IsLowSurrogate(u: CodeUnit) {
    0xDC00 <= u <= 0xDFFF
  }

  /** Every high surrogate is followed by a low one and every low surrogate follows a high one. */
  predicate WellFormed(s: seq<CodeUnit>) {
    forall i {:trigger s[i]} :: 0 <= i < |s| ==>
      (IsHighSurrogate(s[i]) ==> i + 1 < |s| && IsLowSurrogate(s[i + 1]))
      && (IsLowSurrogate(s[i]) ==> i > 0 && IsHighSurrogate(s[i - 1]))
  }

  /**
   * Typing by code unit cuts the heart's surrogate pair: the shown text is
   * well-formed UTF-16 at every moment except the 100 ms tick between 1200
   * and 1300 ms, when it ends in a lone high surrogate.
   */
  lemma TypedTextWellFormed(elapsed: nat)
    ensures WellFormed(TypedAt(elapsed)) <==> !(1200 <= elapsed < 1300)
  {
    var n := Min(elapsed / TypeInterval, |Greeting|);
    if elapsed < 1200 {
      assert elapsed / TypeInterval < 12;
    } else if elapsed < 1300 {
      assert elapsed / TypeInterval == 12;
    } else {
      assert elapsed / TypeInterval >= 13;
    }
    PrefixWellFormed(n);
  }

  /** The first `n` code units of the greeting are well-formed except when they stop inside the surrogate pair. */
  lemma PrefixWellFormed(n: nat)
    requires n <= |Greeting|
    ensures WellFormed(Greeting[..n]) <==> n != 12
  {
    var s := Greeting[..n];
    if n == 12 {
      assert s[11] == 0xD83D;
      assert IsHighSurrogate(s[11]) && !(11 + 1 < |s|);
    } else if n == 13 {
      assert s == Greeting;
      forall i | 0 <= i < |s|
        ensures IsHighSurrogate(s[i]) ==> i + 1 < |s| && IsLowSurrogate(s[i + 1])
        ensures IsLowSurrogate(s[i]) ==> i > 0 && IsHighSurrogate(s[i - 1])
      {
        if i < 11 {
          assert !IsHighSurrogate(s[i]) && !IsLowSurrogate(s[i]);
        } else if i == 11 {
          assert s[i + 1] == 0xDDA4;
        } else {
          assert s[i - 1] == 0xD83D;
        }
      }
    } else {
      forall i | 0 <= i < |s| ensures !IsHighSurrogate(s[i]) && !IsLowSurrogate(s[i]) {
        assert s[i] == Greeting[i] && i <= 10;
      }
    }
  }
}
