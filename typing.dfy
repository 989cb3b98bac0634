/**
  The `useTypingEffect` hook: a message is revealed one character per
  interval tick; once the counter reaches the last index the interval stops
  and a timeout later clears `isTyping`. Timers are discrete steps here:
  `Tick` is one firing of the interval, `Settle` one firing of a scheduled
  timeout, `Cleanup` the effect's cleanup on unmount.

  The updater passed to `setText` on line 14 is taken to run when `setText`
  is called, so `message[i]` is read before `i++`: the text then shows the
  first character twice and never the last one.
 */
module Typing {
  import opened Wrappers

  /** The largest value of the counter `i` for a message: `|m| - 1`, and 0 for the empty message. */
  function LastIndex(m: string): nat {
    if |m| == 0 then 0 else |m| - 1
  }

  /**
    The `text` state after `i` revealing ticks: `message[0]` (which is
    `undefined` for an empty message) followed by `message[0..i)`.
   */
  function Revealed(m: string, i: nat): (r: Option<string>)
    requires i <= LastIndex(m)
    ensures r.None? <==> |m| == 0
    ensures r.Some? ==> |r.value| == i + 1 && r.value[0] == m[0]
    ensures r.Some? ==> forall j :: 1 <= j <= i ==> r.value[j] == m[j - 1]
  {
    if |m| == 0 then None else Some([m[0]] + m[..i])
  }

  /** A revealing tick appends exactly the character `message[i]`. */
  lemma RevealStep(m: string, i: nat)
    requires i < |m| - 1
    ensures Revealed(m, i + 1) == Some(Revealed(m, i).value + [m[i]])
  {
    assert m[..i + 1] == m[..i] + [m[i]];
    assert [m[0]] + m[..i + 1] == ([m[0]] + m[..i]) + [m[i]];
  }

  /** The text once the interval has stopped. */
  function FinalText(m: string): Option<string> {
    Revealed(m, LastIndex(m))
  }

  /**
    The completed text has the message's length, but reads
    `message[0] + message[0..|message| - 1)`.
   */
  lemma FinalTextLiteral(m: string)
    requires |m| > 0
    ensures FinalText(m) == Some([m[0]] + m[..|m| - 1])
    ensures |FinalText(m).value| == |m|
  {
  }

  /** If every character equals its predecessor, every character equals the first. */
  lemma {:induction false} ChainedEqual(m: string, j: nat)
    requires j < |m|
    requires forall k :: 1 <= k < |m| ==> m[k] == m[k - 1]
    ensures m[j] == m[0]
  {
    if j > 0 {
      ChainedEqual(m, j - 1);
    }
  }

  /** The revealed text equals the message exactly when the message repeats one character. */
  lemma FinalTextIsMessageIffUniform(m: string)
    requires |m| > 0
    ensures FinalText(m) == Some(m) <==> forall j :: 0 <= j < |m| ==> m[j] == m[0]
  {
    var t := FinalText(m).value;
    if forall j :: 0 <= j < |m| ==> m[j] == m[0] {
      assert forall j :: 0 <= j < |m| ==> t[j] == m[j];
    }
    if t == m {
      assert forall k :: 1 <= k < |m| ==> m[k] == t[k] == m[k - 1];
      forall j | 0 <= j < |m| ensures m[j] == m[0] {
        ChainedEqual(m, j);
      }
    }
  }

  /** The hook's state: React state `text`/`isTyping`, the effect's closure and its timers. */
  class TypingEffect {
    /** The message the running effect closes over. */
    var message: string
    /** React state `text`; `None` is `undefined`. */
    var text: Option<string>
    var isTyping: bool
    /** The effect's counter `i`. */
    var i: nat
    /** Whether `setInterval`'s timer is still registered. */
    var intervalActive: bool
    /** The number of `setTimeout(() => setIsTyping(false), 1000)` callbacks not yet run. */
    var pendingSettles: nat

    ghost predicate Valid()
      reads this
    {
      i <= LastIndex(message) && text == Revealed(message, i)
    }

    /** Mounting: the initial state and the first run of the effect for `m`. */
    constructor (m: string)
      ensures Valid()
      ensures message == m && i == 0 && text == Revealed(m, 0)
      ensures isTyping && intervalActive && pendingSettles == 0
    {
      pendingSettles := 0;
      new;
      RunEffect(m);
    }

    /**
      One run of the effect body for `m`: `i = 0`, `setText(m[0])`,
      `setIsTyping(true)` and a new interval; pending settles are untouched.
     */
    method RunEffect(m: string)
      modifies this
      ensures Valid()
      ensures message == m && i == 0 && text == Revealed(m, 0)
      ensures isTyping && intervalActive && pendingSettles == old(pendingSettles)
    {
      message := m;
      i := 0;
      text := if |m| == 0 then None else Some([m[0]]);
      isTyping := true;
      intervalActive := true;
      assert |m| > 0 ==> [m[0]] + m[..0] == [m[0]];
    }

    /**
      A render with message `m`: the effect re-runs only for a different
      message. Its cleanup clears the old interval (no further tick for the old
      message) but not a settle timeout already scheduled; the new run sets
      `text` to `m[0]`, `i` to 0 and `isTyping` to true.
     */
    method Render(m: string)
      requires Valid()
      modifies this
      ensures Valid()
      ensures old(message) == m ==> unchanged(this)
      ensures old(message) != m ==> message == m && i == 0 && text == Revealed(m, 0)
      ensures old(message) != m ==> isTyping && intervalActive
      ensures pendingSettles == old(pendingSettles)
    {
      if m != message {
        intervalActive := false;
        RunEffect(m);
      }
    }

    /**
      One firing of the interval. While `i < |message| - 1` it appends
      `message[i]` and increments `i`; otherwise it clears the interval and
      schedules the settle timeout, with the text then as long as the message.
      `isTyping` never changes on a tick.
     */
    method Tick() returns (fired: bool)
      requires Valid()
      modifies this
      ensures Valid()
      ensures fired == old(intervalActive)
      ensures !fired ==> unchanged(this)
      ensures message == old(message) && isTyping == old(isTyping)
      ensures fired && old(i) < |message| - 1 ==>
        i == old(i) + 1 && text == Some(old(text).value + [message[old(i)]])
        && intervalActive && pendingSettles == old(pendingSettles)
      ensures fired && !(old(i) < |message| - 1) ==>
        i == old(i) && text == old(text) && !intervalActive && pendingSettles == old(pendingSettles) + 1
      ensures fired && !(old(i) < |message| - 1) ==> text == FinalText(message)
      ensures fired && !(old(i) < |message| - 1) && |message| > 0 ==> |text.value| == |message|
    {
      fired := intervalActive;
      if intervalActive {
        if i < |message| - 1 {
          RevealStep(message, i);
          text := Some(text.value + [message[i]]);
          i := i + 1;
        } else {
          intervalActive := false;
          pendingSettles := pendingSettles + 1;
        }
      }
    }

    /** One firing of a scheduled settle timeout: `setIsTyping(false)`. */
    method Settle() returns (fired: bool)
      requires Valid()
      modifies this
      ensures Valid()
      ensures fired == (old(pendingSettles) > 0)
      ensures fired ==> !isTyping && pendingSettles == old(pendingSettles) - 1
      ensures !fired ==> unchanged(this)
      ensures message == old(message) && text == old(text) && i == old(i) && intervalActive == old(intervalActive)
    {
      fired := pendingSettles > 0;
      if fired {
        isTyping := false;
        pendingSettles := pendingSettles - 1;
      }
    }

    /** The cleanup on unmount: the interval is cleared, a scheduled settle is not. */
    method Cleanup()
      requires Valid()
      modifies this
      ensures Valid()
      ensures !intervalActive
      ensures message == old(message) && text == old(text) && i == old(i)
      ensures isTyping == old(isTyping) && pendingSettles == old(pendingSettles)
    {
      intervalActive := false;
    }

    /**
      The interval firing until it clears itself: after `LastIndex(message) - i + 1`
      ticks the text is final and one settle is scheduled; `isTyping` is untouched.
     */
    method TypeOut() returns (ticks: nat)
      requires Valid() && intervalActive
      modifies this
      ensures Valid() && !intervalActive
      ensures ticks == LastIndex(message) - old(i) + 1
      ensures message == old(message) && text == FinalText(message)
      ensures isTyping == old(isTyping) && pendingSettles == old(pendingSettles) + 1
    {
      ticks := 0;
      while intervalActive
        invariant Valid()
        invariant message == old(message) && isTyping == old(isTyping)
        invariant intervalActive ==> ticks == i - old(i) && pendingSettles == old(pendingSettles)
        invariant !intervalActive ==> ticks == LastIndex(message) - old(i) + 1 && text == FinalText(message)
        invariant !intervalActive ==> pendingSettles == old(pendingSettles) + 1
        invariant old(i) <= i
        decreases LastIndex(message) - i + (if intervalActive then 1 else 0)
      {
        var wasLast := !(i < |message| - 1);
        var _ := Tick();
        ticks := ticks + 1;
        if wasLast {
          assert i == LastIndex(message);
        }
      }
    }
  }

  /** Revealing "abc" shows "aab": the first character twice, the last never. */
  method RevealAbc() returns (shown: Option<string>)
    ensures shown == Some("aab")
  {
    var t := new TypingEffect("abc");
    var _ := t.TypeOut();
    shown := t.text;
    FinalTextLiteral("abc");
    assert "abc"[..2] == "ab";
    assert ['a'] + "ab" == "aab";
  }

  /**
    A settle timeout scheduled for an earlier message still fires after a new
    message starts: `isTyping` turns false while the new message is revealing.
   */
  method StaleSettleWhileRevealing() returns (revealing: bool, typing: bool)
    ensures revealing && !typing
  {
    var t := new TypingEffect("a");
    var _ := t.Tick();
    t.Render("hello");
    var _ := t.Tick();
    var _ := t.Settle();
    revealing, typing := t.intervalActive, t.isTyping;
  }
}
